/** The scene as the collision query sees it: a sequence of children, each with
    an identity and the world box computed from it, the player's collision cube,
    and the boxes of the blocks laid out on the grid. */
module Scene {
  import opened Geometry

  /** Object identity, standing for reference equality of scene objects. */
  type ObjectId = nat

  /** A direct child of the scene together with its world-space bounding box. */
  datatype SceneChild = SceneChild(id: ObjectId, bounds: Box)

  /** Half the edge of the cube placed around the player for collisions. */
  const CollisionMargin: real := 1.0

  /** The cube [p - margin, p + margin] on every axis. */
  function PlayerBox(p: Vec3): (b: Box)
    ensures b.Bounds?
    ensures b.hi.x - b.lo.x == 2.0 * CollisionMargin && (b.lo.x + b.hi.x) / 2.0 == p.x
    ensures b.hi.y - b.lo.y == 2.0 * CollisionMargin && (b.lo.y + b.hi.y) / 2.0 == p.y
    ensures b.hi.z - b.lo.z == 2.0 * CollisionMargin && (b.lo.z + b.hi.z) / 2.0 == p.z
  {
    var m := CollisionMargin;
    Bounds(Add(p, Vec3(-m, -m, -m)), Add(p, Vec3(m, m, m)))
  }

  /** Some child other than the player itself has a box meeting the player's
      cube. This is what the collision scan decides. */
  predicate Collides(p: Vec3, children: seq<SceneChild>, self: ObjectId) {
    exists k :: 0 <= k < |children| && Blocks(p, children[k], self)
  }

  /** Child `c` stands in the way of a player at `p`. */
  predicate Blocks(p: Vec3, c: SceneChild, self: ObjectId) {
    c.id != self && Intersects(PlayerBox(p), c.bounds)
  }

  /** The overlap test spelled out: a child blocks exactly when its box reaches
      within the margin of the player's centre on each of the three axes. */
  lemma BlocksWithinMargin(p: Vec3, c: SceneChild, self: ObjectId)
    ensures Blocks(p, c, self) <==>
      c.id != self && c.bounds.Bounds? &&
      c.bounds.lo.x - CollisionMargin <= p.x <= c.bounds.hi.x + CollisionMargin &&
      c.bounds.lo.y - CollisionMargin <= p.y <= c.bounds.hi.y + CollisionMargin &&
      c.bounds.lo.z - CollisionMargin <= p.z <= c.bounds.hi.z + CollisionMargin
  {
  }

  /** The scan over a concatenation finds a hit exactly when one of the parts has one. */
  lemma {:induction false} CollidesAppend(p: Vec3, a: seq<SceneChild>, b: seq<SceneChild>, self: ObjectId)
    ensures Collides(p, a + b, self) <==> Collides(p, a, self) || Collides(p, b, self)
  {
    if Collides(p, a + b, self) {
      var k :| 0 <= k < |a + b| && Blocks(p, (a + b)[k], self);
      if k < |a| {
        assert a[k] == (a + b)[k];
      } else {
        assert b[k - |a|] == (a + b)[k];
      }
    }
    if Collides(p, a, self) {
      var k :| 0 <= k < |a| && Blocks(p, a[k], self);
      assert (a + b)[k] == a[k];
    }
    if Collides(p, b, self) {
      var k :| 0 <= k < |b| && Blocks(p, b[k], self);
      assert (a + b)[|a| + k] == b[k];
    }
  }

  /** Children that never block (the player itself, lights and empty groups,
      whose boxes are empty) can be dropped without changing the answer. */
  lemma {:induction false} NonBlockingChildrenIgnored(p: Vec3, quiet: seq<SceneChild>, rest: seq<SceneChild>, self: ObjectId)
    requires forall k :: 0 <= k < |quiet| ==> quiet[k].id == self || quiet[k].bounds == EmptyBox
    ensures Collides(p, quiet + rest, self) <==> Collides(p, rest, self)
  {
    CollidesAppend(p, quiet, rest, self);
    forall k | 0 <= k < |quiet|
      ensures !Blocks(p, quiet[k], self)
    {
      EmptyMeetsNothing(PlayerBox(p));
    }
  }

  /** Edge of every grid block, and the spacing of the grid. */
  const BlockSize: real := 10.0

  /** The height drawn for a block: `size * (rand * 2 + 1)` with `rand` in [0, 1). */
  function BlockHeight(size: real, rand: real): (h: real)
    requires size > 0.0 && 0.0 <= rand < 1.0
    ensures size <= h < 3.0 * size
  {
    size * (rand * 2.0 + 1.0)
  }

  /** World box of the block created for grid cell (i, j): a size x height x size
      box centred at (size * i, height / 2, size * j). */
  function BlockBounds(i: int, j: int, size: real, rand: real): (b: Box)
    requires size > 0.0 && 0.0 <= rand < 1.0
    ensures b.Bounds?
    ensures b.lo.y == 0.0 && b.hi.y == BlockHeight(size, rand)
    ensures (b.lo.x + b.hi.x) / 2.0 == size * i as real && b.hi.x - b.lo.x == size
    ensures (b.lo.z + b.hi.z) / 2.0 == size * j as real && b.hi.z - b.lo.z == size
  {
    var height := BlockHeight(size, rand);
    var centre := Vec3(size * i as real, height / 2.0, size * j as real);
    var half := Vec3(size / 2.0, height / 2.0, size / 2.0);
    Bounds(Add(centre, Scale(-1.0, half)), Add(centre, half))
  }

  /** Grid cell of the k-th block placed by the nested loop over i, j in 0..9,
      each shifted by -5. */
  function GridCell(k: nat): (ij: (int, int))
    requires k < 100
    ensures -5 <= ij.0 <= 4 && -5 <= ij.1 <= 4
    ensures k == 10 * (ij.0 + 5) + (ij.1 + 5)
  {
    (k / 10 - 5, k % 10 - 5)
  }

  /** The 100 placements land in 100 different cells: a full 10 x 10 grid. */
  lemma GridCellsDistinct(k1: nat, k2: nat)
    requires k1 < 100 && k2 < 100 && k1 != k2
    ensures GridCell(k1) != GridCell(k2)
  {
  }
}
