/** What one movement tick does to the player's position and speed, as functions
    of the position, speed and key state at the start of the tick. The step-by-
    step methods in modules App and ThreeWrap are proved against these. */
module Movement {
  import opened Geometry
  import opened Controls
  import opened Scene

  /** Fixed fall per tick, independent of the clock. */
  const Gravity: real := 0.1

  /** Factor applied to the speed per tick while E (up) or Q (down) is held. */
  const SpeedFactor: real := 1.01

  /** Speed in the wrapper's walking controller, in units per second. */
  const WalkSpeed: real := 10.0

  /** Speed after one tick: E multiplies by the factor, then Q divides by it. */
  function SpeedAfter(speed: real, keys: KeyState): real {
    var up := if Held(keys, KeyE) then speed * SpeedFactor else speed;
    if Held(keys, KeyQ) then up / SpeedFactor else up
  }

  /** E alone speeds up by the factor, Q alone slows down by it, both or
      neither leave the speed as it was; a positive speed stays positive. */
  lemma SpeedModifier(speed: real, keys: KeyState)
    ensures Held(keys, KeyE) == Held(keys, KeyQ) ==> SpeedAfter(speed, keys) == speed
    ensures Held(keys, KeyE) && !Held(keys, KeyQ) ==> SpeedAfter(speed, keys) == speed * SpeedFactor
    ensures !Held(keys, KeyE) && Held(keys, KeyQ) ==> SpeedAfter(speed, keys) * SpeedFactor == speed
    ensures speed > 0.0 ==> SpeedAfter(speed, keys) > 0.0
  {
  }

  /** Net signed distance along one axis: +d if `pos` is held, -d if `neg` is. */
  function AxisAmount(keys: KeyState, neg: KeyCode, pos: KeyCode, d: real): real {
    (if Held(keys, pos) then d else 0.0) - (if Held(keys, neg) then d else 0.0)
  }

  /** One conditional translation, as the key handlers in the frame update do it. */
  function StepIf(p: Vec3, axis: Vec3, held: bool, distance: real): Vec3 {
    if held then Translate(p, axis, distance) else p
  }

  /** The two conditional translations along one axis, in either order, add up
      to the axis amount along that axis. */
  lemma PairOfSteps(p: Vec3, axis: Vec3, keys: KeyState, neg: KeyCode, pos: KeyCode, d: real, negFirst: bool)
    ensures var q := if negFirst
                     then StepIf(StepIf(p, axis, Held(keys, neg), -d), axis, Held(keys, pos), d)
                     else StepIf(StepIf(p, axis, Held(keys, pos), d), axis, Held(keys, neg), -d);
            q == Add(p, Scale(AxisAmount(keys, neg, pos, d), axis))
  {
  }

  /** Opposite keys cancel: with both held the axis moves exactly as with neither. */
  lemma OppositeKeysCancel(keys: KeyState, neg: KeyCode, pos: KeyCode, d: real)
    requires Held(keys, neg) && Held(keys, pos)
    ensures AxisAmount(keys, neg, pos, d) == 0.0
    ensures AxisAmount(keys, neg, pos, d) == AxisAmount(keys[neg := false][pos := false], neg, pos, d)
  {
  }

  /** Ground-plane displacement from W/S (local -Z/+Z) and A/D (local -X/+X). */
  function WalkDisplacement(keys: KeyState, d: real, h: Heading): Vec3 {
    Add(Scale(AxisAmount(keys, KeyW, KeyS, d), LocalZ(h)), Scale(AxisAmount(keys, KeyA, KeyD, d), LocalX(h)))
  }

  /** Walking never changes the height, and with no walking key held it moves
      nothing. */
  lemma WalkIsLevel(keys: KeyState, d: real, h: Heading)
    ensures WalkDisplacement(keys, d, h).y == 0.0
    ensures !Held(keys, KeyW) && !Held(keys, KeyS) && !Held(keys, KeyA) && !Held(keys, KeyD) ==>
      WalkDisplacement(keys, d, h) == Vec3(0.0, 0.0, 0.0)
  {
  }

  /** Key displacement of the first-person game: walking plus Space (up) and
      ShiftLeft (down) along world Y. */
  function KeyDisplacement(keys: KeyState, d: real, h: Heading): Vec3 {
    Add(WalkDisplacement(keys, d, h), Scale(AxisAmount(keys, ShiftLeft, Space, d), WorldUp))
  }

  /** Only Space and ShiftLeft change the height; x and z come from walking. */
  lemma VerticalOnlyFromSpaceAndShift(keys: KeyState, d: real, h: Heading)
    ensures KeyDisplacement(keys, d, h).y == AxisAmount(keys, ShiftLeft, Space, d)
    ensures KeyDisplacement(keys, d, h).x == WalkDisplacement(keys, d, h).x
    ensures KeyDisplacement(keys, d, h).z == WalkDisplacement(keys, d, h).z
  {
  }

  /** Moving along local Z, then local X, then world Y adds up to the key
      displacement. */
  lemma AxesAddUp(p: Vec3, keys: KeyState, d: real, h: Heading)
    ensures Add(Add(Add(p, Scale(AxisAmount(keys, KeyW, KeyS, d), LocalZ(h))),
                    Scale(AxisAmount(keys, KeyA, KeyD, d), LocalX(h))),
                Scale(AxisAmount(keys, ShiftLeft, Space, d), WorldUp))
            == Add(p, KeyDisplacement(keys, d, h))
  {
  }

  /** Holding every movement key at once moves nothing. */
  lemma AllKeysCancel(keys: KeyState, d: real, h: Heading)
    requires Held(keys, KeyW) && Held(keys, KeyS) && Held(keys, KeyA) && Held(keys, KeyD)
    requires Held(keys, Space) && Held(keys, ShiftLeft)
    ensures KeyDisplacement(keys, d, h) == Vec3(0.0, 0.0, 0.0)
  {
  }

  /** First phase: keep the moved position unless it collides, else stay put. */
  function AfterKeys(start: Vec3, move: Vec3, children: seq<SceneChild>, self: ObjectId): (p: Vec3)
    ensures p == start || p == Add(start, move)
    ensures p == Add(start, move) <== !Collides(Add(start, move), children, self)
    ensures Collides(Add(start, move), children, self) ==> p == start
  {
    var moved := Add(start, move);
    if Collides(moved, children, self) then start else moved
  }

  /** The position one gravity step below `p`. */
  function Lowered(p: Vec3): (q: Vec3)
    ensures q.x == p.x && q.z == p.z && q.y == p.y - Gravity
  {
    Translate(p, WorldUp, -Gravity)
  }

  /** Second phase: drop by the gravity step unless that collides. */
  function AfterGravity(p: Vec3, children: seq<SceneChild>, self: ObjectId): (q: Vec3)
    ensures q.x == p.x && q.z == p.z
    ensures q.y == p.y - Gravity <==> !Collides(Lowered(p), children, self)
    ensures q.y == p.y <==> Collides(Lowered(p), children, self)
  {
    var lowered := Lowered(p);
    if Collides(lowered, children, self) then p else lowered
  }

  /** End-of-tick position of the first-person game. */
  function TickPosition(start: Vec3, move: Vec3, children: seq<SceneChild>, self: ObjectId): Vec3 {
    AfterGravity(AfterKeys(start, move, children, self), children, self)
  }

  /** Only four end positions are reachable in one tick. */
  lemma TickReachable(start: Vec3, move: Vec3, children: seq<SceneChild>, self: ObjectId)
    ensures var p := TickPosition(start, move, children, self);
      p == start || p == Add(start, move) ||
      p == Lowered(start) || p == Lowered(Add(start, move))
  {
  }

  /** A tick never ends inside an obstacle it did not start inside: each phase
      either keeps the previous position or moves to one that does not collide. */
  lemma TickKeepsClear(start: Vec3, move: Vec3, children: seq<SceneChild>, self: ObjectId)
    requires !Collides(start, children, self)
    ensures !Collides(TickPosition(start, move, children, self), children, self)
  {
  }

  /** With nothing around to collide with, the player moves by the keys and
      falls by the full gravity step. */
  lemma TickInOpenSpace(start: Vec3, move: Vec3, children: seq<SceneChild>, self: ObjectId)
    requires forall k :: 0 <= k < |children| ==> children[k].id == self || children[k].bounds == EmptyBox
    ensures TickPosition(start, move, children, self) == Lowered(Add(start, move))
  {
  }

  /** Standing on something: if the lowered position collides, the tick leaves
      the height where the key phase put it. */
  lemma TickLanded(start: Vec3, move: Vec3, children: seq<SceneChild>, self: ObjectId)
    requires Collides(Lowered(AfterKeys(start, move, children, self)), children, self)
    ensures TickPosition(start, move, children, self) == AfterKeys(start, move, children, self)
  {
  }

  /** Falling onto a grid block: a player over the block's footprint (widened
      by the margin) whose centre is less than one gravity step above the
      block's top plus the margin is clear of the block, but one step lower
      would meet it, so gravity stops there. */
  lemma LandsOnBlock(p: Vec3, c: SceneChild, self: ObjectId, i: int, j: int, rand: real)
    requires 0.0 <= rand < 1.0
    requires c.id != self && c.bounds == BlockBounds(i, j, BlockSize, rand)
    requires c.bounds.lo.x - CollisionMargin <= p.x <= c.bounds.hi.x + CollisionMargin
    requires c.bounds.lo.z - CollisionMargin <= p.z <= c.bounds.hi.z + CollisionMargin
    requires BlockHeight(BlockSize, rand) + CollisionMargin < p.y <= BlockHeight(BlockSize, rand) + CollisionMargin + Gravity
    ensures !Blocks(p, c, self)
    ensures Blocks(Lowered(p), c, self)
  {
  }
}
