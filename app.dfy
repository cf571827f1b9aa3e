/** The first-person game: the module-level state of the game script (player
    position and rotation, movement speed, key map, scene children) gathered in
    one object, with the event handlers, the collision scan, the per-frame
    movement update and the block placement. */
module App {
  import opened Geometry
  import opened Controls
  import opened Scene
  import opened Movement

  /** Where the player starts. */
  const SpawnPosition: Vec3 := Vec3(2.0, 40.0, 7.0)

  /** Starting movement speed, in units per second. */
  const InitialSpeed: real := 10.0

  /** Blocks per side of the grid. */
  const GridSide: nat := 10

  class FirstPersonGame {
    /** Position of the yaw object, which carries the pitch object and camera. */
    var position: Vec3
    /** Rotation of the yaw object about Y. */
    var yaw: real
    /** Rotation of the pitch object about its X axis. */
    var pitch: real
    var movementSpeed: real
    var keyState: KeyState
    /** The scene's direct children, in insertion order. */
    var children: seq<SceneChild>
    /** The identity of the yaw object among the children. */
    const yawId: ObjectId
    /** The next identity handed to a new scene object. */
    var nextId: ObjectId

    ghost predicate Valid()
      reads this
    {
      -HalfPi <= pitch <= HalfPi &&
      yawId < nextId &&
      forall k :: 0 <= k < |children| ==> children[k].id < nextId
    }

    /** Scene set-up as far as the movement layer sees it: the yaw object, the
        ambient and point lights (no geometry), then the 10 x 10 block grid,
        block k drawing its height from `rands[k]`. */
    constructor (rands: seq<real>)
      requires |rands| == GridSide * GridSide
      requires forall k :: 0 <= k < |rands| ==> 0.0 <= rands[k] < 1.0
      ensures Valid()
      ensures position == SpawnPosition && yaw == 0.0 && pitch == 0.0
      ensures movementSpeed == InitialSpeed && keyState == map[]
      ensures |children| == 3 + GridSide * GridSide
      ensures children[0] == SceneChild(yawId, EmptyBox)
      ensures children[1].bounds == EmptyBox && children[2].bounds == EmptyBox
      ensures forall k :: 0 <= k < GridSide * GridSide ==>
        children[3..][k].id != yawId &&
        children[3..][k].bounds == BlockBounds(GridCell(k).0, GridCell(k).1, BlockSize, rands[k])
    {
      yawId := 0;
      position := SpawnPosition;
      yaw, pitch := 0.0, 0.0;
      movementSpeed := InitialSpeed;
      keyState := map[];
      children := [SceneChild(0, EmptyBox), SceneChild(1, EmptyBox), SceneChild(2, EmptyBox)];
      nextId := 3;
      new;
      PlaceGrid(rands);
    }

    /** keydown: the pressed key reads as held, every other entry is kept. */
    method OnKeyDown(code: KeyCode)
      modifies this`keyState
      ensures keyState == KeyEvent(old(keyState), code, true)
    {
      keyState := keyState[code := true];
    }

    /** keyup: the released key reads as not held, every other entry is kept. */
    method OnKeyUp(code: KeyCode)
      modifies this`keyState
      ensures keyState == KeyEvent(old(keyState), code, false)
    {
      keyState := keyState[code := false];
    }

    /** Pointer motion turns the view only while the pointer is locked; the
        pitch is clamped to [-PI/2, PI/2], the yaw is not bounded. */
    method OnMouseMove(pointerLocked: bool, movementX: Option<real>, movementY: Option<real>)
      requires Valid()
      modifies this`yaw, this`pitch
      ensures Valid()
      ensures !pointerLocked ==> yaw == old(yaw) && pitch == old(pitch)
      ensures pointerLocked ==> yaw == old(yaw) - OrZero(movementX) * Sensitivity
      ensures pointerLocked ==> pitch == ClampPitch(old(pitch) - OrZero(movementY) * Sensitivity)
    {
      if pointerLocked {
        var mx := OrZero(movementX);
        var my := OrZero(movementY);
        yaw := yaw - mx * Sensitivity;
        pitch := pitch - my * Sensitivity;
        pitch := Max(-HalfPi, Min(HalfPi, pitch));
      }
    }

    /** The collision query: a scan over the scene children, skipping the yaw
        object, that stops at the first box meeting the player's cube. */
    method CheckCollision() returns (hit: bool)
      ensures hit == Collides(position, children, yawId)
    {
      var objectBox := PlayerBox(position);
      var i := 0;
      while i < |children|
        invariant 0 <= i <= |children|
        invariant forall k :: 0 <= k < i ==> !Blocks(position, children[k], yawId)
      {
        var child := children[i];
        if child.id != yawId {
          if Intersects(objectBox, child.bounds) {
            return true;
          }
        }
        i := i + 1;
      }
      return false;
    }

    /** One frame of movement. The distance is fixed from the speed at the start
        of the frame; E/Q then rescale the speed for the next frame. The key
        moves are applied one by one and undone together on a collision; then
        a gravity step is tried and undone on a collision. */
    method UpdateCameraPosition(delta: real, heading: Heading)
      requires Valid()
      modifies this`position, this`movementSpeed
      ensures Valid()
      ensures movementSpeed == SpeedAfter(old(movementSpeed), keyState)
      ensures position == TickPosition(old(position), KeyDisplacement(keyState, old(movementSpeed) * delta, heading), children, yawId)
      ensures !Collides(old(position), children, yawId) ==> !Collides(position, children, yawId)
    {
      var moveDistance := movementSpeed * delta;
      var oldPosition := position;
      if Held(keyState, KeyE) {
        movementSpeed := movementSpeed * SpeedFactor;
      }
      if Held(keyState, KeyQ) {
        movementSpeed := movementSpeed / SpeedFactor;
      }

      ApplyMovementKeys(moveDistance, heading);
      var hit := CheckCollision();
      if hit {
        position := oldPosition;
      }

      oldPosition := position;
      position := Translate(position, WorldUp, -Gravity);
      hit := CheckCollision();
      if hit {
        position := oldPosition;
      }
      if !Collides(old(position), children, yawId) {
        TickKeepsClear(old(position), KeyDisplacement(keyState, moveDistance, heading), children, yawId);
      }
    }

    /** The key phase of a frame: W/S along local Z, A/D along local X, Space
        and ShiftLeft along world Y, one translation per held key. */
    method ApplyMovementKeys(moveDistance: real, heading: Heading)
      modifies this`position
      ensures position == Add(old(position), KeyDisplacement(keyState, moveDistance, heading))
    {
      ghost var before := position;
      if Held(keyState, KeyW) {
        position := Translate(position, LocalZ(heading), -moveDistance);
      }
      if Held(keyState, KeyS) {
        position := Translate(position, LocalZ(heading), moveDistance);
      }
      assert position == StepIf(StepIf(before, LocalZ(heading), Held(keyState, KeyW), -moveDistance), LocalZ(heading), Held(keyState, KeyS), moveDistance);
      PairOfSteps(before, LocalZ(heading), keyState, KeyW, KeyS, moveDistance, true);
      ghost var alongZ := position;
      if Held(keyState, KeyA) {
        position := Translate(position, LocalX(heading), -moveDistance);
      }
      if Held(keyState, KeyD) {
        position := Translate(position, LocalX(heading), moveDistance);
      }
      assert position == StepIf(StepIf(alongZ, LocalX(heading), Held(keyState, KeyA), -moveDistance), LocalX(heading), Held(keyState, KeyD), moveDistance);
      PairOfSteps(alongZ, LocalX(heading), keyState, KeyA, KeyD, moveDistance, true);
      ghost var alongX := position;
      if Held(keyState, Space) {
        position := Translate(position, WorldUp, moveDistance);
      }
      if Held(keyState, ShiftLeft) {
        position := Translate(position, WorldUp, -moveDistance);
      }
      assert position == StepIf(StepIf(alongX, WorldUp, Held(keyState, Space), moveDistance), WorldUp, Held(keyState, ShiftLeft), -moveDistance);
      PairOfSteps(alongX, WorldUp, keyState, ShiftLeft, Space, moveDistance, false);
      AxesAddUp(before, keyState, moveDistance, heading);
    }

    /** Adds one block for grid cell (i, j) with the height drawn from `rand`. */
    method CreateRandomCube(i: int, j: int, size: real, rand: real)
      requires Valid()
      requires size > 0.0 && 0.0 <= rand < 1.0
      modifies this`children, this`nextId
      ensures Valid()
      ensures children == old(children) + [SceneChild(old(nextId), BlockBounds(i, j, size, rand))]
      ensures old(nextId) != yawId
    {
      children := children + [SceneChild(nextId, BlockBounds(i, j, size, rand))];
      nextId := nextId + 1;
    }

    /** The nested loop over i, j in 0..GridSide - 1 placing a block at cell
        (i - 5, j - 5). */
    method PlaceGrid(rands: seq<real>)
      requires Valid()
      requires |rands| == GridSide * GridSide
      requires forall k :: 0 <= k < |rands| ==> 0.0 <= rands[k] < 1.0
      modifies this`children, this`nextId
      ensures Valid()
      ensures |children| == |old(children)| + GridSide * GridSide
      ensures children[..|old(children)|] == old(children)
      ensures forall k :: 0 <= k < GridSide * GridSide ==>
        children[|old(children)|..][k].id != yawId &&
        children[|old(children)|..][k].bounds == BlockBounds(GridCell(k).0, GridCell(k).1, BlockSize, rands[k])
    {
      ghost var n0 := |children|;
      var i := 0;
      while i < GridSide
        invariant 0 <= i <= GridSide
        invariant Valid()
        invariant |children| == n0 + GridSide * i
        invariant children[..n0] == old(children)
        invariant forall k :: 0 <= k < GridSide * i ==>
          children[n0..][k].id != yawId &&
          children[n0..][k].bounds == BlockBounds(GridCell(k).0, GridCell(k).1, BlockSize, rands[k])
      {
        var j := 0;
        while j < GridSide
          invariant 0 <= j <= GridSide
          invariant Valid()
          invariant |children| == n0 + GridSide * i + j
          invariant children[..n0] == old(children)
          invariant forall k :: 0 <= k < GridSide * i + j ==>
            children[n0..][k].id != yawId &&
            children[n0..][k].bounds == BlockBounds(GridCell(k).0, GridCell(k).1, BlockSize, rands[k])
        {
          ghost var before := children;
          CreateRandomCube(i - 5, j - 5, BlockSize, rands[GridSide * i + j]);
          assert GridCell(GridSide * i + j) == (i - 5, j - 5);
          assert forall k :: 0 <= k < GridSide * i + j ==> children[n0..][k] == before[n0..][k];
          j := j + 1;
        }
        i := i + 1;
      }
    }
  }
}
