/** The engine wrapper: an object holding the camera rig, the key map and the
    animation on/off state, with its input handlers, its walking controller and
    the start/pause/resume/stop state machine around the frame loop. */
module ThreeWrap {
  import opened Geometry
  import opened Controls
  import opened Movement

  /** The animation flags of the wrapper. `animationId` is the id of the last
      frame request, or `None` before any frame has been requested. */
  datatype AnimationState = AnimationState(isAnimating: bool, animationId: Option<int>)

  /** How `if (this.animationId)` reads the id: absent and 0 are false. */
  predicate Truthy(id: Option<int>) {
    id.Some? && id.value != 0
  }

  /** One run of the loop body: nothing when not animating. Otherwise the
      update callback runs; when it returns (`completes`) a frame is requested
      and its id recorded, and when it throws the body ends before the request,
      so no id is recorded. */
  function LoopStep(s: AnimationState, frame: int, completes: bool): AnimationState {
    if !s.isAnimating || !completes then s else s.(animationId := Some(frame))
  }

  /** `animate`: when already animating nothing happens; otherwise the flag is
      set and the loop body runs once. */
  function Animated(s: AnimationState, frame: int, completes: bool): AnimationState {
    if s.isAnimating then s else LoopStep(s.(isAnimating := true), frame, completes)
  }

  /** `pause`: clears the flag and keeps the frame id. */
  function Paused(s: AnimationState): AnimationState {
    s.(isAnimating := false)
  }

  /** `stopAnimation`: clears the flag only when there is a truthy frame id;
      the id itself is kept. */
  function Stopped(s: AnimationState): AnimationState {
    if Truthy(s.animationId) then s.(isAnimating := false) else s
  }

  /** After `animate` the wrapper is animating, and a second `animate` changes
      nothing, whatever frame id the host would have handed out. */
  lemma AnimateIdempotent(s: AnimationState, first: int, second: int, c1: bool, c2: bool)
    ensures Animated(s, first, c1).isAnimating
    ensures Animated(Animated(s, first, c1), second, c2) == Animated(s, first, c1)
    ensures s.isAnimating ==> Animated(s, first, c1) == s
  {
  }

  /** Starting from rest, `animate` runs the loop body once; the requested
      frame is recorded exactly when the update callback returns. */
  lemma AnimateFromRest(s: AnimationState, frame: int, completes: bool)
    requires !s.isAnimating
    ensures completes ==> Animated(s, frame, completes) == AnimationState(true, Some(frame))
    ensures !completes ==> Animated(s, frame, completes) == AnimationState(true, s.animationId)
  {
  }

  /** After `pause` the flag is off and the next loop body does nothing. */
  lemma PauseSilencesLoop(s: AnimationState, frame: int, completes: bool)
    ensures !Paused(s).isAnimating
    ensures LoopStep(Paused(s), frame, completes) == Paused(s)
  {
  }

  /** `stopAnimation` without a truthy frame id is a no-op; with one it acts
      like `pause`. */
  lemma StopNeedsFrameId(s: AnimationState)
    ensures !Truthy(s.animationId) ==> Stopped(s) == s
    ensures Truthy(s.animationId) ==> Stopped(s) == Paused(s)
  {
  }

  /** A fresh wrapper whose first frame throws in the update callback is left
      running with no frame id, and only then: a first frame that returns
      records an id. In that state `animate`, `resume` and `stopAnimation` all
      change nothing and no further frame is pending; only `pause` gets the
      wrapper back to rest. */
  lemma FailedFirstFrameWedges(frame: int, later: int, completes: bool)
    ensures Animated(AnimationState(false, None), frame, completes) == AnimationState(true, None) <==> !completes
    ensures var s := AnimationState(true, None);
      Stopped(s) == s && Animated(s, later, completes) == s &&
      Paused(s) == AnimationState(false, None)
  {
  }

  /** Once `animate` has requested a non-zero frame id, `stopAnimation` stops it. */
  lemma StopAfterAnimate(s: AnimationState, frame: int)
    requires !s.isAnimating && frame != 0
    ensures !Stopped(Animated(s, frame, true)).isAnimating
  {
  }

  class ThreeJSApp {
    /** Position of the yaw object. */
    var position: Vec3
    /** Rotation of the yaw object about Y. */
    var yaw: real
    /** Rotation of the pitch object about its X axis. */
    var pitch: real
    var keyState: KeyState
    var isAnimating: bool
    var animationId: Option<int>

    ghost predicate Valid()
      reads this
    {
      -HalfPi <= pitch <= HalfPi
    }

    ghost function Animation(): AnimationState
      reads this
    {
      AnimationState(isAnimating, animationId)
    }

    /** The wrapper starts at the origin, not animating, with no frame id. */
    constructor ()
      ensures Valid()
      ensures position == Vec3(0.0, 0.0, 0.0) && yaw == 0.0 && pitch == 0.0
      ensures keyState == map[]
      ensures Animation() == AnimationState(false, None)
    {
      position := Vec3(0.0, 0.0, 0.0);
      yaw, pitch := 0.0, 0.0;
      keyState := map[];
      isAnimating := false;
      animationId := None;
    }

    /** keydown: the pressed key reads as held, every other entry is kept. */
    method OnKeyDown(code: KeyCode)
      modifies this`keyState
      ensures keyState == KeyEvent(old(keyState), code, true)
    {
      keyState := keyState[code := true];
    }

    /** keyup: the released key reads as not held, every other entry is kept. */
    method OnKeyUp(code: KeyCode)
      modifies this`keyState
      ensures keyState == KeyEvent(old(keyState), code, false)
    {
      keyState := keyState[code := false];
    }

    /** Pointer motion turns the view only while the pointer is locked; the
        pitch is clamped to [-PI/2, PI/2], the yaw is not bounded. */
    method OnMouseMove(pointerLocked: bool, movementX: Option<real>, movementY: Option<real>)
      requires Valid()
      modifies this`yaw, this`pitch
      ensures Valid()
      ensures !pointerLocked ==> yaw == old(yaw) && pitch == old(pitch)
      ensures pointerLocked ==> yaw == old(yaw) - OrZero(movementX) * Sensitivity
      ensures pointerLocked ==> pitch == ClampPitch(old(pitch) - OrZero(movementY) * Sensitivity)
    {
      if pointerLocked {
        var mx := OrZero(movementX);
        var my := OrZero(movementY);
        yaw := yaw - mx * Sensitivity;
        pitch := pitch - my * Sensitivity;
        pitch := Max(-HalfPi, Min(HalfPi, pitch));
      }
    }

    /** Walking: each held W/S/A/D key translates by 10 * delta along the yaw
        object's local axis; no collision check, no vertical motion. */
    method UpdateCameraPosition(delta: real, heading: Heading)
      modifies this`position
      ensures position == Add(old(position), WalkDisplacement(keyState, WalkSpeed * delta, heading))
      ensures position.y == old(position).y
    {
      var moveDistance := WalkSpeed * delta;
      ghost var before := position;
      if Held(keyState, KeyW) {
        position := Translate(position, LocalZ(heading), -moveDistance);
      }
      if Held(keyState, KeyS) {
        position := Translate(position, LocalZ(heading), moveDistance);
      }
      assert position == StepIf(StepIf(before, LocalZ(heading), Held(keyState, KeyW), -moveDistance), LocalZ(heading), Held(keyState, KeyS), moveDistance);
      PairOfSteps(before, LocalZ(heading), keyState, KeyW, KeyS, moveDistance, true);
      ghost var alongZ := position;
      if Held(keyState, KeyA) {
        position := Translate(position, LocalX(heading), -moveDistance);
      }
      if Held(keyState, KeyD) {
        position := Translate(position, LocalX(heading), moveDistance);
      }
      assert position == StepIf(StepIf(alongZ, LocalX(heading), Held(keyState, KeyA), -moveDistance), LocalX(heading), Held(keyState, KeyD), moveDistance);
      PairOfSteps(alongZ, LocalX(heading), keyState, KeyA, KeyD, moveDistance, true);
      WalkIsLevel(keyState, moveDistance, heading);
    }

    /** `pause`: the flag goes off; the frame id is kept. */
    method Pause()
      modifies this`isAnimating
      ensures Animation() == Paused(old(Animation()))
    {
      isAnimating := false;
    }

    /** One frame of the loop: while animating, walk, run the update callback
        and, if it returns (`updateCompletes`), record the id of the next frame
        request; otherwise return at once. A throwing callback ends the body
        after the walk and before the request. */
    method AnimateLoop(delta: real, heading: Heading, frame: int, updateCompletes: bool)
      modifies this`position, this`animationId
      ensures Animation() == LoopStep(old(Animation()), frame, updateCompletes)
      ensures old(isAnimating) ==> position == Add(old(position), WalkDisplacement(keyState, WalkSpeed * delta, heading))
      ensures !old(isAnimating) ==> position == old(position)
    {
      if !isAnimating {
        return;
      }
      UpdateCameraPosition(delta, heading);
      if !updateCompletes {
        return;
      }
      animationId := Some(frame);
    }

    /** `animate`: start the loop unless it is already running. */
    method Animate(delta: real, heading: Heading, frame: int, updateCompletes: bool)
      modifies this`position, this`isAnimating, this`animationId
      ensures Animation() == Animated(old(Animation()), frame, updateCompletes)
      ensures old(isAnimating) ==> position == old(position)
      ensures !old(isAnimating) ==> position == Add(old(position), WalkDisplacement(keyState, WalkSpeed * delta, heading))
    {
      if !isAnimating {
        isAnimating := true;
        AnimateLoop(delta, heading, frame, updateCompletes);
      }
    }

    /** `resume` is `animate`. */
    method Resume(delta: real, heading: Heading, frame: int, updateCompletes: bool)
      modifies this`position, this`isAnimating, this`animationId
      ensures Animation() == Animated(old(Animation()), frame, updateCompletes)
      ensures old(isAnimating) ==> position == old(position)
      ensures !old(isAnimating) ==> position == Add(old(position), WalkDisplacement(keyState, WalkSpeed * delta, heading))
    {
      Animate(delta, heading, frame, updateCompletes);
    }

    /** `stopAnimation`: clears the flag only when a truthy frame id is held. */
    method StopAnimation()
      modifies this`isAnimating
      ensures Animation() == Stopped(old(Animation()))
    {
      if Truthy(animationId) {
        isAnimating := false;
      }
    }
  }
}
