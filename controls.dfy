/** Raw input shared by both controllers: the key-state map written by the
    keydown/keyup handlers, and the yaw/pitch look rule of the mouse handler. */
module Controls {

  datatype Option<T> = None | Some(value: T)

  /** A physical key code such as "KeyW" or "ShiftLeft". */
  type KeyCode = string

  /** The key-state object: a code absent from the map reads as `undefined`,
      which the movement code treats like `false`. */
  type KeyState = map<KeyCode, bool>

  const KeyW: KeyCode := "KeyW"
  const KeyS: KeyCode := "KeyS"
  const KeyA: KeyCode := "KeyA"
  const KeyD: KeyCode := "KeyD"
  const KeyE: KeyCode := "KeyE"
  const KeyQ: KeyCode := "KeyQ"
  const Space: KeyCode := "Space"
  const ShiftLeft: KeyCode := "ShiftLeft"

  /** Whether a key counts as held by the movement code. */
  predicate Held(keys: KeyState, code: KeyCode) {
    code in keys && keys[code]
  }

  /** The map after a keydown (`down`) or keyup (`!down`) event for `code`. */
  function KeyEvent(keys: KeyState, code: KeyCode, down: bool): (r: KeyState)
    ensures Held(r, code) == down
    ensures r.Keys == keys.Keys + {code}
    ensures forall k :: k != code && k in keys ==> r[k] == keys[k]
  {
    keys[code := down]
  }

  /** A keyup undoes a keydown of the same key only as far as `Held` can tell:
      the entry stays in the map with the value `false`. */
  lemma PressReleaseForgets(keys: KeyState, code: KeyCode)
    ensures forall k :: Held(KeyEvent(KeyEvent(keys, code, true), code, false), k) <==> Held(keys, k) && k != code
  {
  }

  /** Radians of turn per pixel of pointer motion. */
  const Sensitivity: real := 0.002

  /** Math.PI / 2, written out as a real. */
  const HalfPi: real := 1.5707963267948966

  /** `event.movementX || 0`: a missing delta counts as zero. */
  function OrZero(m: Option<real>): real {
    match m
    case Some(v) => v
    case None => 0.0
  }

  function Max(a: real, b: real): (r: real)
    ensures r >= a && r >= b && (r == a || r == b)
  {
    if a >= b then a else b
  }

  function Min(a: real, b: real): (r: real)
    ensures r <= a && r <= b && (r == a || r == b)
  {
    if a <= b then a else b
  }

  /** `Math.max(-PI/2, Math.min(PI/2, p))`: the nearest pitch inside
      [-PI/2, PI/2]. */
  function ClampPitch(p: real): (r: real)
    ensures -HalfPi <= r <= HalfPi
    ensures -HalfPi <= p <= HalfPi ==> r == p
    ensures p > HalfPi ==> r == HalfPi
    ensures p < -HalfPi ==> r == -HalfPi
  {
    Max(-HalfPi, Min(HalfPi, p))
  }

  lemma ClampPitchIdempotent(p: real)
    ensures ClampPitch(ClampPitch(p)) == ClampPitch(p)
  {
  }
}
