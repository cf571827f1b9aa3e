# First-person movement layer of a Three.js scene viewer

This project is a Dafny model of the per-frame movement code of a small
Three.js first-person viewer. It has two parts.

- **The game script** (`App.js`). The player is a yaw object carrying a pitch
  object and the camera. Its movement speed and a key-state map live in
  module-level variables. Each frame, the script:
  - moves the player by the held keys, and puts it back if it now overlaps
    another scene object;
  - tries a fixed 0.1 gravity drop, which is also undone on overlap;
  - lets E and Q rescale the speed for the next frame.

  Mouse motion turns the view while the pointer is locked, with the pitch
  clamped to [-π/2, π/2]. At start-up a 10 × 10 grid of blocks of random
  height is placed around the origin.
- **The engine wrapper** (`ThreeWrap.js`). This is a reusable object with its
  own key map, the same look handler and a simpler walking controller (no
  collision, no gravity). The frame loop can be turned on and off through
  `animate`, `resume`, `pause` and `stopAnimation`.

All arithmetic is over `real`, so every property holds in exact arithmetic.

Modules:

- `Geometry` (geometry.dfy): points, the axes of an object that only turns
  about Y, and axis-aligned boxes with the closed-interval overlap test.
- `Controls` (controls.dfy): the key map, the keydown/keyup update and the
  pitch clamp.
- `Scene` (scene.dfy): scene children with identity and world box, the
  player's collision cube, the collision predicate `Collides`, and the block
  boxes of the grid.
- `Movement` (movement.dfy): what one frame does, as functions of the state at
  the start of the frame, plus the lemmas about them.
- `App` (app.dfy): class `FirstPersonGame`, the script's global state, with
  its handlers, the collision scan and the frame update proved against
  `Movement`.
- `ThreeWrap` (threewrap.dfy): class `ThreeJSApp` and the animation state
  machine.

Inputs the model takes as parameters:

- The clock delta.
- The sine and cosine of the current yaw, as a `Heading`.
- Whether the pointer is locked.
- The pointer deltas. A missing delta is `None` and counts as 0.
- The frame id that `requestAnimationFrame` would return.
- Whether the wrapper's update callback returns or throws.
- The random draw behind each block's height.

## Model

| member | source | states |
|---|---|---|
| `Geometry.LocalZ` | App.js:224-229 | The yaw object's local Z axis, along which W/S translate, has no vertical component. |
| `Geometry.LocalX` | App.js:230-235 | The yaw object's local X axis, along which A/D translate, has no vertical component. |
| `Geometry.IntersectsSymmetric` | App.js:203 | The box overlap test gives the same answer whichever box comes first. |
| `Geometry.EmptyMeetsNothing` | App.js:200-203 | The empty box of an object without geometry (a light, an empty group) never overlaps anything. |
| `Controls.KeyEvent` | App.js:156-161 | After a key event the key reads as held exactly when the event was a keydown. The map gains at most that key, and every other entry keeps its value. |
| `Controls.PressReleaseForgets` | App.js:156-161 | After a keydown followed by a keyup of the same key, a key is held exactly when it was held before and is not that key. |
| `Controls.ClampPitch` | App.js:178 | The clamped pitch lies in [-π/2, π/2]. A pitch already inside is kept; one outside goes to the nearer bound. |
| `Controls.ClampPitchIdempotent` | App.js:178 | Clamping an already clamped pitch changes nothing. |
| `Scene.PlayerBox` | App.js:183-192 | The collision box is a cube of edge 2 · margin centred on the player, with margin 1.0. |
| `Scene.BlocksWithinMargin` | App.js:189-203 | A child blocks the player exactly when it is not the yaw object, its box is non-empty, and on each axis its box comes within the margin of the player's centre. |
| `Scene.CollidesAppend` | App.js:195-210 | The scan over a concatenation of children finds a hit exactly when one of the two parts does. |
| `Scene.NonBlockingChildrenIgnored` | App.js:195-210 | Children that are the yaw object or have empty boxes (lights) never change the collision answer. |
| `Scene.BlockHeight` | App.js:142 | A block's height `size * (rand * 2 + 1)` lies in [size, 3 · size). |
| `Scene.BlockBounds` | App.js:141-150 | Each block's box rests on y = 0 and reaches up to its height. It is centred at (size · i, size · j) in x/z and is size wide on both. |
| `Scene.GridCell` | App.js:132-136 | The k-th placement of the nested loop lands in cell (k / 10 - 5, k % 10 - 5), both in -5..4. |
| `Scene.GridCellsDistinct` | App.js:132-136 | The 100 placements occupy 100 different cells, a full 10 × 10 grid. |
| `Movement.SpeedModifier` | App.js:217-222 | E alone multiplies the speed by 1.01 and Q alone divides it by 1.01. Both keys, or neither, leave it unchanged. A positive speed stays positive. |
| `Movement.PairOfSteps` | App.js:224-241 | The two conditional translations along one axis, in either order, add up to the net axis amount: +d for the positive key, -d for the negative key. |
| `Movement.OppositeKeysCancel` | App.js:224-241 | W+S, A+D or Space+ShiftLeft held together give zero net movement on that axis, the same as holding neither. |
| `Movement.WalkIsLevel` | ThreeWrap.js:126-132 | W/S/A/D never change the height. With none of them held there is no movement. |
| `Movement.VerticalOnlyFromSpaceAndShift` | App.js:224-241 | In the key phase only Space and ShiftLeft change y. x and z come from the walking keys alone. |
| `Movement.AxesAddUp` | App.js:224-241 | Moving along local Z, then local X, then world Y adds up to the frame's key displacement. |
| `Movement.AllKeysCancel` | App.js:224-241 | Holding all six movement keys at once leaves the position unchanged. |
| `Movement.AfterKeys` | App.js:215-244 | After the key phase the player is at the moved position if that does not collide, and otherwise back at the exact pre-frame position. |
| `Movement.Lowered` | App.js:246 | The gravity step lowers y by exactly 0.1 and keeps x and z. |
| `Movement.AfterGravity` | App.js:245-249 | The gravity phase keeps x and z. It lowers y by 0.1 exactly when the lowered position does not collide; otherwise y stays where the key phase left it. |
| `Movement.TickReachable` | App.js:213-250 | A frame ends at one of four positions: old, old + move, old lowered by 0.1, or old + move lowered by 0.1. |
| `Movement.TickKeepsClear` | App.js:213-250 | A frame that starts clear of every obstacle also ends clear of every obstacle. |
| `Movement.TickInOpenSpace` | App.js:213-250 | With nothing to collide with, a frame moves by the keys and falls by the full gravity step. |
| `Movement.TickLanded` | App.js:245-249 | When the lowered position collides, the frame ends where the key phase left the player. |
| `Movement.LandsOnBlock` | App.js:245-249 | Over a block's footprint, less than one gravity step above its top plus the margin, the player is clear of the block, but the next drop would meet it. So the player comes to rest on the block. |
| `App.FirstPersonGame.constructor` | App.js:72-136 | The game starts at (2, 40, 7) with speed 10, an empty key map and zero rotations. The scene holds the yaw object and two lights, all with empty boxes, followed by the 100 grid blocks. |
| `App.FirstPersonGame.OnKeyDown` | App.js:156-158 | keydown sets the key's entry to true and keeps every other entry. |
| `App.FirstPersonGame.OnKeyUp` | App.js:159-161 | keyup sets the key's entry to false and keeps every other entry. |
| `App.FirstPersonGame.OnMouseMove` | App.js:171-180 | With the pointer locked, yaw decreases by 0.002 · movementX with no bound, and pitch becomes the clamp of pitch - 0.002 · movementY. Without the lock neither changes. The pitch bound is kept. |
| `App.FirstPersonGame.CheckCollision` | App.js:182-211 | The early-exit scan returns true exactly when some child other than the yaw object has a box meeting the player's cube. |
| `App.FirstPersonGame.ApplyMovementKeys` | App.js:224-241 | The six conditional translations move the player by exactly the key displacement. |
| `App.FirstPersonGame.UpdateCameraPosition` | App.js:213-250 | The frame's distance uses the speed from before E/Q rescale it. The speed becomes the E/Q-adjusted value. The position becomes the two-phase result with revert-on-collision. A player clear of obstacles stays clear. |
| `App.FirstPersonGame.CreateRandomCube` | App.js:141-153 | Appends one block with the computed box and an identity different from the yaw object's. |
| `App.FirstPersonGame.PlaceGrid` | App.js:132-136 | Appends 100 blocks in loop order, with block k at grid cell (k / 10 - 5, k % 10 - 5), and keeps the earlier children. |
| `ThreeWrap.AnimateIdempotent` | ThreeWrap.js:158-167 | After `animate` the loop is on. A second `animate`, or an `animate` while already on, changes nothing. |
| `ThreeWrap.AnimateFromRest` | ThreeWrap.js:162-177 | From rest, `animate` turns the flag on and runs the loop body once. It records the requested frame id when the update callback returns, and keeps the old id when it throws. |
| `ThreeWrap.PauseSilencesLoop` | ThreeWrap.js:154-170 | After `pause` the flag is off, and the next loop body returns without doing anything. |
| `ThreeWrap.StopNeedsFrameId` | ThreeWrap.js:179-184 | `stopAnimation` without a truthy frame id is a no-op. With one it clears the flag, like `pause`. |
| `ThreeWrap.FailedFirstFrameWedges` | ThreeWrap.js:162-184 | A fresh wrapper is left running with no frame id exactly when the update callback of its first frame throws. In that state `animate`, `resume` and `stopAnimation` change nothing, and only `pause` returns it to rest. |
| `ThreeWrap.StopAfterAnimate` | ThreeWrap.js:162-184 | Once `animate` has recorded a non-zero frame id, `stopAnimation` turns the loop off. |
| `ThreeWrap.ThreeJSApp.constructor` | ThreeWrap.js:8-43 | The wrapper starts at the origin with an empty key map, not animating and with no frame id. |
| `ThreeWrap.ThreeJSApp.OnKeyDown` | ThreeWrap.js:77-79 | keydown sets the key's entry to true and keeps every other entry. |
| `ThreeWrap.ThreeJSApp.OnKeyUp` | ThreeWrap.js:81-83 | keyup sets the key's entry to false and keeps every other entry. |
| `ThreeWrap.ThreeJSApp.OnMouseMove` | ThreeWrap.js:85-93 | With the pointer locked, yaw decreases by 0.002 · movementX and pitch is clamped to [-π/2, π/2]. Without the lock this is a no-op. |
| `ThreeWrap.ThreeJSApp.UpdateCameraPosition` | ThreeWrap.js:126-132 | The position moves by the walking displacement for distance 10 · delta, and y never changes. |
| `ThreeWrap.ThreeJSApp.Pause` | ThreeWrap.js:154-156 | The flag goes off and the frame id is kept. |
| `ThreeWrap.ThreeJSApp.AnimateLoop` | ThreeWrap.js:169-177 | When not animating, nothing changes. Otherwise the player walks, and the new frame id is recorded only if the update callback returns. |
| `ThreeWrap.ThreeJSApp.Animate` | ThreeWrap.js:162-167 | When already animating, nothing changes. Otherwise the flag goes on and one loop body runs. |
| `ThreeWrap.ThreeJSApp.Resume` | ThreeWrap.js:158-160 | Same contract as `Animate`. |
| `ThreeWrap.ThreeJSApp.StopAnimation` | ThreeWrap.js:179-184 | Clears the flag only when a truthy frame id is held, and keeps the id. |

## Left out

- Trigonometry. `translateZ`/`translateX` rotate by the yaw's quaternion. Here the sine and cosine of the yaw come in as a `Heading` parameter, and the model does not tie them to the `yaw` field. `translateY` on the yaw object is a move along world Y.
- Floating point. All quantities are `real`, so the properties hold in exact arithmetic. For example, E and Q held together give back the speed exactly, which doubles need not. π/2 is the decimal 1.5707963267948966.
- `Math.random`. Each block's draw comes in as a parameter in [0, 1), and the colour is not modelled.
- `Box3.setFromObject`. Each child's world box comes in as data. Children without geometry get the empty box.
- Asset loading (the OBJ/MTL class) is not modelled. It is asynchronous I/O.
- Renderer, skybox, lights' parameters, stats overlay, post-processing and window resize are not modelled. They only set up or draw the scene.
- The game script's `animate` loop and the wrapper's host scheduling are not modelled. This covers `requestAnimationFrame`, `cancelAnimationFrame` and pointer-lock requests, which belong to the host event loop. A frame id is a parameter, and the number of pending frame callbacks is not tracked. So the model cannot express that `pause` followed by `resume` before the pending frame fires leaves two callback chains running.
- `defaultInit` and `defaultUpdate` are not modelled. They build and rotate a demo cube.
- ThreeWrap.ThreeJSApp.AnimateLoop: the update callback is a flag saying whether it returns. The model assumes a callback that returns leaves the position, the key map and the animation flags alone. A callback bound with `setCustomUpdateFunction` that calls `pause()` or moves the yaw object is not captured. The callback throws when none was set: the constructor sets it only for a truthy `defaultScene`, and `setCustomUpdateFunction` may never be called. `defaultUpdate` also throws unless `defaultInit` has run, and the class never calls `defaultInit`. The throw happens after the walk and before the frame request. The model ends the loop body there, and `animate`/`resume` with it, leaving the flag on and the old id in place. That the exception reaches the caller is not modelled.
- `cleanup`, `removeObjectsWithChildren`, `disposeMaterial` and `removeEventListeners` are not modelled. They release GPU resources and listeners through library calls. `removeEventListeners` removes `this.boundOnWindowResize`, which is never assigned, so the resize listener added in the constructor stays registered.
- NaN pointer deltas are not modelled. A missing delta becomes 0, as `|| 0` does.
