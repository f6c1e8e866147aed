# Infinite-corridor launcher: a Dafny model of its event-driven core

The launcher (`three_launcher.js`) is a small three.js viewer. Below the
rendering glue it is a sequential, event-driven state machine over a few
module-level variables. This project models that state machine and proves
what it promises:

- **Load barrier** (`load_barrier.dfy`, module `LoadBarrier`). `loadModels`
  requests the three entries of the model table. Each completion callback
  stores the model's scene and increments `numLoadedModels`. When the counter
  equals the table length (a strict equality test), it calls `setupScene`.
  The class `Launcher` holds the requests, those still pending, the
  counter, the set of models whose scene is assigned, and the world scene.
  Each completion consumes its pending request. The invariant says that
  `setupScene` has run once exactly when the counter has reached 3, and that
  by then every model's scene is assigned. The
  value-level functions `Complete` and `Deliver` replay any sequence of
  completions. The lemmas prove that setup fires exactly once, on the third
  completion, in any order, and finds every scene in place.
- **Scene setup** (`scene_setup.dfy`, module `SceneSetup`). `setupScene`
  builds a level-of-detail (LOD) table in which level `i` shows model `i`
  from distance `i^2 * 15`. It then adds 10 x 3 clones at `x = 2 * column`,
  `y = 2 * row` and starts the render loop. `BuildLod` and
  `World.SetupScene` keep the source's loops. They are proved against the
  reference definitions `LevelTable` and `Grid`. The lemmas prove that the
  thresholds strictly increase (0, 15, 60), that there are 30 clones, and
  that their positions are pairwise distinct.
- **Camera controls** (`camera_controls.dfy`, module `CameraControls`).
  `keyDowned` and `keyUpped` set `forwardSpeed` and `straffeSpeed` from the
  key table `z`/`s`/`q`/`d`. Releasing either key of a pair stops that
  axis. `mouseMoved` decreases the yaw by `dx / 1000` with no bound. It
  moves the pitch to `pitch - dy / 1000` only when that value stays within
  [-1.7, 1.7]; otherwise the update is rejected, not saturated. `moveCamera`
  steps the position by the raw speeds. The class `CameraController` holds
  these fields. Its handlers are specified by the pure functions `OnKeyDown`,
  `OnKeyUp`, `OnMouseMove` and `MoveCamera`. The lemmas say what holds under
  any sequence of events.

Numbers are exact rationals (`real`) and integers.

## Model

| member | source | states |
|---|---|---|
| LoadBarrier.Launcher.constructor | three_launcher.js:21 | the counter starts at 0, nothing is requested, pending or assigned, and the world scene is empty with no render loop |
| LoadBarrier.Launcher.LoadModels | three_launcher.js:30-41 | run once, it issues one load request per model of the table, in table order (0, 1, 2), and leaves all three pending; the barrier state is unchanged |
| LoadBarrier.Launcher.OnModelLoaded | three_launcher.js:33-38 | one completion of a pending request, which it consumes: the model's scene is recorded, the counter rises by one, and the world gets the 30-clone grid exactly when the counter reaches 3 (else it is unchanged); the invariant is kept: setup has run once iff the counter is at least 3, and once it has run every model's scene is assigned and the render loop has been started exactly once, on the finished grid |
| LoadBarrier.Fires | three_launcher.js:34-35 | the completion that takes the counter from n runs setup iff n + 1 equals the table length 3: an equality test, so no later completion fires it again |
| LoadBarrier.Complete | three_launcher.js:33-38 | one completion records its model and keeps every model recorded before, raises the counter, and runs setup at most once, exactly when the counter becomes 3 |
| LoadBarrier.DeliverCounts | three_launcher.js:33-34 | after any sequence of completions the counter has risen by exactly their number, and the ready set has grown by exactly the models named |
| LoadBarrier.DeliverSetupRuns | three_launcher.js:34-38 | from any state, a sequence of completions runs setup once if the counter crosses from below 3 to at least 3, and never otherwise |
| LoadBarrier.FiresExactlyOnce | three_launcher.js:30-41 | from the initial state, setup has run once after three or more completions and zero times before the third |
| LoadBarrier.OrderIrrelevant | three_launcher.js:31-39 | any reordering of the same completions reaches the same counter, ready set and setup count |
| LoadBarrier.ScenesReadyAtSetup | three_launcher.js:30-41 | when each of the three models completes once, in any order, setup runs on the last completion and not before, and every model's scene is assigned by then |
| SceneSetup.Threshold | three_launcher.js:135 | the distance `Math.pow(i, 2) * 15` of level i, for any unit: level 0 is used from distance 0, every later level from at least one unit |
| SceneSetup.LevelTable | three_launcher.js:132-136 | the reference level table with n levels, level i showing model i from Threshold(i) |
| SceneSetup.Grid | three_launcher.js:137-144 | the reference grid: 30 clones of the given table in loop order, clone k at column k / 3 and row k % 3 |
| SceneSetup.BuildLod | three_launcher.js:132-136 | the level loop yields exactly the reference table: level i uses model i at threshold i^2 * 15, for i < 3 |
| SceneSetup.LevelsStrictlyIncreasing | three_launcher.js:133-136 | for any level count and any positive distance unit, thresholds strictly increase with the level index |
| SceneSetup.LevelsNonDecreasing | three_launcher.js:135 | for any distance unit, zero included, thresholds never decrease |
| SceneSetup.SourceLevels | three_launcher.js:133-136 | the table used holds models 0, 1, 2 at distances 0, 15, 60 |
| SceneSetup.GridCloneAt | three_launcher.js:137-143 | the clone added for column j and row i sits at x = 2j, y = 2i |
| SceneSetup.GridCovers | three_launcher.js:137-144 | the grid has 30 clones, each with a copy of the level table, with one at (2j, 2i) for every j < 10 and i < 3 |
| SceneSetup.GridPositionsDistinct | three_launcher.js:137-144 | no two clones share a position; every x is even in [0, 18] and every y is even in [0, 4] |
| SceneSetup.World.constructor | three_launcher.js:110 | the world scene starts with no clones and no render loop |
| SceneSetup.World.Animate | three_launcher.js:145 | the render loop starts on the current content of the scene and adds nothing to it; each call counts as one more start |
| SceneSetup.World.SetupScene | three_launcher.js:131-146 | the scene gains exactly the reference grid of clones of the level table, in loop order, and the render loop is started exactly once, after the last clone is added |
| CameraControls.OnKeyDown | three_launcher.js:164-174 | "z"/"s" set only the forward speed, to 0.15 or -0.15, and "q"/"d" set only the strafe speed, to -0.075 or 0.075; other keys change nothing |
| CameraControls.OnKeyUp | three_launcher.js:176-182 | releasing "z" or "s" zeroes the forward speed and keeps the strafe speed; releasing "q" or "d" does the reverse; other keys change nothing |
| CameraControls.SpeedsStayAllowed | three_launcher.js:164-182 | under any sequence of key events, starting from allowed speeds (such as 0, 0), the forward speed stays in {0.15, -0.15, 0} and the strafe speed in {0.075, -0.075, 0} |
| CameraControls.ForwardIndependent | three_launcher.js:164-182 | the forward speed after any event sequence equals the one reached by its forward-key events alone |
| CameraControls.StraffeIndependent | three_launcher.js:164-182 | the strafe speed after any event sequence equals the one reached by its strafe-key events alone |
| CameraControls.ReleaseStopsAxis | three_launcher.js:176-182 | after any history, releasing a forward key leaves the forward speed 0 and releasing a strafe key leaves the strafe speed 0, even if the other key of the pair is held |
| CameraControls.ForwardThenLeftThenReleaseForward | three_launcher.js:164-182 | "z" down then "q" down gives speeds (0.15, -0.075); a following "z" up gives (0, -0.075) |
| CameraControls.OnMouseMove | three_launcher.js:156-162 | yaw decreases by exactly dx / 1000; pitch either stays or becomes pitch - dy / 1000; a pitch in [-1.7, 1.7] stays there |
| CameraControls.PitchRejectedNotSaturated | three_launcher.js:158-161 | an in-range candidate pitch is taken as is, and an out-of-range one leaves the pitch unchanged, with no clamping to the bound; the pitch changes iff dy is not 0 and the candidate is in range |
| CameraControls.PitchStaysInRange | three_launcher.js:156-162 | under any sequence of mouse events a pitch in [-1.7, 1.7], such as the initial 0.2, stays in [-1.7, 1.7] |
| CameraControls.YawIsTotalMotion | three_launcher.js:157 | after any sequence of mouse events the yaw is the starting yaw minus the summed horizontal motion / 1000, with no clamping or wrapping |
| CameraControls.MoveCamera | three_launcher.js:184-193 | one frame moves x and z by the speeds rotated by the yaw and leaves the height unchanged |
| CameraControls.StepLength | three_launcher.js:184-193 | for any yaw, one frame moves the camera by a horizontal distance whose square is forward^2 + straffe^2, with no elapsed-time scaling; at zero speeds it does not move |
| CameraControls.CameraController.constructor | three_launcher.js:101-106 | the camera at (-1.5, 1.7, 1.5) with yaw and pitch 0.2, and the speeds as the key handlers left them (any values from the key table, 0 if no key was pressed), which satisfies the invariant |
| CameraControls.CameraController.KeyDowned | three_launcher.js:164-174 | the speeds become OnKeyDown of the old speeds; orientation and position are unchanged; the invariant is kept |
| CameraControls.CameraController.KeyUpped | three_launcher.js:176-182 | the speeds become OnKeyUp of the old speeds; orientation and position are unchanged; the invariant is kept |
| CameraControls.CameraController.MouseMoved | three_launcher.js:156-162 | the orientation becomes OnMouseMove of the old one; speeds and position are unchanged; the pitch stays in range |
| CameraControls.CameraController.Move | three_launcher.js:184-193 | given the cosine and sine of one angle, the position becomes MoveCamera of the old one at the current speeds; speeds and orientation are unchanged |

## Left out

- Floating point: the source computes in IEEE doubles, and the model in exact rationals. Rounding of `dx / 1000`, of the accumulated yaw and pitch, and of the pitch-bound comparison near ±1.7 is not modelled.
- `Math.cos` and `Math.sin` in `moveCamera` are not part of this model. `CameraController.Move` and `MoveCamera` take their values at the current yaw as parameters, and `StepLength` assumes only that their squares sum to 1.
- GLTF loading (`loadGltfModel`) is not modelled: the loader, the shadow configuration of the loaded graph, and the progress text with its rounded percentage. A completion is modelled only as recording that the model's scene is assigned. Each request's callback runs at most once, as the loader calls it; `Launcher` consumes the request, and `ScenesReadyAtSetup` assumes the same of its event sequence. A load that never completes leaves the barrier waiting, as in the source.
- DOM writes are not modelled: hiding the loader element at line 36, and the log text.
- Renderer, camera projection, lights and window resize (`initRenderer`, `initScene` apart from the camera pose, `onWindowResize`) are library configuration and I/O.
- The render loop (`animate`: `requestAnimationFrame`, `renderer.render`, and the per-frame `moveCamera` call) is modelled only as the moment it is started (`World.Animate`) and as one camera step (`CameraController.Move`).
- three.js's run-time choice of a detail level by camera distance happens inside the library and is not modelled. A clone is modelled as a copy of the level table with its x and y position; scene-graph sharing between clones is not modelled.
- CameraController.constructor: the speed globals exist from script load, but the camera is created only on window load. A key event before that sets the speeds, so the constructor takes them as given. A mouse event before that fails on the missing camera and changes nothing; such events are not modelled.
- Launcher.LoadModels: it is run once, from `setup` on window load, so the model requires that nothing has been requested yet.
- Pointer-lock acquisition (`lockMouse`) is a browser API.
- The model takes integer mouse deltas; fractional `movementX`/`movementY` values are not modelled. Key names are strings compared exactly, as `evt.key ===` compares them.
