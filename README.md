# Dream-Orbits viewer core, in Dafny

Dream-Orbits is a small OpenGL viewer (`src/main.cpp`). It shows a skybox, a vertical
thread with fourteen objects sliding down it on a repeating conveyor, and a set of rings.
The camera is free-fly or orbital, and the keyboard, cursor and scroll wheel steer it.
The file also has a falling-star particle effect.

This project models the parts of that file that hold logic, and proves what they
guarantee:

- `particles.dfy` (module `Particles`) covers the particle pool: `randomFloat`,
  `initializeParticles`, `updateParticles` and `respawnParticles`. The pool is a class
  whose `seq<Particle>` field the three methods change in place. Each method is proved
  against pure per-particle functions (`Spawn`, `Step`). Lemmas about those functions
  give the lifecycle: spawn ranges, fading, retirement and a well-formedness invariant.
- `input.dfy` (module `Input`) covers the camera/input state machine. There is one pure
  transition per GLFW callback over a `SceneState` record, and lemmas over single
  events and whole event sequences.
- `conveyor.dfy` (module `Conveyor`) covers the conveyor arithmetic of `draw`. C's
  `fmod` is written out with truncation, so its result takes the dividend's sign.
- `render.dfy` (module `Render`) covers the scene data and the rendering rules:
  - the mesh records
  - the GL capability flags in force at each pass
  - the abstract draw calls
  - `renderObject`'s routing of the earth's extra textures
  - the per-frame spin
  - the projection
- `viewer.dfy` (module `Scene`) has the class `Viewer`. It holds the viewer's globals
  as fields. Its methods `ScrollCallback`, `MouseCallback`, `KeyCallback`,
  `RenderObject` and `Draw` update them in place. Each method is proved against the
  pure functions above (`Input.OnScroll`, …, `Scene.FrameCalls`, `Render.Spin`).
- `vectors.dfy` (module `Vectors`) holds real-valued `vec3`/`vec4`. It also defines a
  `Glm` record that carries `sin`, `cos` and `normalize`. The model never looks inside
  these three functions; every property proved holds whatever they compute.

Floats are modelled as unbounded reals, without rounding. Wherever a source routine
uses the clock (`glfwGetTime`), `rand()` or the trigonometric functions, the value
becomes a parameter:

- `time` for the clock;
- a `Draws` record of six values in [0, 1] per spawned particle, for `rand()`;
- the `Glm` record, for the trigonometric functions.

Object 1's start offset is 2/3 s, so at time 0 it is 28/3 s into its cycle and one
unit above the bottom of the drop (`Conveyor.FirstObjectAtTimeZero`).

The end-of-frame spin turns meshes 1, 2, 9, 13 and 15. By the order in which `load()`
pushes the meshes, these are the earth, the moon, the tetrahedron, the hex and the
rings. The source's comments call mesh 9 the coin, but the coin is mesh 8 and does not
turn. The model follows the indices.

`GL_BLEND` is switched on before the rings and never switched off. The model
therefore keeps the GL flags as part of the viewer's state across frames.
`Scene.BlendingPersists` proves that only the first frame draws its skybox and opaque
meshes unblended.

## Model

| member | source | states |
|---|---|---|
| Particles.RandomFloat | src/main.cpp:168-171 | the result lies between the two bounds whichever order they come in (randomFloat(-1, -2) is in [-2, -1]); a draw of 0 gives the first bound, a draw of 1 the second |
| Particles.RandomFloatCovers | src/main.cpp:168-171 | every value between the bounds is produced by some draw in [0, 1] |
| Particles.Spawn | src/main.cpp:1021-1031 | a (re)initialised particle is active, has x and z in [-5, 5], y in [top, top+5], velocity (0, vy, 0) with vy in [-2, -1], lifetime in [2, 5], size in [0.1, 0.3] and colour white |
| Particles.SpawnCovers | src/main.cpp:1021-1031 | conversely, every particle inside those ranges is the spawn of some draws |
| Particles.Step | src/main.cpp:979-997 | an inactive particle is left unchanged; an active one moves by velocity·dt, loses dt of lifetime, gets alpha lifetime/5 when lifetime > 0 and 0 otherwise, and stays active exactly when it is above the floor with lifetime left; velocity, size and rgb are kept |
| Particles.FreshIsWellFormed | src/main.cpp:962-977 | a freshly spawned particle falls, has lifetime at most 5, an alpha in [0, 1] and time left |
| Particles.StepKeepsWellFormed | src/main.cpp:979-997 | with dt ≥ 0 an update keeps a particle well formed, never raises it and never adds lifetime |
| Particles.StepsAge | src/main.cpp:979-997 | over any run of updates an inactive particle never changes; a particle still active has moved and aged by exactly the total time, which is then less than its initial lifetime |
| Particles.ParticlePool.constructor | src/main.cpp:117 | the pool starts empty |
| Particles.ParticlePool.Initialize | src/main.cpp:962-977 | appends exactly max(n, 0) particles, each the spawn of its draws with y in [5, 10], and leaves earlier entries untouched; keeps the pool well formed |
| Particles.ParticlePool.Update | src/main.cpp:979-997 | keeps the length and replaces every slot by its Step (so inactive slots are unchanged); with dt ≥ 0 keeps the pool well formed |
| Particles.ParticlePool.Respawn | src/main.cpp:1019-1034 | keeps the length; active slots are unchanged, inactive ones become fresh spawns below topY; afterwards every particle is active; keeps the pool well formed |
| Input.Initial | src/main.cpp:47-66 | the program starts in perspective, free-fly mode with no close request, the first cursor event still to come and the cursor at the screen centre (256, 256), fov 90, yaw −90 and pitch 0 |
| Input.InitialIsClamped | src/main.cpp:47-66 | the start-up globals have fov in [20, 160] and pitch in [-89, 89] |
| Input.OnScroll | src/main.cpp:1199-1207 | fov ends in [20, 160] for any offset, equals fov − yoffset exactly when that is in range, 20 below and 160 above; nothing else changes |
| Input.OnMouse | src/main.cpp:1158-1194 | in orbital mode nothing changes; in free-fly mode firstMouse becomes false, lastX/lastY record the cursor, yaw moves by the scaled offset from (256, 256) (zero on the first event), pitch is clamped to [-89, 89] (exact inside the range), the look direction is recomputed from yaw and pitch, and no other field changes |
| Input.LightDelta | src/main.cpp:1063-1086 | an arrow or bracket key moves exactly one light component by ±1; any other key moves none |
| Input.OnKey | src/main.cpp:1040-1141 | a release or repeat changes nothing |
| Input.CameraStepAlong | src/main.cpp:1047-1112 | each movement key's step is a quarter-unit translation along its own direction: look, right or up, negated for S, A and Z |
| Input.KeyToggles | src/main.cpp:1040-1124 | P flips orthographic, O flips orbital, Escape raises the close request, and no other event touches these three |
| Input.KeyMovesCameraOnlyInFreeFly | src/main.cpp:1047-1112 | the camera position changes only on a press of W, S, D, A, Q or Z while not orbiting |
| Input.KeyMovesCamera | src/main.cpp:1047-1112 | such a press moves the camera by 0.25 along the look, right or up direction, with the key's sign |
| Input.LightStepAlong | src/main.cpp:1063-1086 | each light key's step adds that key's unit delta to the light |
| Input.KeyNudges | src/main.cpp:1063-1140 | a press moves the light by the key's unit step, changes the intensity by −1 for N, +1 for M and 0 otherwise, and shifts the earth by −0.25 (I, J) or +0.25 (K, L) along z or x |
| Input.KeyFrame | src/main.cpp:1040-1141 | no key changes the orientation, the cursor bookkeeping or the field of view |
| Input.ToggleTwiceRestores | src/main.cpp:1095-1124 | pressing P, or O, twice restores the whole state |
| Input.RunKeepsClamped | src/main.cpp:1158-1207 | any sequence of events keeps fov in [20, 160] and pitch in [-89, 89] |
| Input.ScrollClampsFov | src/main.cpp:1199-1207 | from any fov, once a scroll event has been handled the fov is in [20, 160] at the end of the sequence |
| Input.FovStaysInRange | src/main.cpp:1199-1207 | a fov in [20, 160] stays there under any events |
| Input.OrbitPinsCamera | src/main.cpp:1040-1194 | while orbiting and without an O press, no event sequence moves the camera position, yaw, pitch or look direction, and the camera keeps orbiting |
| Conveyor.Trunc | src/main.cpp:784 | rounding toward zero: the integer within one of x on the side of zero |
| Conveyor.Fmod | src/main.cpp:784-789 | C's fmod: the result takes the dividend's sign, is smaller than the divisor in magnitude, and differs from the dividend by a whole multiple of the divisor |
| Conveyor.StartOffset | src/main.cpp:770-781 | object i is launched i/15 of a cycle after the start, so objects 0..14 start within [0, totalLoopTime) and are spread evenly |
| Conveyor.ElapsedTime | src/main.cpp:781-786 | for every clock reading and object, the elapsed time lies in [0, totalLoopTime) and equals the shifted clock up to whole cycles |
| Conveyor.YOffset | src/main.cpp:789 | the height is always positive; within a cycle it falls linearly from 15 and lies in (0, 15] |
| Conveyor.Offset | src/main.cpp:781-795 | the object's height lies in (0, loopHeight] and is loopHeight − elapsed·speed |
| Conveyor.AlwaysVisible | src/main.cpp:799-801 | the visibility test y ≥ −spacing passes for every clock reading and object |
| Conveyor.FirstObjectAtTimeZero | src/main.cpp:781-789 | at time 0 object 1 is 2/3 s from launch, 28/3 s into its cycle and at height 1 |
| Render.EnterPass | src/main.cpp:722-808 | the skybox pass turns depth test off and culls front faces, the opaque pass turns depth test on and culls back faces, both keep blending as it was; the blended pass turns blending on and culling off and keeps the depth test and cull mode |
| Render.PassStates | src/main.cpp:722-808 | the skybox is drawn with depth test off and front faces culled, the opaque meshes with depth test on and back faces culled, blending as before; after the rings the state is blend on, cull off |
| Render.CompanionBindings | src/main.cpp:884-921 | texture units 18, 19, 20 hold textures 18, 19, 20 exactly when the mesh is named "earth", and are cleared exactly otherwise |
| Render.ModelOf | src/main.cpp:925-932 | the model matrix keeps the mesh's rotation and scale and shifts its translation by the animation offset |
| Render.MeshCall | src/main.cpp:850-957 | the draw uses the copy of the mesh carrying the new matrix, takes the multi-texture path exactly for "earth", and carries the light, intensity and camera position |
| Render.SpinRate | src/main.cpp:815-819 | exactly meshes 1, 2, 9, 13, 15 have a non-zero per-frame turn, about a single axis |
| Render.Spin | src/main.cpp:815-819 | the spin keeps the number of meshes and each mesh's object index |
| Render.SpinChanges | src/main.cpp:815-819 | a frame's spin changes exactly meshes 1, 2, 9, 13 and 15, only in their rotation, by +0.01 y, −0.01 y, +0.01 z, +0.025 y and +0.005 x |
| Render.SpinAccumulates | src/main.cpp:815-819 | after n frames each mesh has turned n times its rate and is otherwise unchanged |
| Render.OrbitView | src/main.cpp:669-692 | the orbital camera sits at (5 sin t, 4, 5 cos t), looks at (0, 4, 0) on its own level, with up (0, 1, 0) |
| Render.ViewFor | src/main.cpp:669-692 | in orbital mode the view is the orbit; otherwise the eye is the camera position, the look direction (centre − eye) is the camera target, and up is (0, 1, 0) |
| Render.ProjectionFor | src/main.cpp:694-718 | in orthographic mode the box [−5, 5] × [−5, 5] with near −10 and far 10; otherwise the perspective exactly as written, with the field of view unconverted |
| Render.PerspectiveAsWritten | src/main.cpp:697-702 | the perspective draw builds takes the field of view as its angle unchanged, aspect 1, near 0.1, far 50 |
| Render.AsWrittenFovyOutOfRange | src/main.cpp:694-702 | as written, every field of view the scroll callback allows reaches glm::perspective, and so each perspective frame's projection, as an angle outside (0, π) |
| Render.PerspectiveFor | src/main.cpp:694-702 | with the degrees converted, the vertical angle lies in [π/9, 8π/9] ⊂ (0, π); aspect 1, near 0.1, far 50 |
| Scene.PlacementOffset | src/main.cpp:775-812 | the thread (0) and the rings (15) are drawn at their own transforms; each conveyor object's offset has its height in [0, loopHeight] |
| Scene.PlacedModels | src/main.cpp:925-934 | drawing a sequence of meshes keeps the size of the model-matrix table |
| Scene.PlacedModelsStep | src/main.cpp:925-934 | drawing one more mesh writes exactly its matrix, at its placement, into its object's slot |
| Scene.PlacedModelsKeep | src/main.cpp:925-934 | a slot that no drawn mesh names keeps its matrix |
| Scene.PlacedModelsLast | src/main.cpp:925-934 | a slot holds the matrix of the last mesh drawn into it |
| Scene.FrameModels | src/main.cpp:734-812 | the model-matrix table a frame leaves keeps its size; it is the skybox's camera translation in slot 0 followed by the placed draws of all 16 meshes |
| Scene.FrameModelsSlots | src/main.cpp:734-812 | after a frame, a slot no mesh names keeps its matrix, except slot 0, which holds the camera's translation; the slot of mesh k's object holds mesh k's matrix at its placement unless a later mesh names the same object |
| Scene.ConveyorCalls | src/main.cpp:775-802 | the opaque part of a frame is 15 draws, the thread and objects 1..14 |
| Scene.FrameCalls | src/main.cpp:720-812 | every frame is 17 draws |
| Scene.FrameCallAt | src/main.cpp:775-812 | after the skybox, draw k is mesh k − 1 at its placement, in the opaque pass except for the last, blended one |
| Scene.FrameShape | src/main.cpp:720-812 | a frame is 17 draws: the skybox first (depth off, front faces culled, blending as the frame began); then the thread and objects 1..14 in index order, then the rings, each with its own mesh's name, indices, material and model matrix, depth-tested; the opaque ones back-culled with blending as before, the rings blended and unculled; only the earth takes the multi-texture path |
| Scene.BlendingPersists | src/main.cpp:806-808 | every draw of every frame after the first is blended; the first frame, from OpenGL's initial state, draws the skybox and opaque meshes unblended |
| Scene.Viewer.constructor | src/main.cpp:47-90 | the fields start at the globals' initial values, with the loaded meshes and one identity matrix per object |
| Scene.Viewer.ScrollCallback | src/main.cpp:1199-1207 | the new state is OnScroll of the old |
| Scene.Viewer.MouseCallback | src/main.cpp:1158-1194 | the cursor bookkeeping, yaw, pitch and look direction become OnMouse's components of the old state; no other field can change |
| Scene.Viewer.KeyCallback | src/main.cpp:1040-1141 | each global a key can write ends as OnKey's component of the old state: on a press the camera, light, intensity, modes, earth offsets and close request are updated by the key, on a release or repeat they keep their values; no other field can change |
| Scene.Viewer.MoveCamera | src/main.cpp:1047-1112 | the camera position becomes MovedCamera of the old state |
| Scene.Viewer.MoveLight | src/main.cpp:1063-1094 | the light becomes MovedLight of the old light and the intensity changes by the key's delta |
| Scene.Viewer.ToggleModes | src/main.cpp:1095-1124 | P flips orthographic and O flips orbital; other keys leave both |
| Scene.Viewer.NudgeEarth | src/main.cpp:1125-1140 | the earth offsets change by the key's shifts |
| Scene.Viewer.RenderObject | src/main.cpp:850-957 | only the model-matrix slot of the mesh's object changes; the meshes are untouched (the mesh is passed by value); the draw is MeshCall |
| Scene.Viewer.DrawConveyor | src/main.cpp:775-802 | the calls submitted are ConveyorCalls: the thread and then objects 1..14, all of them, in index order, at their offsets; the model-matrix table becomes PlacedModels of the old table over meshes 0..14 |
| Scene.Viewer.SpinMeshes | src/main.cpp:815-819 | the meshes become Spin of the old meshes |
| Scene.Viewer.SubmitCalls | src/main.cpp:720-812 | the calls issued are FrameCalls of the state the frame began in; the context ends blended; the model-matrix table becomes FrameModels of the old one, so the rings' slot holds their matrix |
| Scene.Viewer.RefreshBasis | src/main.cpp:823-843 | the look direction follows yaw and pitch and the right vector is normalize(target × up) |
| Scene.Viewer.EndFrame | src/main.cpp:815-843 | the meshes are spun and the camera basis is refreshed |
| Scene.Viewer.Draw | src/main.cpp:658-845 | the view follows the mode (ViewFor: look-at from the camera, or the orbit), the projection follows the mode as written (ProjectionFor, with the unconverted perspective), the calls are FrameCalls, the model-matrix table becomes FrameModels of the old one, the meshes are spun, the GL state ends blended and the camera basis is refreshed |

## Left out

- `load()` (src/main.cpp:176-649) reads OBJ and image files and creates GL buffers and textures. It is not part of this model: `Scene.Viewer.constructor` takes its meshes and object count as parameters. Because it appends without clearing, a reload (R) would duplicate entries. `KeyCallback` leaves R without effect on the modelled state.
- Every OpenGL and GLFW call is left out: uniform uploads, VAO binding, `glDrawElements`, window closing, console output. Only the draw trace and the depth/cull/blend flags remain. `glEnable(GL_TEXTURE_2D)` and the blend function are not tracked.
- Matrix math is not computed: `lookAt`, `perspective`, `ortho`, `translate`/`rotate`/`scale` and the normal matrix stay symbolic (`View`, `Projection`, `ModelMatrix`). `sin`, `cos` and `normalize` are uninterpreted parameters.
- Floating-point rounding is not modelled: `float` and `double` are exact reals, and the casts between them are identities.
- `draw` reads the clock three times per frame. The model takes one reading, `time`, for the orbit and the conveyor alike.
- The skybox draw leaves `u_has_multitextures` and units 18–20 as the previous frame's rings draw left them. The trace does not record that stale state.
- `renderParticles` (src/main.cpp:999-1017) is immediate-mode drawing and is not part of this model. `main`'s window loop never calls any particle routine. The file-scope call at src/main.cpp:119 is a compile-level quirk and is not modelled either.
- `earthX`/`earthZ` are updated by I, K, J, L but read by nothing in `draw`. The model keeps them as state only.
- `mouse_button_callback` only logs: `Input.Event.MouseButton` leaves the state unchanged.
- `Scene.Viewer.KeyCallback` runs the source's independent `if`s grouped by the global they write (camera, close request, light, modes, earth) rather than in source order. The keys are distinct, so at most one of those `if`s fires and the order does not matter.
- `Scene.Viewer.Draw` computes the camera basis once. The source recomputes the same two assignments a second time, which changes nothing.
- `Particles.ParticlePool.Initialize` and `Particles.ParticlePool.Respawn` take the `rand()` results as a sequence of `Draws`, one per particle. The order of the six draws within a particle is not fixed, because C++ leaves the evaluation order of constructor arguments open.

## Findings

| source | as written | input that shows it | evidently intended | confidence | as-written member | corrected member |
|---|---|---|---|---|---|---|
| src/main.cpp:697-702 | the field of view, kept and clamped in degrees (start 90, range [20, 160]), is passed straight to `glm::perspective`, which takes its angle in radians | fov = 90 at start-up: GLM receives 90 rad, an angle outside (0, π) | `perspective(glm::radians(fov), …)`, giving a vertical angle in [π/9, 8π/9] | medium: GLM has read radians since 0.9.6, and older versions read degrees; not executed | Render.PerspectiveAsWritten, which `Scene.Viewer.Draw` uses through Render.ProjectionFor (shown by Render.AsWrittenFovyOutOfRange) | Render.PerspectiveFor |
