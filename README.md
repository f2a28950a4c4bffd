# Multi: the frame-update state machine of a multi-object 3D scene editor

Class `Multi` (Multi/Multi.cpp) is a Direct3D 12 demo: a user orbits a camera,
spawns primitive objects, selects one with Tab, moves, scales and turns the
selected object with the keyboard, deletes it, and switches between wireframe
and solid fill. This project models the state that drives all of that: the
scene store with its selection cursor, the orbit camera with its clamps, the
edit-command dispatch, the animation of the selected object, the fill-mode
latch and the pipeline choice of `Draw`.

Modules, one per concern of the class:

- `Transforms` (transforms.dfy): matrices as symbolic products of
  translations, uniform scalings and axis rotations. DirectXMath composes
  row-vector transforms, so in `A * B` the factor A acts first; a matrix is the
  list of its factors in that order and a product is a concatenation. `Reduce`
  drops factors that are the identity, so that "Scale(1.0) * M is M" can be
  stated.
- `Camera` (camera.dfy): the orbit parameters `theta`, `phi`, `radius`, the
  mouse block of `Update` (`Drag`) and its clamps.
- `Scene` (scene.dfy): scene objects, `createGeometry`'s object, erase at an
  index, and the selection arithmetic of Delete and Tab.
- `Input` (input.dfy): what one call of `Update` reads from `input` and
  `timer`: the mouse position, the keys held, the keys pressed and the elapsed
  seconds.
- `Editing` (editing.dfy): the TRANSLATE, SCALE and ROTATE tests of `Update`,
  as a list of commands in test order (`Commands`) with their binding table
  (`Active`), and the imperative dispatch (`ComposeEdit`) proved to build the
  product of their steps.
- `MultiApp` (multi.dfy): the fields of `Multi` as a `State` value, one
  function per block of `Update`, their composition `Updated`, and
  `class Multi`, whose methods change the fields block by block and are proved
  to end in the state the functions give.
- `Frames` (frames.dfy): runs of frames (`Run`) and the properties of single
  frames and of runs.

## Behaviour kept as the code has it

In places the code does something other than what a reader of the program
would expect; the model follows the code:

- Delete erases `scene[selected]` with no test that the scene has an object
  (Multi/Multi.cpp:156-160), and Tab computes `% objCount` with no test for
  zero (Multi/Multi.cpp:172). Both would be expected to do nothing on an empty
  store; in the code both are undefined behaviour, so `FramePre` makes them
  preconditions of `Update`, and `DeleteAllAfterInit` shows a run that reaches
  the state where they no longer hold.
- Holding S and W together leaves the fill wireframe, since W is tested last;
  and `solid` is a latch that keeps its value on frames where neither is held
  (Multi/Multi.cpp:162-168). It is not the case that S wins, nor that the mode
  is recomputed from the keys on every frame.
- The edit is right-multiplied, `worldStopped * transform`
  (Multi/Multi.cpp:265): with row vectors it acts after the object's existing
  transform, not before it.
- Only the selected object is animated, and only while the scene is not empty;
  `pulse` flips on every frame whose selected object is not round, whether or
  not `spinning` is set (Multi/Multi.cpp:263-285). `spinning` does not decide
  which objects animate: it only starts and stops the timer.
- `selected` starts at 1 while `objCount` is 0 (Multi/Multi.cpp:52-53).
- `GLOBE` has no branch in `createGeometry`'s switch, so a Globe keeps the
  default placement and is not round (Multi/Multi.cpp:363-410).

## Model

| member | source | states |
|---|---|---|
| Transforms.ScaleOneIsIdentity | Multi/Multi.cpp:280-283 | multiplying by Scale(1.0) on the left leaves every transform the same after unit factors are dropped |
| Camera.Clamp | Multi/Multi.cpp:141 | the ternary clamp lands in [lo, hi] and leaves a value already in range unchanged |
| Camera.ClampNearest | Multi/Multi.cpp:153 | the clamped value is the point of [lo, hi] nearest to the input |
| Camera.Drag | Multi/Multi.cpp:129-154 | the left button adds a quarter degree per pixel to theta and phi and clamps phi to [0.1, pi - 0.1], stopping at the bound it overshoots, with radius untouched; only without it does the right button add 0.05 per pixel of (dx - dy) to radius, stopping at 3 or 15 when it overshoots, with the angles untouched; with neither button nothing changes; clamped parameters stay clamped |
| Camera.StartInRange | Multi/Multi.cpp:78-80 | Init's phi = 1.3 and radius = 5 are within the clamps |
| Camera.HorizontalOrbit | Multi/Multi.cpp:129-138 | a 40-pixel horizontal drag from Init's camera turns theta by exactly 10 degrees and changes nothing else |
| Scene.NewObject | Multi/Multi.cpp:352-410 | the new object is round exactly for Cylinder and Sphere, Grid gets the identity and every other shape, Globe included, gets Scale(0.4) * Translate(0, 0.2, 0), in both world and worldStopped |
| Scene.Erase | Multi/Multi.cpp:157 | erase leaves one object fewer, the objects before the index in place and the ones after it shifted down by one |
| Scene.EraseMultiset | Multi/Multi.cpp:157 | erase removes exactly the object at the index: the multiset of the store loses that one element |
| Scene.EraseInsert | Multi/Multi.cpp:157 | putting the erased object back at its index restores the store |
| Scene.SelectionAfterDelete | Multi/Multi.cpp:159 | the new selection is one back but not below zero: strictly smaller when the old one was positive |
| Scene.NextSelection | Multi/Multi.cpp:172 | `(selected + 1) % objCount` is in [0, objCount): the next index, or 0 after the last |
| Scene.CycledIsModular | Multi/Multi.cpp:170-179 | k presses of Tab move the selection to `(selected + k) % objCount` |
| Scene.CycleReachesEvery | Multi/Multi.cpp:172 | Tab reaches every object of a non-empty store within fewer than objCount presses |
| Scene.CycleReturns | Multi/Multi.cpp:172 | objCount presses of Tab bring the selection back where it was |
| Editing.CommandsIncreasing | Multi/Multi.cpp:197-242 | the commands of a frame come in the order Update tests them: translations, scalings, rotations |
| Editing.UpDownAreActive | Multi/Multi.cpp:206-222 | without Control, Up and Down move along Z without Shift and along Y with it, each exactly when its keys are held |
| Editing.TranslationsAreActive | Multi/Multi.cpp:199-223 | a translation is issued exactly when its binding holds: Left +X, Right -X, and the Z and Y moves only without Control |
| Editing.ScalingsAreActive | Multi/Multi.cpp:225-231 | Grow and Shrink are issued exactly when Up, respectively Down, is held with Control |
| Editing.RotationsAreActive | Multi/Multi.cpp:233-242 | TurnX is issued exactly when X is pressed without Shift, TurnY and TurnZ when Y and Z are pressed |
| Editing.CommandsAreActive | Multi/Multi.cpp:197-242 | a command is in the frame's list if and only if its key binding holds |
| Editing.CommandsUnique | Multi/Multi.cpp:197-242 | the binding table and the test order determine the list: any increasing list holding exactly the active commands is it |
| Editing.EditTransformSteps | Multi/Multi.cpp:197-242 | the frame's transform contains a command's step if and only if that command's binding holds |
| Editing.ControlBlocksYZ | Multi/Multi.cpp:206-223 | with Control held the transform holds no translation along Y or Z |
| Editing.ControlScales | Multi/Multi.cpp:225-231 | with Control held the transform scales by 1.001 if and only if Up is held and by 0.999 if and only if Down is |
| Editing.ShiftBlocksTurnX | Multi/Multi.cpp:233-242 | with Shift held a pressed X does not rotate, while Y and Z still do |
| Editing.NoEditKeysNoEdit | Multi/Multi.cpp:197-242 | with no arrow held and no rotation key pressed the transform is the identity |
| Editing.StepsConcat | Multi/Multi.cpp:197-242 | the steps of two command lists in sequence multiply to the product of their steps |
| Editing.MulIf | Multi/Multi.cpp:199-242 | one `if (test) transform *= M` right-multiplies the command's step exactly when the test holds |
| Editing.ApplyTranslations | Multi/Multi.cpp:199-223 | the TRANSLATE block right-multiplies the steps of the active translations in test order |
| Editing.ApplyUpDown | Multi/Multi.cpp:206-222 | the block inside the Control test right-multiplies the active Z and Y moves in test order |
| Editing.ApplyScalings | Multi/Multi.cpp:225-231 | the SCALE block right-multiplies the active scalings in test order |
| Editing.ApplyRotations | Multi/Multi.cpp:233-242 | the ROTATE block right-multiplies the active 15-degree rotations in test order |
| Editing.ComposeEdit | Multi/Multi.cpp:197-242 | the dispatch starting from Identity builds exactly the product of the steps of the frame's commands |
| MultiApp.Spawn | Multi/Multi.cpp:413-414 | createGeometry appends exactly one object, selects it at the old objCount and adds one to objCount, so the store invariant holds with the new object last |
| MultiApp.SpawnIf | Multi/Multi.cpp:181-195 | a pressed spawn test appends exactly the new object of its shape and selects it at the old objCount; an unpressed one changes nothing; objCount keeps counting the scene and no other field changes |
| MultiApp.SpawnPressed | Multi/Multi.cpp:181-195 | the five spawn tests append the objects of the pressed keys in the order E Sphere, B Box, C Cylinder, G Globe, P Grid, select the last one appended, change nothing when none is pressed, and keep the store invariant and every other field |
| MultiApp.SpawnAllKeys | Multi/Multi.cpp:181-195 | pressing all five spawn keys appends a Sphere, a Box, a Cylinder, a Globe and a Grid in that order and leaves the Grid selected |
| MultiApp.DeleteSelected | Multi/Multi.cpp:156-160 | Delete erases the selected object, decrements objCount, steps the selection back but not below zero, and keeps the store invariant |
| MultiApp.Latch | Multi/Multi.cpp:162-168 | solid afterwards holds if and only if W is not held and either S is held or solid held before |
| MultiApp.CycleSelection | Multi/Multi.cpp:170-179 | Tab selects the next object round the store, flips spinning, leaves the timer running exactly when spinning, and keeps the store invariant |
| MultiApp.PulseOffShowsBase | Multi/Multi.cpp:280-283 | with pulse off a non-round object is drawn at exactly its worldStopped |
| MultiApp.ApplyToSelected | Multi/Multi.cpp:263-285 | on an empty scene nothing changes; otherwise only the selected object and pulse change (camera, fill, spinning, timer and remembered mouse stay): its worldStopped is right-multiplied by the edit, its world is recomputed from the worldStopped it had before, RotateY(elapsed) for a round object and the scale of the flipped pulse otherwise, and pulse flips exactly for a non-round object |
| MultiApp.DeleteStep | Multi/Multi.cpp:156-160 | a pressed Delete erases the selected object, lowers objCount by one and steps the selection back but not below zero, touching only the store; without it nothing changes |
| MultiApp.TabStep | Multi/Multi.cpp:170-179 | a pressed Tab selects the next object round the store, flips spinning and leaves the timer running exactly when spinning, keeping the scene, objCount, fill, pulse, camera and mouse; without it nothing changes |
| MultiApp.CameraStep | Multi/Multi.cpp:126-154 | the mouse block changes only the camera, to Drag of the movement since the remembered mouse position |
| MultiApp.FillStep | Multi/Multi.cpp:162-168 | the S and W tests change only solid, to the W-wins latch of the keys held |
| MultiApp.MouseStep | Multi/Multi.cpp:244-245 | the end of the input handling changes only the remembered mouse position, to this frame's |
| MultiApp.Initialized | Multi/Multi.cpp:69-116 | Init leaves the starting camera, the mouse position and the timer running, and appends a Grid, a Box and a Sphere with the Sphere selected, keeping fill, spinning and pulse |
| MultiApp.Updated | Multi/Multi.cpp:120-285 | one frame keeps the store invariant whenever the frame meets its preconditions |
| MultiApp.UpdatedCamera | Multi/Multi.cpp:126-154 | a frame's camera is Drag of the mouse movement since the last frame, and a clamped camera stays clamped |
| MultiApp.PipelineFor | Multi/Multi.cpp:307-310 | Draw clears with the solid pipeline if and only if solid is set |
| MultiApp.Multi.constructor | Multi/Multi.cpp:35-53 | the field initialisers: an empty scene, selected = 1, spinning and pulse on, solid off |
| MultiApp.Multi.Init | Multi/Multi.cpp:69-116 | Init sets the starting camera and the mouse position, creates a Grid, a Box and a Sphere in that order and starts the timer |
| MultiApp.Multi.CreateGeometry | Multi/Multi.cpp:350-415 | the fields afterwards are those of Spawn: one object appended and selected |
| MultiApp.Multi.Update | Multi/Multi.cpp:120-285 | the fields after the call are Updated of the fields before it |
| MultiApp.Multi.MoveCamera | Multi/Multi.cpp:126-154 | the mouse block changes only the camera, to Drag of the movement since the last frame |
| MultiApp.Multi.DeleteKey | Multi/Multi.cpp:156-160 | the Delete block changes the fields as DeleteStep does |
| MultiApp.Multi.FillKeys | Multi/Multi.cpp:162-168 | the S and W tests change only solid, to the latch of the keys held |
| MultiApp.Multi.TabKey | Multi/Multi.cpp:170-179 | the Tab block changes the fields as TabStep does |
| MultiApp.Multi.SpawnKeys | Multi/Multi.cpp:181-195 | the spawn block changes the fields as SpawnPressed does |
| MultiApp.Multi.RememberMouse | Multi/Multi.cpp:244-245 | only the remembered mouse position changes, to this frame's |
| MultiApp.Multi.EditSelected | Multi/Multi.cpp:263-285 | the selected-object block changes the fields as ApplyToSelected does |
| MultiApp.Multi.Draw | Multi/Multi.cpp:307-310 | the pipeline is the solid one if and only if solid is set |
| Frames.Run | Multi/Multi.cpp:120-285 | any run of frames, each meeting its preconditions, keeps the store invariant |
| Frames.RunKeepsCameraInRange | Multi/Multi.cpp:129-154 | phi and radius stay within their clamps over any run of frames |
| Frames.CameraAlwaysInRange | Multi/Multi.cpp:78-154 | from Init on, phi stays in [0.1, pi - 0.1] and radius in [3, 15] whatever the frames |
| Frames.EditFrame | Multi/Multi.cpp:197-285 | a frame that presses no store key keeps the selection and right-multiplies the selected worldStopped by the frame's transform, and leaves every other object alone |
| Frames.EditOnlyRunnable | Multi/Multi.cpp:156-179 | on a non-empty store, frames that press no store key never meet the undefined Delete or Tab case |
| Frames.EditsAccumulate | Multi/Multi.cpp:263-265 | over frames that press no store key the selected worldStopped becomes the old one times the frames' transforms in frame order |
| Frames.EditsTouchOnlySelected | Multi/Multi.cpp:263-285 | over such frames no object but the selected one changes |
| Frames.QuietFrame | Multi/Multi.cpp:263-285 | a frame with nothing held or pressed changes no object but the selected one, and no field but the selected object, pulse and the remembered mouse |
| Frames.QuietFrameSelected | Multi/Multi.cpp:263-285 | on such a frame the selected worldStopped stays; a round object is drawn at RotateY(elapsed) * worldStopped, any other flips pulse and is drawn at Scale(1.015 or 1.0 by the new pulse) * worldStopped |
| Frames.QuietRunnable | Multi/Multi.cpp:156-179 | frames with nothing held or pressed never meet the undefined Delete or Tab case, even on an empty store |
| Frames.QuietRunKeepsSelected | Multi/Multi.cpp:263-285 | over quiet frames the store, the selection and the selected worldStopped stay put |
| Frames.QuietRunPulse | Multi/Multi.cpp:272-273 | over n quiet frames pulse has flipped exactly when n is odd for a non-round selected object, and not at all for a round one |
| Frames.UpdatedFill | Multi/Multi.cpp:162-168 | after any frame solid holds if and only if W is not held and either S is held or solid held before |
| Frames.UpdatedPipeline | Multi/Multi.cpp:162-168 | after a frame Draw uses wireframe while W is held, solid while only S is, and the previous pipeline otherwise |
| Frames.FillPersists | Multi/Multi.cpp:162-168 | over frames holding neither S nor W the fill mode never changes |
| Frames.DeleteFrame | Multi/Multi.cpp:156-160 | a Delete frame lowers objCount by one and steps the selection back but not below zero |
| Frames.DeleteFrameScene | Multi/Multi.cpp:156-160 | after a Delete frame the store is the erased one except for the newly selected object, which is animated in the same frame |
| Frames.TabFrame | Multi/Multi.cpp:170-179 | a Tab frame selects the next object round the store, flips spinning and runs the timer exactly when spinning |
| Frames.TabFrameScene | Multi/Multi.cpp:170-179 | a Tab frame changes no object's worldStopped |
| Frames.SpawnFrame | Multi/Multi.cpp:181-183 | an E frame appends and selects a Sphere, spun at once by the elapsed seconds, with the objects before it untouched and pulse unchanged |
| Frames.InitScene | Multi/Multi.cpp:69-116 | after Init the scene is Grid, Box, Sphere with the Sphere selected, the camera clamped and the timer running |
| Frames.DeleteAllAfterInit | Multi/Multi.cpp:156-160 | three Delete frames after Init empty the store, after which a further Delete frame no longer meets the precondition of Update |

## Left out

- Escape closing the window (Multi/Multi.cpp:123-124): the window is not part of this model.
- The view matrix from `sinf`/`cosf` and `XMMatrixLookAtLH`, the projection from `XMMatrixPerspectiveFovLH`, and the per-object world-view-projection upload loop (Multi/Multi.cpp:94-97, 247-260, 287-299): floating-point numerics of a foreign math library feeding GPU buffers.
- Command-list recording and `Present` in `Draw`, `Finalize`, `BuildRootSignature`, `BuildPipelineState` and `WinMain`: graphics-API and process plumbing. Only `Draw`'s choice of pipeline is modelled.
- Mesh and buffer creation in `createGeometry` and the shape generators: only the `round` flag and the initial transforms are modelled. The declaration of `Object` is not part of this model; its `round` is taken to start false, as the branches that set it imply.
- `Timer` and `input`: the keys held and pressed, the mouse position and `timer.Elapsed()` are inputs of each frame (`Input.Sample`); whether the timer runs is the field `timerRunning`, and what `Elapsed()` returns while it is stopped is left to the caller.
- Matrices are symbolic products, never evaluated: two different factor lists can denote the same matrix, and only unit factors are identified (`Transforms.Reduce`).
- Camera.Drag: computes with exact reals, not 32-bit floats, and takes XM_PI as 3.141592654; float rounding of the angles and the radius is not modelled.
- MultiApp.Multi.Update: its precondition `FramePre` excludes Delete and Tab on an empty store, which the code leaves undefined; what the program does then is not modelled.
- `objCount` and `selected` are unbounded integers: a 32-bit overflow would take two billion spawns and is not modelled.
