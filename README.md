# Material codec and mesh-viewer input handling, in Dafny

This project models two small sequential parts of the r267 rendering examples and proves
properties of them.

- **The scene material** (`src/base/scene/material.cpp`). A `Material` holds a `MaterialUBO`
  record and the file name of a diffuse texture. The record has albedo, roughness, a diffuse
  colour and a specular colour. `read` fills the material from a boost property tree. Missing
  scalars get defaults, and each colour starts white. A colour array may set up to three
  components, and a fourth element raises. `save` writes the material back, always with three
  components per colour. The file also has five setters, a field-wise `equal`, and a guard
  against an empty texture file name.
- **The mesh viewer's input handling** (`examples/mesh/main.cpp`). Two flags and a remembered
  cursor position turn a drag with mouse button 1 into camera rotations. The first move after
  a press only seeds the position. A scroll zooms. Every mouse event refreshes the
  view-projection in the uniform block, and every frame uploads that block.

Files:
- `wrappers.dfy` holds `Option` and `Result`.
- `float32.dfy` models a C++ `float` as its IEEE 754 bit pattern. It gives the C++ `==`: NaN
  differs from itself and +0 equals -0. It also holds `FloatText`, the float↔text conversion,
  which is a parameter of the model.
- `property_tree.dfy` models the tree. A node has a data string and an ordered list of
  (key, child) pairs. Lookup returns the first match. `put` updates the first match or appends.
  `add_child` and `push_back` always append.
- `material.dfy` holds the codec as specification functions with their lemmas, and the
  `Material` class. Its methods `Read` and `Save` work step by step and are proved equal to
  those functions.
- `mesh_viewer.dfy` holds the viewer state machine as functions over a `Viewer` value, with
  lemmas over event traces. The classes `MeshApp` and `Camera` have methods proved against those
  functions. The camera is reduced to the log of `rotate`/`scale` calls made on it. Its
  view-projection is an opaque value determined by that log.

Three properties of the code that a reader might expect otherwise:
- A colour array may have 0 to 3 elements, not only exactly three. A short array leaves the
  remaining components at 1.0.
- A failed read has no rollback. Fields written before the error stay written
  (`ReadFailsAfterWriting`, `SpecularFailsAfterWriting`).
- Saving and reading back is exact only when the float text round-trips and every field is
  finite. Infinities and NaNs are written as text that reading a float does not accept. Even
  with an exact round trip, a NaN field makes `equal` false.

## Model

| member | source | states |
|---|---|---|
| Float32.NaNNotEqualToItself | src/base/scene/material.cpp:98-101 | The float comparison used by `equal` holds of x and x exactly when x is not NaN |
| Float32.Eq | src/base/scene/material.cpp:98-101 | The float `==` is false whenever either side is NaN; it holds of equal non-NaN bit patterns and of any two zeros, and otherwise only of identical bit patterns |
| PropertyTree.FindIndex | src/base/scene/material.cpp:19-20 | The index found holds the key and no earlier child does; none is found only if no child has the key |
| PropertyTree.GetChildOptional | src/base/scene/material.cpp:19-20 | `get_child_optional` is absent exactly when no child has the key; otherwise it is the child of the first pair stored under the key |
| PropertyTree.GetOr | src/base/scene/material.cpp:17-18 | `get<float>(key, default)` gives the default when the key is missing or the first child's text does not convert; otherwise the conversion of the first child's text |
| PropertyTree.GetString | src/base/scene/material.cpp:39 | `get<string>(key, default)` gives the default when the key is missing, otherwise the text of the first child under the key |
| PropertyTree.Put | src/base/scene/material.cpp:49-50 | `put(key, text)` keeps the node's own data; when the key is absent it appends one leaf holding the text; otherwise it sets the data of the first child under the key and changes nothing else |
| PropertyTree.PutKeepsOthers | src/base/scene/material.cpp:65 | The quantified form of GetOtherAfterPut: one `put` leaves all other keys' reads unchanged at once |
| PropertyTree.AddChildKeepsOthers | src/base/scene/material.cpp:57 | The quantified form of GetAfterAddChild's second half: one `add_child` leaves all other keys' reads unchanged at once |
| PropertyTree.AddChild | src/base/scene/material.cpp:55-57 | `add_child`/`push_back` append exactly one pair and keep every earlier child |
| PropertyTree.GetAfterPut | src/base/scene/material.cpp:49-50 | After `put(key, text)`, reading `key` gives that text |
| PropertyTree.GetOtherAfterPut | src/base/scene/material.cpp:49-50 | Pointwise: `put` on one key leaves what a given other key reads unchanged |
| PropertyTree.GetAfterAddChild | src/base/scene/material.cpp:45 | After `add_child`, the key reads the new child only if it was absent before; other keys read as before |
| SceneMaterial.ReadMaterial | src/base/scene/material.cpp:16-40 | Missing albedo reads 1.0 and missing roughness 0.0; present convertible entries are taken as they are; missing colours read white; on error the file name is untouched; a missing texture reads as "" |
| SceneMaterial.ReadObject | src/base/scene/material.cpp:10-14 | A missing child raises NoSuchChild and leaves the material unchanged |
| SceneMaterial.FillColor | src/base/scene/material.cpp:23-38 | The colour loop raises only BadData or WrongArrayFormat, and only for its own array; it finishes without error only if the counter plus the remaining elements is at most 3 |
| SceneMaterial.ReadColor | src/base/scene/material.cpp:21-38 | One array read into a white colour raises only its own BadData or WrongArrayFormat, succeeds only with at most 3 elements, and leaves white for an empty array |
| SceneMaterial.FillColorPrefix | src/base/scene/material.cpp:24-29 | Elements that all convert are written to consecutive components before the loop goes on |
| SceneMaterial.ReadColorCases | src/base/scene/material.cpp:21-38 | Three cases. An unconvertible element among the first three raises BadData after writing the earlier components. Otherwise a fourth element raises WrongArrayFormat after writing all three. Otherwise k ≤ 3 values overwrite components 0..k-1 and the rest stay 1.0 |
| SceneMaterial.ReadColorSucceeds | src/base/scene/material.cpp:24-37 | A colour array reads without error if and only if it has at most 3 elements and all are floats |
| SceneMaterial.WrongFormatCase | src/base/scene/material.cpp:26 | WrongArrayFormat is raised if and only if a fourth element exists and the first three convert |
| SceneMaterial.ReadMaterialError | src/base/scene/material.cpp:24-38 | A read's error is the diffuse loop's, or else the specular loop's |
| SceneMaterial.ReadMaterialErrors | src/base/scene/material.cpp:23-35 | Reading succeeds if and only if both arrays are well formed; each array is checked on its own against the limit of 3 because the counter restarts |
| SceneMaterial.ReadFailsAfterWriting | src/base/scene/material.cpp:17-27 | A fourth diffuse element raises after albedo, roughness and all three diffuse components were written; specular is white and the file name untouched |
| SceneMaterial.SpecularFailsAfterWriting | src/base/scene/material.cpp:17-35 | With a well-formed diffuse array, a fourth specular element raises after albedo, roughness, the whole diffuse colour and all three specular components were written; the file name is untouched |
| SceneMaterial.SaveMaterial | src/base/scene/material.cpp:48-66 | `save(tree)` keeps the tree's own data and leaves what every key other than the five material keys reads unchanged |
| SceneMaterial.SaveObject | src/base/scene/material.cpp:42-46 | `save(root, name)` makes `name` read the freshly saved material when it was absent, leaves it shadowed by the earlier child otherwise, and leaves every other key unchanged |
| SceneMaterial.FieldsEqual | src/base/scene/material.cpp:97-104 | `equal` holds only of NaN-free materials with the same file name; a material compared with an identical one is equal exactly when it has no NaN field |
| SceneMaterial.ColorElementsShape | src/base/scene/material.cpp:51-56 | `save` writes exactly one element per component, in order, each holding the component's text |
| SceneMaterial.SavedColorReadsBack | src/base/scene/material.cpp:58-64 | A saved colour array with finite components reads back as the same colour without error, when the text round-trips for finite floats |
| SceneMaterial.SavedLookups | src/base/scene/material.cpp:48-66 | In a saved tree, each of the five keys reads what `save` wrote, provided the tree had no colour arrays before |
| SceneMaterial.SavedArraysNeverOverflow | src/base/scene/material.cpp:51-64 | Both saved arrays have exactly 3 elements, so reading a saved tree never raises WrongArrayFormat, for any float text |
| SceneMaterial.SaveThenRead | src/base/scene/material.cpp:48-66 | Reading what `save` wrote reproduces all five fields with no error, given a float text that round-trips finite floats and finite fields |
| SceneMaterial.SaveObjectThenReadObject | src/base/scene/material.cpp:42-46 | The same round trip through `save(root, name)` and `read(root, name)`, when `root` has no child `name` yet |
| SceneMaterial.SaveObjectShadowed | src/base/scene/material.cpp:42-46 | When `root` already has a child `name`, reading `name` after `save` still gives what it gave before |
| SceneMaterial.EqualReflexive | src/base/scene/material.cpp:97-104 | `equal(m, m)` holds if and only if no float field of m is NaN |
| SceneMaterial.EqualFieldwise | src/base/scene/material.cpp:97-104 | `equal` is false as soon as any one field compares unequal under the float `!=` (for floats) or differs (for the file name); identical NaN-free materials are equal |
| SceneMaterial.SavedMaterialEqual | src/base/scene/material.cpp:97-104 | A material with finite fields, saved and read back, is `equal` to the original |
| SceneMaterial.Material.constructor | src/base/scene/material.cpp:6 | A new material holds the record it is given and an empty texture file name |
| SceneMaterial.Material.ReadFrom | src/base/scene/material.cpp:10-14 | The new state and the error are those of ReadObject on the old state |
| SceneMaterial.Material.Read | src/base/scene/material.cpp:16-40 | Assigning field by field and copying the arrays in place leaves the state and error that ReadMaterial gives |
| SceneMaterial.Material.CopyDiffuse | src/base/scene/material.cpp:23-30 | The diffuse loop changes only the diffuse colour, to what ReadColor gives, and returns its error |
| SceneMaterial.Material.CopySpecular | src/base/scene/material.cpp:31-38 | The specular loop, with its own counter, changes only the specular colour |
| SceneMaterial.Material.SaveTo | src/base/scene/material.cpp:42-46 | Returns `root` with the material, saved into a fresh tree, appended under `name` |
| SceneMaterial.Material.Save | src/base/scene/material.cpp:48-66 | Building each colour array element by element gives SaveMaterial's tree |
| SceneMaterial.Material.Data | src/base/scene/material.cpp:68-70 | Returns the record by value |
| SceneMaterial.Material.DiffuseTexture | src/base/scene/material.cpp:72-75 | Fails with EmptyFilename if and only if the file name is empty; otherwise passes the file name on to the loader |
| SceneMaterial.Material.SetAlbedo | src/base/scene/material.cpp:77-79 | Changes albedo to the argument and nothing else |
| SceneMaterial.Material.SetRoughness | src/base/scene/material.cpp:81-83 | Changes roughness and nothing else |
| SceneMaterial.Material.SetDiffuseColor | src/base/scene/material.cpp:85-87 | Changes the diffuse colour and nothing else |
| SceneMaterial.Material.SetSpecularColor | src/base/scene/material.cpp:89-91 | Changes the specular colour and nothing else |
| SceneMaterial.Material.SetDiffuseTexture | src/base/scene/material.cpp:93-95 | Changes the file name and nothing else |
| SceneMaterial.Material.Equal | src/base/scene/material.cpp:97-104 | `equal` implies the same file name, and a material compared with itself is equal exactly when no float field is NaN |
| MeshViewer.InitialAsWritten | examples/mesh/main.cpp:46-50 | The state as constructed: the flags, previous position and frame time are arbitrary; the uniform block holds the fresh camera's matrix (line 49), and creating the buffer has copied it once (line 50) |
| MeshViewer.Initial | examples/mesh/main.cpp:46-50 | The state evidently intended: not pressed, so no gesture in progress; the block and its first copy as in the written state |
| MeshViewer.MouseStep | examples/mesh/main.cpp:144-163 | Press of button 1 sets both flags. Other actions on button 1 clear pressed; other buttons change no flag. A move while released changes nothing. The first move after a press only seeds the position and clears first. Later moves rotate once by current minus previous with the current dt. The uniform block is refreshed every time |
| MeshViewer.ScrollAsWritten | examples/mesh/main.cpp:164-167 | Exactly one `scale(offset.y, dt)`; no flag changes and the uniform block is not refreshed |
| MeshViewer.ScrollStep | examples/mesh/main.cpp:164-166 | Corrected scroll: the same single `scale` call, and the uniform block is refreshed |
| MeshViewer.FrameStep | examples/mesh/main.cpp:106-111 | A frame uploads the uniform block, then takes the measured time as the new dt; nothing else changes |
| MeshViewer.Step | examples/mesh/main.cpp:106-167 | One event of the corrected viewer (scrolls refresh the uniform block): a mouse or scroll event leaves the block in sync and uploads nothing; a frame uploads the block |
| MeshViewer.Run | examples/mesh/main.cpp:106-167 | In the corrected viewer, a trace only appends uploads, exactly one per frame it holds |
| MeshViewer.RunAppend | examples/mesh/main.cpp:144-167 | Corrected viewer: handling a trace and then one more event is one more step |
| MeshViewer.RunKeepsInSync | examples/mesh/main.cpp:162 | Corrected viewer: once the uniform block holds the camera's matrix, every event keeps it so. As written, a scroll breaks this (second finding) |
| MeshViewer.FrameUploadsCurrentView | examples/mesh/main.cpp:106 | Corrected viewer: the matrix uploaded at a frame is the camera's view-projection after every earlier event |
| MeshViewer.ScrollAsWrittenUploadsStaleView | examples/mesh/main.cpp:164-167 | As written, a frame after a scroll uploads the matrix from before the zoom, which differs from the zoomed camera's |
| MeshViewer.UninitialisedFlagsRotate | examples/mesh/main.cpp:152-157 | As written, with indeterminate flags read as pressed and not first, the first move rotates without a press |
| MeshViewer.NoRotationWithoutPress | examples/mesh/main.cpp:145-160 | From a released state, a trace without a press of button 1 makes no rotation and stays released |
| MeshViewer.InitialNeverRotatesBeforePress | examples/mesh/main.cpp:145-160 | From the intended initial state nothing rotates the camera before button 1 is pressed |
| MeshViewer.DragContinues | examples/mesh/main.cpp:154-159 | While pressed and seeded, each move rotates by its difference from the previous position, and the last position is remembered |
| MeshViewer.DragRotatesByDeltas | examples/mesh/main.cpp:146-159 | A press then moves through p0..pn makes exactly the rotations p1-p0, …, pn-p(n-1), all with the current dt |
| MeshViewer.DragTotal | examples/mesh/main.cpp:155 | A drag's rotations add up to its last position minus its first |
| MeshViewer.Launch | examples/mesh/main.cpp:201-215 | With fewer than 2 arguments, writes "Wrong arguments" and exits -1 before creating the app; otherwise the scene file is argv[1], nothing is written by `main` itself, and the exit code is 0 |
| MeshViewer.Camera.constructor | examples/mesh/main.cpp:46 | A new camera has had no calls made on it |
| MeshViewer.Camera.Rotate | examples/mesh/main.cpp:156 | Records one rotation with its delta and dt |
| MeshViewer.Camera.Scale | examples/mesh/main.cpp:165 | Records one zoom with its amount and dt |
| MeshViewer.MeshApp.AsWritten | examples/mesh/main.cpp:46-50 | As written, the flags and dt keep what they held; the camera is fresh; the uniform block holds its matrix, copied once into the buffer |
| MeshViewer.MeshApp.constructor | examples/mesh/main.cpp:46-50 | The corrected construction gives the Initial state |
| MeshViewer.MeshApp.OnMouse | examples/mesh/main.cpp:144-163 | Updating the fields and calling the camera leaves the state that MouseStep gives |
| MeshViewer.MeshApp.OnScroll | examples/mesh/main.cpp:164-167 | The state afterwards is the one ScrollAsWritten gives |
| MeshViewer.MeshApp.Draw | examples/mesh/main.cpp:104-111 | The upload and the dt update of `draw` leave the state that FrameStep gives |

## Findings

| source | as written | input that shows it | evidently intended | confidence | as-written member | corrected member |
|---|---|---|---|---|---|---|
| examples/mesh/main.cpp:21 | The constructor never initialises `_isPressed`, `_isFirst`, `_prev_mouse` or `_dt`, and `init` does not either. Reading them before the first button event (or before the first frame, for `_dt`) is undefined behaviour | A cursor-position event delivered before any button event, with the indeterminate flags reading pressed and not first: the camera rotates by the cursor position minus a garbage previous position | The flags start false, so nothing rotates before a press | medium; not executed | MeshViewer.UninitialisedFlagsRotate | MeshViewer.InitialNeverRotatesBeforePress |
| examples/mesh/main.cpp:164-167 | `onScroll` zooms the camera but does not refresh `_mvpData.mvp`, unlike `onMouse` (line 162) | A scroll event followed by a frame: the frame uploads the view-projection from before the zoom, and the zoom stays invisible until the next mouse event | `onScroll` refreshes the uniform block as `onMouse` does, so every frame shows the camera after all earlier input | medium; not executed | MeshViewer.ScrollAsWrittenUploadsStaleView | MeshViewer.FrameUploadsCurrentView |

## Left out

- Vulkan set-up, pipeline, shaders, framebuffers, command buffers, semaphores and the
  acquire/submit/present sequence (`init`, the rest of `draw`, `onExit`). These are
  graphics-API calls with host/GPU concurrency, and nothing in them can be stated here.
- The clock and the FPS print in `draw`. The measured frame time is a parameter of `Draw`.
- Camera mathematics (`rotate`, `scale`, `getVP`, `setProj`) and glm matrices. The camera's
  source files are not part of this model. The camera is a call log, and its view-projection is
  an opaque value determined by that log.
- `loadImage` behind `diffuseTexture`, which is image file I/O.
  SceneMaterial.Material.DiffuseTexture returns the file name that would be loaded, not an image.
- JSON text parsing and writing. Boost's float↔text conversion is the `FloatText` parameter.
  That it round-trips for finite values is stated as the `RoundTrips` assumption of the
  round-trip lemmas, not proved. Infinities and NaNs do not round-trip: the stream writes them
  as "inf" or "nan", which reading a float rejects, so the round-trip lemmas require finite fields.
- Property-tree paths. Boost splits a key at '.' into a path of nested children. The model
  treats each key, including the `name` given to `read(root, name)` and `save(root, name)`, as a
  single fragment. The five keys of `material.cpp` contain no '.'.
- Cursor coordinates and scroll offsets are integers. The model does not capture the
  double→float conversion of the GLFW coordinates or rounding in the glm::vec2 subtraction.
- GLFW callback kinds other than button and position events. `onMouse` ignores them except
  for the refresh of the uniform block.
- The `MaterialUBO` declaration and its default member values are not part of this model. The
  Material constructor takes the initial `MaterialUBO` as an argument; the texture file name,
  a `std::string` member, starts empty.
- glm's vec3 `!=` is taken as the componentwise float `==`. Some glm versions compare through
  `abs(b - a) <= 0`, which differs for infinities.
- The `shared_ptr` argument of `equal` is assumed non-null.
- MeshViewer.ScrollAsWrittenUploadsStaleView: its `!=` rests on the view-projection being the
  call log itself. A real camera's `scale(0, dt)` may leave the matrix unchanged. The
  ensures clause saying that the upload is the matrix from before the zoom does not rest on this.
- The return values of `onKey`, `onMouse` and `onExit`. They fall off the end without a
  `return`, so they get no contract.
