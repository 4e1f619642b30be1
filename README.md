# Api8_2023 engine core in Dafny

A model of the small OpenGL engine in the Api8_2023 repository: the Python
code built on pyglet, moderngl and PyGLM. The model covers four parts that do
not depend on the GPU:

- **Cube meshes and index expansion.** `get_vertices_from_surface` expands a
  vertex table and a list of index tuples into one row per index. It exists
  in modules/mesh.py, modules/demos.py and modules/shapes.py, plus a 1-based
  copy in beta/teapot.py. The textured, solid and wire cube meshes are built
  from the shared literal tables with tuple repetition, numpy `reshape` and
  `hstack`. The vertex layouts (`'3f'`, `'3f 3f'`, `'2f 3f 3f'`) that the
  models and demos declare are parsed and checked against the rows.
- **Materials.** The `Material` class of modules/model.py has a 30-entry
  preset table, a constructor that applies a preset and then the truthy
  overrides, and four setters. `Model` keeps a model matrix that `transform`
  multiplies on the right.
- **Scenes.** A `Scene` (modules/scene.py) holds a list of models. Each
  model's shader program is seen as a table of uniforms. `render`,
  `CompanionCubeScene.render`, the `load_*` methods and `destroy` write
  matrices into these tables and draw or release the models in list order.
  `add_model` appends a `(model, shader_name)` tuple, `Model.render` and
  `Model.destroy` need a texture, and `Model.render` also needs the vertex
  array that `set_vao` binds, so every loop is modelled up to the entry that
  makes it raise.
- **The engine.** `GLEngine` (modules/core.py) has a held-key map set and
  cleared by key events, and the J, K and M toggles. It turns the held keys
  into camera moves once per tick, accumulates the elapsed time, gates mouse
  motion, and walks its scenes to render and to close them.

Python exceptions are `None` results or `false` success flags. Matrices are
symbolic terms, because PyGLM's floating-point routines are not modelled.
The camera records the calls it receives: the methods that modules/core.py
calls on it are not defined in modules/camera.py.

Modules, one file each:

- `Wrappers`: Option.
- `GlMath`: vectors, matrix terms and the `rotate` wrapper.
- `Uniforms`: a program's uniform table.
- `Surfaces`: index expansion.
- `Tables`: the literal tables, tuple repetition, reshape and hstack.
- `Layout`: vertex formats.
- `Mesh`: the three cube meshes.
- `Demos`, `Shapes`, `Teapot`: the demo objects.
- `Model`: materials and models.
- `Camera`, `Scene`, `Core`.

## Model

| member | source | states |
|---|---|---|
| Surfaces.PyIndex | modules/mesh.py:14 | `xs[i]` succeeds exactly for -len <= i < len; a non-negative index selects `xs[i]` and a negative one counts from the end |
| Surfaces.Flatten | modules/mesh.py:14-16 | the indices in comprehension order; their number is the total length of all tuples |
| Surfaces.Gather | modules/mesh.py:14-16 | the lookup succeeds exactly when every index is in Python's range; it then has one row per index, and row k is what `vertices[indices[k]]` gives |
| Surfaces.VerticesFromSurface | modules/mesh.py:13-17 | the comprehension of `get_vertices_from_surface`; when no index raises it has one row per index of every tuple |
| Surfaces.VerticesFromSurfaceDefined | modules/mesh.py:14-16 | the expansion raises exactly when some index of some tuple lies outside -len .. len - 1 |
| Surfaces.TotalLengthUniform | modules/mesh.py:14-16 | tuples of equal width w give w times the number of tuples |
| Surfaces.FlattenAt | modules/mesh.py:14-16 | slot j of tuple t sits at Offset(t) + j of the flattened indices |
| Surfaces.OffsetUniform | modules/mesh.py:14-16 | with tuples of width w, tuple t starts at w * t |
| Surfaces.FlattenFrom | modules/mesh.py:14-16 | every flattened index comes from some slot of some tuple |
| Surfaces.VerticesFromSurfaceAt | modules/mesh.py:12-17 | with in-range indices the expansion succeeds with one row per index, and the row of slot j of surface t is `vertices[surfaces[t][j]]` |
| Surfaces.VerticesFromSurfaceSome | modules/mesh.py:12-17 | in-range indices never raise; the length is the total number of indices, and every index selects without wrapping |
| Tables.TableWidths | modules/mesh.py:25-26 | the 8 corners and 8 colours are triples, as are the 6 normals and the 3 triangle vertices |
| Tables.Repeat | modules/mesh.py:48-53 | `t * n` of a triple has 3n values, and value k is `t[k % 3]` |
| Tables.ConcatAt | modules/mesh.py:55 | flattening a table of width w puts element m of row f at w * f + m |
| Tables.ConcatLength | modules/mesh.py:55 | the flattened table has width times rows values |
| Tables.Reshape | modules/mesh.py:55 | `reshape(n, 3)` gives n rows, row i being values 3i .. 3i + 2 |
| Tables.HStack | modules/mesh.py:56 | `hstack` of equal-height tables: row i is the left row followed by the right row |
| Mesh.CubeTrianglesInRange | modules/mesh.py:28-44 | 12 triangles of 3 corners each, corner indices in [0, 8) and texture indices in [0, 4) |
| Mesh.CubeLinesInRange | modules/mesh.py:97-101 | 15 segments of two ends, each end in [0, 8) |
| Mesh.CubeSurfacesInRange | modules/mesh.py:28-35 | no corner or colour lookup raises or wraps around; the expansion has 36 rows |
| Mesh.TexCoordIndicesInRange | modules/mesh.py:37-46 | no texture lookup raises or wraps around; the expansion has 36 rows of 2 |
| Mesh.CubeLinesExpansionInRange | modules/mesh.py:97-103 | no wire-cube lookup raises or wraps around; the expansion has 30 rows |
| Mesh.NormalsTable | modules/mesh.py:48-53 | six tuples of 18 values |
| Mesh.NormalsData | modules/mesh.py:55 | 36 rows of 3 |
| Mesh.NormalsDataAt | modules/mesh.py:48-55 | row k of the reshaped normals is the normal of face k / 6 |
| Mesh.NormalsRow | modules/mesh.py:48-55 | the flattened normals have 108 values, and values 3k .. 3k + 2 are normal k / 6 |
| Mesh.CubePositions | modules/mesh.py:35 | 36 positions of 3 |
| Mesh.CubeCornerColors | modules/mesh.py:80-83 | 36 colours of 3 |
| Mesh.CubeTexCoords | modules/mesh.py:37-46 | 36 texture coordinates of 2 |
| Mesh.TexturedCubeVertexData | modules/mesh.py:24-60 | 36 rows of 8 values |
| Mesh.SolidCubeVertexData | modules/mesh.py:67-86 | 36 rows of 6 values |
| Mesh.WireCubeVertexData | modules/mesh.py:93-104 | 30 rows of 3 values |
| Mesh.TriangleSlot | modules/mesh.py:12-17 | for triples, row 3t + j of the expansion is the table row that slot j of triangle t names |
| Mesh.CubeSlot | modules/mesh.py:28-46 | row 3t + j of the position, colour and texture expansions is the corner, colour and texture corner of slot j of triangle t |
| Mesh.TexturedCubeRow | modules/mesh.py:24-60 | row 3t + j of the textured cube is texcoord, then the normal of face t / 2, then the corner |
| Mesh.SolidCubeRow | modules/mesh.py:67-86 | row 3t + j of the solid cube is the colour and then the position of the same corner |
| Mesh.WireCubeRow | modules/mesh.py:93-104 | rows 2s and 2s + 1 of the wire cube are the two ends of segment s |
| Mesh.TriangleOnFace | modules/mesh.py:28-33 | every corner of triangle t lies on the plane of face t / 2 (position · normal = 1) |
| Mesh.TexturedCubeNormals | modules/mesh.py:28-58 | rows 6f .. 6f + 5 carry normal f in the order +Z, +X, -Z, -X, +Y, -Y, and each row's position lies on that face |
| Mesh.CubePositionsAgree | modules/mesh.py:35-85 | the textured and the solid cube have the same position column, row by row |
| Layout.ParseFormat | modules/model.py:456 | a parsed format has at least one attribute, its string is 3n - 1 characters long, and every count is 1..9 |
| Layout.FormatString | modules/model.py:456 | the format of n widths has 3n - 1 characters |
| Layout.ParseFormatString | modules/model.py:456 | parsing the printed format gives back the widths |
| Layout.FormatStringParsed | modules/model.py:456 | printing a parsed format gives back the string |
| Layout.KnownFormats | modules/model.py:357 | `'3f'`, `'3f 3f'` and `'2f 3f 3f'` parse to [3], [3, 3] and [2, 3, 3], with strides 3, 6 and 8 |
| Shapes.TriangleLayout | modules/shapes.py:20-33 | the triangle is 3 rows of 3 and fits `'3f'` with one attribute name; demos.HelloTriangle (modules/demos.py:23-36) uses the same table and format |
| Shapes.TestCubeLayout | modules/shapes.py:77-100 | 36 position rows fitting `'3f'`, each one of the 8 corners |
| Shapes.PositionIsCorner | modules/shapes.py:81-96 | row k is the corner that slot k % 3 of triangle k / 3 names, and that index is in [0, 8) |
| Demos.SolidRowIsCorner | modules/demos.py:91-117 | every row of TestCube is the colour and the position of one and the same corner |
| Demos.WireRowIsCorner | modules/demos.py:177-195 | every row of SkeletonCube is the position of one of the 8 corners |
| Demos.TexCornersMirrored | modules/demos.py:291 | CompanionCube's texture corners are the mesh's with the same u and v mirrored |
| Demos.CompanionCubeTexCoords | modules/demos.py:291-300 | 36 texture coordinates of 2 |
| Demos.CompanionCubeVertexData | modules/demos.py:278-314 | 36 rows of 8 values |
| Demos.CompanionCubeLayout | modules/demos.py:327-330 | the rows fit `'2f 3f 3f'` with the three attribute names |
| Demos.CompanionCubeMirrored | modules/demos.py:278-314 | row k matches TexturedCubeMesh's row k in its normal and position columns and in u, with v mirrored |
| Demos.TexRowMirrored | modules/demos.py:291-300 | row k of the two texture expansions: same u, v mirrored |
| Demos.CompanionTexSlot | modules/demos.py:291-300 | row 3t + j of the companion texture expansion is the texture corner of slot j of triangle t |
| Demos.CompanionCube.Update | modules/demos.py:261-267 | the matrix is multiplied on the right by one rotation of 0.02 about y; the matrix, the camera's view and the camera's position are then written, so the uniforms are current |
| Demos.SpinningCube.Update | modules/demos.py:75-80 | TestCube/SkeletonCube `update` always raises ValueError in the `rotate` wrapper before anything changes |
| GlMath.Rotate | modules/glmath.py:69-75 | with a matrix as extra argument it rotates that matrix; any other extra argument raises; without one it builds a rotation |
| Teapot.Decrement | beta/teapot.py:53 | each index lowered by one, length kept |
| Teapot.VerticesFromSurfaceOneBased | beta/teapot.py:52-56 | the 1-based comprehension `vertices[indice-1]`; when no index raises it has one row per index of every patch |
| Teapot.DecrementAll | beta/teapot.py:53-55 | every patch lowered by one, patch count kept |
| Teapot.DecrementAppend | beta/teapot.py:53 | lowering commutes with concatenation |
| Teapot.FlattenDecrement | beta/teapot.py:53-55 | flattening the lowered table equals lowering the flattened one |
| Teapot.OneBasedIsShifted | beta/teapot.py:52-56 | the 1-based expansion equals the 0-based one over the table with every index lowered by one |
| Teapot.OneBasedAt | beta/teapot.py:52-56 | one row per index, patches in order; an index i in 1..len gives `vertices[i - 1]`, and index 0 silently gives the last vertex |
| Teapot.OneBasedDefined | beta/teapot.py:52-56 | the expansion succeeds exactly when every index lies in 1 - len .. len |
| Teapot.Teapot.constructor | beta/teapot.py:17-21 | the start rotation is stored, and the projection, view and model matrices are written |
| Teapot.Teapot.Update | beta/teapot.py:28-30 | the matrix is right-multiplied by one rotation and written; the uniform equals the stored matrix |
| Model.PresetDefined | modules/model.py:87-241 | a name selects a preset exactly when it is one of the 30 names of the chain |
| Model.PresetBounds | modules/model.py:89-241 | every preset's shininess is in [9.84615, 113.664] and every reflectance component in [0, 1] |
| Model.ApplyPresetEffect | modules/model.py:87-241 | a known name sets all four fields to its row (`'gold'` to 51.2 and its three triples, modules/model.py:125-129); an unknown name changes nothing |
| Model.ApplyPreset | modules/model.py:87-241 | a name the chain knows assigns all four fields, the shininess to that row's; any other name leaves the fields as they were |
| Model.PresetChoice | modules/model.py:38-41 | the preset used is the given name when it is a non-empty string, and `'basic'` when the name is None or empty |
| Model.Construct | modules/model.py:31-49 | each truthy argument overrides the preset (a brightness of 0 does not); with no name or an empty one, all four fields are assigned |
| Model.ConstructDefault | modules/model.py:87-93 | `Material()` has shininess 42.0 and reflectances (1, 1, 1) |
| Model.ConstructUnknownName | modules/model.py:38-49 | an unknown name with no overrides leaves every field unassigned |
| Model.ConstructOverrides | modules/model.py:38-49 | each field is the argument when truthy, else the preset's value; brightness 0 counts as absent and an empty name as no name |
| Model.Material.constructor | modules/model.py:31-49 | the fields are those of Construct for the given arguments |
| Model.Material.SetDefaultMaterial | modules/model.py:87-241 | the fields become ApplyPreset of the old fields |
| Model.Material.SetBrightness | modules/model.py:67-69 | only the brightness changes, to the value given |
| Model.Material.SetAmbient | modules/model.py:71-73 | only the ambient reflectance changes |
| Model.Material.SetDiffuse | modules/model.py:75-77 | only the diffuse reflectance changes |
| Model.Material.SetSpecular | modules/model.py:79-81 | only the specular reflectance changes |
| Model.ComposedAppend | modules/model.py:334-335 | one more transform right-multiplies the composed matrix |
| Model.Model.constructor | modules/model.py:245-255 | the matrix is the identity translated by the position; default material, no texture, no vertex array, no transforms |
| Model.Model.Transform | modules/model.py:334-335 | the matrix is right-multiplied by t and stays the composition of all transforms so far |
| Model.Model.SetMaterial | modules/model.py:280-281 | the material becomes the one given |
| Model.Model.SetTexture | modules/model.py:283-284 | the texture becomes the one given |
| Model.Model.SetVao | modules/model.py:289-291 | the model's vertex array becomes one with the given format and attribute names |
| Model.KindVertexData | modules/model.py:352-354 | every row of a subclass's mesh has that subclass's stride |
| Model.KindLayoutFits | modules/model.py:346-475 | every subclass's layout fits its rows (the wire cube's as corrected; see Findings) |
| Model.KindParsed | modules/model.py:357-358 | each subclass's format parses with one attribute per name and the stride of its rows |
| Model.ColoredCubeLayout | modules/model.py:451-458 | the solid cube rows fit `'3f 3f'` with `in_color`, `in_position` |
| Model.WireCubeLayout | modules/model.py:468-475 | the wire cube rows fit `'3f'` with one attribute (the corrected layout) |
| Model.TexturedLayout | modules/model.py:352-359 | the textured cube rows fit `'2f 3f 3f'` with three names |
| Model.KindMaterial | modules/model.py:402 | a subclass with a preset (`'chrome'`, `'polished_gold'`, modules/model.py:423) ends up with exactly that preset's four values (shininess 84.48 and 83.2); every other subclass keeps `Material()`'s shininess 42 and reflectances (1, 1, 1) |
| Model.WireCubeLayoutAsWritten | modules/model.py:473-474 | the declared `'3f 3f'` asks for 6 floats per vertex while the mesh rows hold 3: it does not fit |
| Camera.Camera.constructor | modules/camera.py:8-16 | identity view and projection, eye at the origin, no calls |
| Camera.Camera.Move | modules/core.py:137 | records one move with its direction and dt |
| Camera.Camera.Rotate | modules/core.py:232 | records one rotate with its four arguments |
| Camera.Camera.ResetCamera | modules/core.py:173 | records one reset |
| Camera.Camera.LookAtScene | modules/core.py:178 | records one look-at |
| Scene.Models | modules/scene.py:13 | the models of the entries, position by position |
| Scene.FirstPair | modules/scene.py:31-32 | the entries before it are models and the entry there, if any, is a tuple |
| Scene.FirstUntextured | modules/scene.py:69-71 | where `destroy` raises: the entries before it are models with a texture; the entry there, if any, is a tuple or has no texture |
| Scene.FirstBroken | modules/scene.py:63-67 | where `render` raises: the entries before it are models with a texture and a vertex array; the entry there, if any, is a tuple or lacks one of the two |
| Scene.BrokenBeforeUntextured | modules/model.py:337-343 | `render` stops no later in the list than `destroy`, since every model `render` draws also has the texture `destroy` needs |
| Scene.Released | modules/scene.py:69-71 | destroy releases at most all entries |
| Scene.FirstPairAppend | modules/scene.py:31-32 | appending a tuple does not move the first tuple |
| Scene.SyncedHolds | modules/scene.py:55-58 | after both uploads the program holds the model and view matrices as written buffers; every other uniform is unchanged |
| Scene.SyncedIdempotent | modules/scene.py:45-58 | uploading again with the same camera and matrix changes nothing |
| Scene.Visits | modules/scene.py:97-98 | the number of turns a pass over the first n entries gives a model is at most n |
| Scene.EyeOf | modules/scene.py:101 | the camera position goes to a model exactly when it is the first entry's |
| Scene.SpunDraws | modules/scene.py:97-102 | one draw per pass |
| Scene.SpunState | modules/scene.py:95-102 | the matrices and uniform tables after some passes: the same models as at the start, and a model no pass turned keeps its matrix |
| Scene.SpunDraw | modules/scene.py:102 | draw j is of entry j's model |
| Scene.SpunDrawIs | modules/scene.py:97-102 | draw j records the uniforms entry j's program holds once pass j is over |
| Scene.SpunDrawsAt | modules/scene.py:97-102 | draw j is of entry j's model, with the uniforms left once j + 1 passes are over |
| Scene.VisitsCount | modules/scene.py:97-98 | a model is turned once per occurrence among the first n entries |
| Scene.CubeSyncedHolds | modules/scene.py:99-101 | one pass leaves the model and view matrices written, the eye position assigned where given, and the rest unchanged |
| Scene.SpunStateHolds | modules/scene.py:95-102 | after n passes a model is turned once for each of its occurrences, and its program holds what one pass stores |
| Scene.SpunStart | modules/scene.py:95-97 | before the first pass nothing has changed |
| Scene.SpunTurn | modules/scene.py:98 | the turn of pass i adds one visit of entry i's model |
| Scene.SpunStore | modules/scene.py:99-101 | pass i's uploads take every program from what pass i - 1 left to what pass i leaves |
| Scene.SpunStoreAt | modules/scene.py:99-101 | the same, model by model |
| Scene.CubeSyncedAgain | modules/scene.py:99-101 | a later pass overwrites everything an earlier one stored |
| Scene.Scene.constructor | modules/scene.py:8-13 | the engine's camera and an empty list |
| Scene.Scene.SetModels | modules/scene.py:28-29 | the list becomes the given models, with no tuple |
| Scene.Scene.AddModel | modules/scene.py:31-32 | exactly one `(model, shader_name)` tuple is appended at the end; earlier entries are kept |
| Scene.Scene.LoadUniform | modules/scene.py:34-39 | succeeds exactly when the Python index selects a model; its program then holds the value by assignment (`.write` is unreachable), and nothing else changes |
| Scene.Scene.LoadProjectionMatrix | modules/scene.py:45-48 | every model before the first tuple holds the camera's projection; it fails exactly when a tuple exists |
| Scene.Scene.LoadViewMatrix | modules/scene.py:50-53 | every model before the first tuple holds the same camera view matrix |
| Scene.Scene.LoadModelMatrix | modules/scene.py:55-58 | every model before the first tuple holds its own matrix |
| Scene.Scene.Upload | modules/scene.py:65-66 | both uploads of a pass; all programs are synced, or only the model matrices written up to the first tuple |
| Scene.Scene.Render | modules/scene.py:63-67 | succeeds exactly when no entry is broken (a tuple, or a model without a texture or a vertex array); every model is drawn once, in list order, with current model and view uniforms; a tuple stops it at the first upload |
| Scene.Scene.Reupload | modules/scene.py:65-66 | re-uploading to synced programs changes nothing |
| Scene.Scene.DrawAll | modules/scene.py:64-67 | the draws are the entries' models in order, up to the first broken one |
| Scene.Scene.CompanionCubeRender | modules/scene.py:95-102 | each pass turns its entry's model once, uploads, stores the eye in model 0 only, and draws; a tuple stops it in the first pass |
| Scene.Scene.Turn | modules/scene.py:98 | pass i's turn, as a step of SpunState |
| Scene.Scene.TurnOne | modules/scene.py:98 | only entry i's model is turned |
| Scene.Scene.Store | modules/scene.py:99-101 | pass i's uploads, as a step of SpunState |
| Scene.Scene.UploadAll | modules/scene.py:99-100 | every program holds its model's matrix and the view |
| Scene.Scene.StoreEye | modules/scene.py:101 | only the first model's program gets the camera position |
| Scene.Scene.SpinPass | modules/scene.py:98-102 | one pass, and the draw it makes |
| Scene.Scene.Step | modules/scene.py:98-101 | the turn and the uploads of pass i take every model from its state after i passes to its state after i + 1 |
| Scene.Scene.SpinAll | modules/scene.py:97-102 | all passes up to the first broken model, with their draws in order |
| Scene.Scene.SpinLoop | modules/scene.py:97-102 | the loop's state and draws are SpunState and SpunDraws |
| Scene.Scene.Destroy | modules/scene.py:69-71 | releases the models in list order, stopping at a tuple or after a model without a texture; succeeds exactly when neither occurs |
| Core.PressHolds | modules/core.py:186-205 | pressing a movement key marks it held and changes nothing else |
| Core.ReleaseClears | modules/core.py:209-228 | releasing a movement key marks it not held and changes nothing else |
| Core.OnPress | modules/core.py:157-205 | J, K and M each flip exactly their own flag; K also sets the wireframe flag to the new wire mode; only a movement key changes the held keys |
| Core.OnRelease | modules/core.py:207-228 | a released movement key is no longer held, nothing else changes, and any other key changes nothing |
| Core.OtherKeysKeepHeld | modules/core.py:157-228 | no other key changes the held-key map |
| Core.ToggleTwice | modules/core.py:160-161 | J (and M, modules/core.py:180-181) flips its flag only; pressing it twice restores the controls |
| Core.WireToggle | modules/core.py:165-167 | K flips wire mode and sets the wireframe flag to its new value; twice restores wire mode |
| Core.PressCallsOnly | modules/core.py:172-178 | only R and L reach the camera, one call each |
| Core.MovesPrefix | modules/core.py:135-155 | the moves of earlier keys come first |
| Core.MovesShape | modules/core.py:135-155 | every move has the tick's dt and is the move of a held key among the first n tested; each such key's move occurs exactly once and no other key's move occurs |
| Core.MovesCount | modules/core.py:135-155 | key j's move occurs once among the moves of the first n keys when j < n and the key is held, and not at all otherwise |
| Core.MovesFrom | modules/core.py:135-155 | every move issued among the first n keys is the move, with the tick's dt, of one of those keys that is held |
| Core.MovesNone | modules/core.py:135-155 | nothing held among the keys tested: no move |
| Core.MovesHeld | modules/core.py:135-155 | key j's move is issued exactly when it is among the keys tested and held |
| Core.DirectionsDistinct | modules/core.py:137-155 | the ten directions differ |
| Core.MoveKeysListed | modules/core.py:136-154 | the tested keys are exactly the movement keys |
| Core.MovesIffHeld | modules/core.py:135-155 | a movement key's move is issued exactly when it is held, and then exactly once; all moves have dt; at most ten |
| Core.MovesOf | modules/core.py:135-155 | at most ten moves; each movement key's move occurs once when the key is held and not at all otherwise |
| Core.NothingHeldNoMoves | modules/core.py:60 | with no key held, as before any key event, no move is issued |
| Core.SumAppend | modules/core.py:111-112 | one more tick adds its length |
| Core.SumConcat | modules/core.py:111-112 | the sum of a concatenation is the sum of the parts |
| Core.RenderedPasses | modules/core.py:127-128 | n successful render events, in order |
| Core.DestroyedPasses | modules/core.py:235-236 | n successful destroy events, in order |
| Core.Engine.constructor | modules/core.py:42-80 | the flags as given, time 0, no held key, the capabilities the cull-face flag selects, a gold clear, a fresh camera, no scenes |
| Core.Engine.SetScenes | modules/core.py:120-121 | the scene list becomes the given one |
| Core.Engine.UpdateTime | modules/core.py:111-112 | the time grows by dt and stays the sum of all ticks |
| Core.Engine.OnKeyPress | modules/core.py:157-205 | the controls become OnPress of the old ones, and the camera receives exactly PressCalls |
| Core.Engine.OnKeyRelease | modules/core.py:207-228 | the controls become OnRelease of the old ones |
| Core.Engine.HandleKeyPressed | modules/core.py:135-155 | the camera receives exactly MovesOf: one move per held key, in order |
| Core.Engine.MoveWhenHeld | modules/core.py:136-137 | one `if`: extends the moves by this key's step |
| Core.Engine.OnMouseMotion | modules/core.py:230-232 | the camera rotates exactly when mouse controls are on |
| Core.FirstFailingMeans | modules/core.py:127-128 | the scenes before FirstFailing all render without raising, and the scene at FirstFailing, if any, raises |
| Core.FirstFailing | modules/core.py:127-128 | the index of the first scene whose render raises, or the number of scenes when none does |
| Core.Engine.Render | modules/core.py:123-130 | succeeds exactly when every scene renders; then clear, every scene rendered in list order, and flip; otherwise the frame stops at the first scene that raises, with no flip |
| Core.Engine.RenderScene | modules/core.py:128 | dispatches to `render` by scene class; succeeds exactly when no entry of that scene is broken |
| Core.FirstLeakingMeans | modules/core.py:235-236 | the scenes before FirstLeaking are all destroyed without raising, and the scene at FirstLeaking, if any, raises |
| Core.FirstLeaking | modules/core.py:235-236 | the index of the first scene whose destroy raises, or the number of scenes when none does |
| Core.Engine.DestroyScene | modules/core.py:236 | succeeds exactly when the scene's `destroy` does not raise |
| Core.Engine.OnClose | modules/core.py:234-236 | succeeds exactly when every scene is destroyed without raising; the scenes are destroyed in list order up to and including the first that raises |

## Left out

- Window, clock, GUI and printing. The pyglet window, `schedule`, `run`, `DebugWindow` (dearpygui), `win_size`, `fps` and every `print` are I/O and event delivery. The clock's ticks are parameters of UpdateTime and HandleKeyPressed.
- Camera maths. modules/camera.py and modules/glmath.py are PyGLM floating-point routines (`perspective`, `lookAt`, `normalize`, `euler_to_3Dvector`), so matrices are symbolic terms.
- The camera's `move`, `rotate`, `reset_camera`, `look_at_scene`, `position` and `_default_position` (read at modules/core.py:174 when R is pressed in debug mode, only to print it). They are used but defined nowhere, so the camera records its calls.
- Core.Engine.constructor: modules/core.py:78 passes the engine where modules/camera.py:8 expects a window size. Indexing it would raise, so the model builds the camera without it.
- Core.Engine.constructor: moderngl's initial `wireframe` is taken to be false.
- Core.Engine.constructor: the initial junk `keys_state` entry, keyed by the key module, is an empty map. No key symbol ever matches it.
- Core.Engine.Render: states which scene stops the frame and the events it leaves. The scenes' new state is stated by Scene.Scene.Render and Scene.Scene.CompanionCubeRender, which RenderScene calls. The engine contract does not restate it per scene.
- Core.Engine.OnClose: states which scene stops the walk and the events it leaves. The released models are stated by Scene.Scene.Destroy.
- GPU objects. modules/light.py, modules/texture.py, `Texture`, shader source reading, buffers, the GPU side of vertex arrays, draw calls and `release` are foreign calls. A vertex array is recorded as its format and attribute names, a draw as the model with its uniform table, and a release as the model.
- Surfaces.VerticesFromSurfaceAt: the rows are generic values. `np.array(data, dtype='f4')` (modules/mesh.py:17) raises ValueError on rows of unequal length or non-numeric entries, and that error is not modelled. Every table the engine passes has rows of one width.
- Surfaces.VerticesFromSurfaceSome: the same `np.array` ValueError on ragged or non-numeric rows is not modelled.
- Scene.Scene.LoadUniform: a uniform table accepts every name. moderngl raises KeyError for a name the program does not declare, and that error is not modelled.
- Scene.Scene.SetModels: stores a copy of the given models. `set_models` (modules/scene.py:29) keeps the caller's list itself, so a later `add_model` also shows in the caller's list. That aliasing is not modelled.
- Core.Engine.SetScenes: stores a copy of the given scenes. `set_scenes` (modules/core.py:120-121) keeps the caller's list itself, so later changes to that list would show in the engine. That aliasing is not modelled.
- The import of `CompanionCube` from modules.model (modules/scene.py:3) fails, because modules/model.py does not define it. So neither modules/scene.py nor modules/core.py (modules/core.py:11) can be imported as written. The model assumes the import resolves.
- `CompanionCubeScene.__init__`: it builds a `CompanionCube` that modules/model.py does not define (modules/scene.py:3, 78), so it cannot run.
- `Scene.load_textures`: calls `use_textures`, which models do not define.
- main.py: uses `scene.TestCube`, which does not exist.
- The demo constructors. modules/demos.py:121 calls `identity_matrix` with an argument it does not take, so construction raises. Only `get_vertex_data` and `update` are modelled.
- Teapot.Teapot.constructor: the `patch_vertices` and `wireframe` settings on the GL context are not modelled.
- beta/teapot_data.py is not part of this model. The teapot expansion is stated for any vertex and patch tables.
- float32 rounding: vertex data and material constants are exact reals.

## Findings

| source | as written | input that shows it | evidently intended | confidence | as-written member | corrected member |
|---|---|---|---|---|---|---|
| modules/model.py:473-474 | WireCubeModel declares `'3f 3f'` with `in_color`, `in_position`: 6 floats per vertex | WireCubeMesh rows (modules/mesh.py:103) hold 3 floats, so the 30 rows do not fit | `'3f'` with one position attribute, as SkeletonCube declares (modules/demos.py:203) | not executed | Model.WireCubeLayoutAsWritten | Model.WireCubeLayout |
