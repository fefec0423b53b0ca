# accessible-webgl-demos, modelled in Dafny

This project models the core of the accessible WebGL demos: a React site whose
canvases render shaders, OBJ meshes and texture carousels, and whose controls
adapt to reduced motion, scrolling and colour contrast. The modelled parts are:

- the mesh-loading worker (`lib/gl/loadOBJWorker.ts`). It parses OBJ files into
  de-duplicated vertex and index buffers with material slots, flat normals and
  a bounding box. It parses MTL files into a material table and joins the two;
- the vector maths (`lib/gl/math.ts`) and the vertex-buffer set-up
  (`lib/gl/buffers.ts`);
- renderer set-up (`lib/gl/initialize.ts`). This covers shader compilation and
  linking, uniform locations, the per-frame upload of uniform settings and the
  choice of mesh buffers;
- the hooks: live shader editing (`src/hooks/updateShaders.ts`), building and
  tearing down a renderer (`src/hooks/gl.ts`), the render loop with idle and
  scroll pausing (`src/hooks/animation.ts`), `throttle`
  (`src/hooks/helpers.ts`) and `escapeXhtml` (`src/hooks/rasterize.ts`);
- texture loading and sampler binding (`lib/gl/textureLoader.ts`);
- the rotation of the interactive model (`lib/gl/interaction.ts`) and the slide
  transition of the carousel (`src/utils/transition.ts`);
- the uniform panel (`src/components/Inputs/Inputs.tsx`), the contrast form's
  uniform update (`AccessibleContrast.tsx`), the display helpers
  (`src/utils/general.ts`), colour parsing and luminance
  (`src/utils/color.ts`), and the contrast search of `ColorRatioCalc.tsx`, which
  applies the WCAG ratio formula to a weighted channel sum and which no page
  mounts.

How the model is built:

- A WebGL context is the class `WebGL.GL`. Its whole state is one datatype
  field: object handles, shader sources and compile results, attachments and
  link results, bindings, uploaded buffers and the log of uniform calls.
  Whether a source compiles and whether two sources link are oracles fixed
  when the context is made.
- React refs are objects of the class `Refs.Ref`. Uniform settings are objects
  whose `value` is overwritten in place, as in the demos.
- Imperative code is modelled as methods with loop invariants. Each method is
  proved against a specification function, and lemmas state what the source
  promises about that function.
- JavaScript numbers are exact reals. Where the source depends on IEEE special
  values (NaN from `parseFloat` or from reading past the end of an array, and
  the infinities that seed a min/max scan), they are `JsNumber.Number`.
- `undefined` and JavaScript's untyped values are `Wrappers.Option` and
  `JsValue.Value`. A `TypeError` the source would throw is an `Err` result.
- `Math.sqrt`, `Math.sin`, `parseFloat`, number-to-string, `RGBToHSL` and
  `HSLToRGB` are function parameters.
- Image loading is a function from URL to image. A pending
  `requestAnimationFrame` or timeout is a flag. The clock is a parameter.

## Model

| member | source | states |
|---|---|---|
| GlMath.DegreesToRadians | lib/gl/math.ts:3 | 0° is 0 and ±180° is ±π |
| GlMath.Clamp | lib/gl/math.ts:5 | `min(max(v, lo), hi)`: the result lies in [lo, hi] when lo ≤ hi, values inside are kept, and hi wins when lo > hi |
| GlMath.Interpolate | lib/gl/math.ts:7 | t = 0 gives v0, t = 1 gives v1, equal ends give that end |
| GlMath.InterpolateBetween | lib/gl/math.ts:7 | for t in [0, 1] the result lies between the two ends |
| GlMath.InterpolateVectors | lib/gl/math.ts:9-13 | amount 0 gives the source vector, amount 1 the target |
| GlMath.SubtractUndoesAdd | lib/gl/math.ts:15-25 | subtracting undoes adding, in both orders |
| GlMath.CrossProperties | lib/gl/math.ts:33-37 | the cross product is anti-commutative, zero on equal vectors, and orthogonal to both inputs |
| GlMath.NormalizeVector | lib/gl/math.ts:39-43 | a vector of magnitude 0 is returned unchanged |
| GlMath.NormalizeIsUnit | lib/gl/math.ts:39-45 | when the square root is exact and positive, the normalized vector has length 1 |
| GlMath.ComputeFaceNormal | lib/gl/math.ts:47-58 | a normal exists iff the face has at least three corners (destructuring fewer gives `undefined` and a TypeError) |
| GlMath.FaceNormalsDefined | lib/gl/math.ts:60-65 | the normals exist iff every face has three corners, and then there are 9 numbers per face |
| GlMath.FaceNormalAt | lib/gl/math.ts:60-65 | block i of the result is face i's normal repeated for its three corners |
| GlMath.ComputeBarycentricCoords | lib/gl/math.ts:67-77 | the loop yields nothing for numFaces ≤ 0 and otherwise the closed-form sequence `Barycentric(numFaces)` |
| GlMath.BarycentricBlockAt | lib/gl/math.ts:69-75 | block i of the coordinates is the even or odd block by the parity of i |
| GlMath.BarycentricOneHot | lib/gl/math.ts:70-74 | every corner of every face gets a one-hot weight and the three corners of a face get three different ones |
| Buffers.NumItems | lib/gl/buffers.ts:105 | `numItems` is the data length over the item size, a fraction when it does not divide |
| Buffers.UploadOf | lib/gl/buffers.ts:102-104 | an array buffer uploads a Float32Array of the data, any other target a Uint16Array whose entries are reduced modulo 2^16 |
| Buffers.IndicesSurviveNarrowing | lib/gl/buffers.ts:102-104 | whole indices in [0, 65536) reach the index buffer unchanged |
| Buffers.BuildBuffer | lib/gl/buffers.ts:100-112 | one new buffer, bound to the target and holding the data's upload; the record carries the data, item size and item count |
| Buffers.InitAttributeBuffer | lib/gl/buffers.ts:12-62 | the shared shape of the four attribute initialisers: a new buffer that uploads the data and feeds the named attribute with the given size |
| Buffers.RoundThird | lib/gl/buffers.ts:96 | `Math.round(n / 3)` is within a third of n / 3 |
| Buffers.InitBarycentricBuffer | lib/gl/buffers.ts:64-78 | without barycentric coordinates nothing is created and the GL state is untouched; with them a buffer of `computeBarycentricCoords(numFaces)` feeds `aBarycentric` |
| Buffers.InitBuffers | lib/gl/buffers.ts:80-98 | buffers are created in the source's order (index, normal, texture address, texture, vertex, barycentric); each uploads its mesh array, feeds its attribute with its item size, and the index buffer stays bound |
| Buffers.CoordinatesAt | lib/gl/buffers.ts:116 | flattening vertices lays out x, y, z of vertex i at 3i |
| Buffers.FacePositions | lib/gl/buffers.ts:115-116 | corner j of triangle i lands at position 9i + 3j of the flattened positions |
| Buffers.InitMeshBuffersFromFaceArray | lib/gl/buffers.ts:114-126 | succeeds iff every face has three corners (otherwise the normal computation throws after the vertex buffer was made); no index or texture buffers; the vertex buffer holds the flattened positions and the normal buffer the face normals |
| Buffers.InitBaseMeshBuffers | lib/gl/buffers.ts:129-140 | one buffer of the base quad with 4 items of size 3 that feeds `aBaseVertexPosition` |
| ObjLoader.GetVertexCount | lib/gl/loadOBJWorker.ts:206-209 | with no "f " in the source `match` returns null and reading its length throws; otherwise the count is half the number of "f " occurrences, rounded down |
| ObjLoader.ParseAll | lib/gl/loadOBJWorker.ts:66-69 | `elements.map(parseFloat)` yields one number per element |
| ObjLoader.TextureCoordinate | lib/gl/loadOBJWorker.ts:120-124 | each new vertex gets exactly two texture numbers, u and 1 - v |
| ObjLoader.DedupMember | lib/gl/loadOBJWorker.ts:113-141 | the vertices created are exactly the distinct face tokens |
| ObjLoader.DedupUpToDistinct | lib/gl/loadOBJWorker.ts:113-141 | no face token creates two vertices |
| ObjLoader.WriteNormalEffect | lib/gl/loadOBJWorker.ts:223-231 | writing a normal at i sets those three slots, grows the array as a JavaScript assignment past the end does, and leaves every other slot |
| ObjLoader.FaceNormalShared | lib/gl/loadOBJWorker.ts:221-231 | when the three corners' slots do not overlap, all three carry the face normal |
| ObjLoader.DedupPush | lib/gl/loadOBJWorker.ts:113-141 | a repeated token adds no vertex, a new token adds one at the end |
| ObjLoader.TableIsDedup | lib/gl/loadOBJWorker.ts:113-140 | the `hashIndices` table invariant implies the vertices are the distinct tokens in first-seen order |
| ObjLoader.PopulateNormals | lib/gl/loadOBJWorker.ts:211-233 | records corner a, b or c of the last face with the current position count, and on corner c writes the face normal into all three corners' slots |
| ObjLoader.VisitVertex | lib/gl/loadOBJWorker.ts:101-141 | a known token only pushes its index; a new token pushes position, texture and material slot, takes the next index and records it in `hashIndices`; the earlier vertices keep what they hold; the branch copying file normals is unreachable because `normals` never grows |
| ObjLoader.PushExisting | lib/gl/loadOBJWorker.ts:143-145 | the quad's closing corner pushes the index of the face's first token |
| ObjLoader.EmittedDone | lib/gl/loadOBJWorker.ts:90-146 | the corner loop visits tokens 0, 1, 2 and then, for a quad, 2 again, 3, the first token, and any later ones |
| ObjLoader.ProcessFaceLine | lib/gl/loadOBJWorker.ts:79-147 | a face line appends its emission sequence to the token stream and keeps the vertex table valid; earlier vertices keep what they hold, and each new vertex holds the position its token's `p` selects from the raw `v` values, the texture coordinate its `t` selects from the raw `vt` values with v flipped to 1 - v, and the current material slot |
| ObjLoader.MinOfIsLeast | lib/gl/loadOBJWorker.ts:165-185 | the running minimum is +Infinity or an element, and no element is below it (NaN compares false) |
| ObjLoader.MaxOfIsGreatest | lib/gl/loadOBJWorker.ts:169-185 | the running maximum is -Infinity or an element, and no element is above it |
| ObjLoader.CoordsAt | lib/gl/loadOBJWorker.ts:173-177 | the loop reads x, y, z of vertex n at 3n, 3n + 1, 3n + 2, with `undefined` (NaN in comparisons) past the end |
| ObjLoader.ComputeBoundingBox | lib/gl/loadOBJWorker.ts:164-202 | the loop's result is the closed-form bounding box: per axis the least and greatest coordinate, and as size the corrected extent max - min rather than `computeWidth` as written (see Findings) |
| ObjLoader.ExtentWidth | lib/gl/loadOBJWorker.ts:187-191 | the intended width: non-negative and spanning min to max |
| ObjLoader.ComputeWidthVersusExtent | lib/gl/loadOBJWorker.ts:204 | `Math.abs(min) + max` is the extent only when min ≤ 0 and overshoots by 2·min otherwise |
| ObjLoader.ComputeWidthCounterexample | lib/gl/loadOBJWorker.ts:204 | min 1 and max 3 give width 4 instead of 2 |
| ObjLoader.ParseLine | lib/gl/loadOBJWorker.ts:60-148 | one pass of the line loop keeps the parse invariant: the raw `v` and `vt` values of the lines so far, the token stream, each vertex's contents as read when its token was first pushed, the `usemtl` count and the ordered material slots |
| ObjLoader.FirstLineIsFirst | lib/gl/loadOBJWorker.ts:113-141 | the line a vertex is read at is a face line that pushes its token, and no earlier line pushes it |
| ObjLoader.VerticesReadSnoc | lib/gl/loadOBJWorker.ts:60-148 | after one more line, the vertices already made keep their contents, and the ones the line adds are read with the `v`, `vt` and `usemtl` lines before it |
| ObjLoader.LoadObjData | lib/gl/loadOBJWorker.ts:34-162 | the vertex-count error propagates; more than 70000 gives `undefined`; otherwise the geometry has one vertex per distinct face token in first-seen order, one index per emitted token naming its vertex, material slots in file order, and the bounding box of its positions; vertex k holds the position, the flipped texture coordinate and the material slot (`usemtl` count minus one, at least 0) that its token refers to in the lines before the face line that first pushes it |
| MtlLoader.MtlErrorStops | lib/gl/loadOBJWorker.ts:291-357 | once a line throws, the later lines change nothing: the loop's outcome is that error |
| MtlLoader.LoadMtlData | lib/gl/loadOBJWorker.ts:282-360 | the loop over the lines computes the fold `MtlLines` of the per-line step over the source split on newlines |
| MtlLoader.MtlLineNames | lib/gl/loadOBJWorker.ts:293-305 | one line throws iff it sets a property before any `newmtl`; otherwise a `newmtl` appends a material named by its first element and any other line keeps the list of names |
| MtlLoader.MtlLinesDeclared | lib/gl/loadOBJWorker.ts:298-305 | on success the materials are the `newmtl` declarations, in file order |
| MtlLoader.MtlLinesFail | lib/gl/loadOBJWorker.ts:293-310 | the whole file fails iff some property line comes before the first `newmtl` (writing a property of `materials[undefined]` throws) |
| MtlLoader.IgnoredLine | lib/gl/loadOBJWorker.ts:293-354 | empty lines, comments and unknown keys leave the materials unchanged |
| MtlLoader.PropertyTouchesLatest | lib/gl/loadOBJWorker.ts:306-355 | a property line changes only the most recently declared material |
| MtlLoader.OpacityKeys | lib/gl/loadOBJWorker.ts:347-352 | `d` sets opacity to the parsed value, `tr` to one minus it (NaN stays NaN) |
| MtlLoader.DiffuseMapByName | lib/gl/loadOBJWorker.ts:324-326 | `map_kd` ignores its argument and takes the diffuse texture registered under the material's name |
| MtlLoader.LoadMeshData | lib/gl/loadOBJWorker.ts:28-32 | the OBJ error comes first, then an MTL error; an OBJ over the vertex limit makes `Object.assign(undefined, …)` throw; otherwise the geometry unpacks the OBJ and materials are present iff the MTL string is non-empty |
| Initialize.CreateUniformLocations | lib/gl/initialize.ts:69-81 | the location record has exactly the setting keys, the ten fixed matrix/displacement/outline/diffuse names, and `frameBufferTexture0` when ping-pong buffers are used; each entry is the program's location for its own key |
| Initialize.AddLocations | lib/gl/initialize.ts:107-117 | the `reduce` adds every setting key with its location and keeps the entries it started from for other keys |
| Initialize.NameVersusKey | lib/gl/initialize.ts:198 | a setting looks its location up by its `name`, not its key: a matching name finds the key's location, a name that is no key (and not reserved) finds none |
| Initialize.ObjectValues | lib/gl/initialize.ts:205-213 | `Object.values` throws exactly on `undefined` and lists an object's property values in order |
| Initialize.Characters | lib/gl/initialize.ts:207 | `Object.values` of a string gives one one-character string per character |
| Initialize.AssignSpec | lib/gl/initialize.ts:190-219 | the outcome of visiting the settings in key order holds one value per setting |
| Initialize.AssignValueAt | lib/gl/initialize.ts:191-218 | setting i ends with the value its own step gives, or unchanged when an earlier setting threw |
| Initialize.AssignErrorSticky | lib/gl/initialize.ts:191-218 | once a setting has thrown, the whole `forEach` ends with an exception |
| Initialize.AssignFails | lib/gl/initialize.ts:191-218 | `assignUniforms` throws if and only if some setting's step throws |
| Initialize.AssignOverrides | lib/gl/initialize.ts:195-206 | after a run without exception a FLOAT_1 `uTime` holds the time and a VEC_2 `uMouse` the mouse position as [x, y]; every other setting keeps its value |
| Initialize.AssignAfterError | lib/gl/initialize.ts:191-218 | after the first exception no further uniform call is made and no later value changes |
| Initialize.WithCalls | lib/gl/initialize.ts:198-213 | issuing uniform calls appends them to the call log and touches no GL object |
| Initialize.AssignOne | lib/gl/initialize.ts:192-216 | handling one setting writes the value, issues the calls and raises the exception its step prescribes, in place |
| Initialize.UploadVector | lib/gl/initialize.ts:207-213 | a vector upload issues one `uniform*fv` call with `Object.values` of the value, or throws on `undefined` without a call |
| Initialize.AssignUniforms | lib/gl/initialize.ts:190-219 | the settings' values and the GL call log end as the key-order specification says, and the result is an error exactly when it reports one |
| Initialize.AssignSettings | lib/gl/initialize.ts:191-218 | the loop over the setting objects reaches the key-order specification's values, calls and exception |
| Initialize.ShaderCompiled | lib/gl/initialize.ts:149-151 | creating, sourcing and compiling a shader allocates one handle of the stage's kind holding the source; it compiles exactly when the driver accepts that source |
| Initialize.ShaderLoaded | lib/gl/initialize.ts:148-160 | `loadShader` keeps the GL state valid (a failed shader is deleted) |
| Initialize.LoadShader | lib/gl/initialize.ts:148-160 | returns the new shader exactly when it compiles; otherwise deletes it and throws "An error occurred compiling the shaders: " plus the info log |
| Initialize.InitShaderProgram | lib/gl/initialize.ts:83-95 | succeeds exactly when both stages compile, the vertex error first; on success the program is the third handle allocated, holds both shaders, and the bound program is unchanged |
| Initialize.LinkShaders | lib/gl/initialize.ts:86-89 | the new program has the vertex and fragment shader attached and links exactly when both compiled and the driver links their sources; no other program's link status changes |
| Initialize.InitializeOutlineProgram | lib/gl/initialize.ts:97-105 | on success stores exactly the locations of `uSource`, `uOutline`, `uResolution` in the program; on failure leaves the ref alone |
| Initialize.ResolutionOf | lib/gl/initialize.ts:57 | reading `uniforms.uResolution.value` fails exactly when there is no `uResolution` setting |
| Initialize.InitPingPong | lib/gl/initialize.ts:56-60 | both frame buffer objects are created at the resolution's width and height, or the call throws on an `undefined` resolution and changes nothing |
| Initialize.InitializeRenderer | lib/gl/initialize.ts:36-67 | no canvas returns `undefined` and touches nothing; a shader that does not compile or a missing shaders ref throws; on success the main program is bound and returned |
| Initialize.FinishRenderer | lib/gl/initialize.ts:52-66 | after the program is bound, the locations, ping-pong buffers and outline program are set up as the renderer promises |
| Initialize.LocateUniforms | lib/gl/initialize.ts:52-60 | the locations belong to the program's keys; it throws exactly when ping-pong buffers are requested without a resolution value |
| Initialize.InitializeMesh | lib/gl/initialize.ts:119-146 | base triangles (and an unknown type) feed the fixed quad to `aBaseVertexPosition`; a missing face array returns untouched; a face array builds its buffers exactly when its normals are defined; an OBJ mesh builds the outline quad and the mesh buffers |
| Initialize.InitializeObjMesh | lib/gl/initialize.ts:134-142 | with an outline program the fixed quad is uploaded into the base vertex ref; the mesh buffers are built for the main program |
| Initialize.InitObjMeshBuffers | lib/gl/initialize.ts:139-141 | with a mesh, its positions are uploaded and feed `aVertexPosition` of the bound main program, with barycentric buffers; without one, the call throws |
| Initialize.InitOutlineQuad | lib/gl/initialize.ts:135-138 | the outline program's base buffer holds the fixed quad |
| UpdateShaders.WithShader | src/hooks/updateShaders.ts:30 | the record names the new shader for the edited stage and keeps the other stage's shader |
| UpdateShaders.SwapsAgreeOnSuccess | src/hooks/updateShaders.ts:25-33 | when the new source compiles, detaching before compiling and detaching after compiling leave the same GL state |
| UpdateShaders.DetachEmpties | src/hooks/updateShaders.ts:25 | detaching the recorded shader of a stage empties exactly that stage's slot of the program |
| UpdateShaders.RelinkAssembles | src/hooks/updateShaders.ts:30-33 | attaching the new shader and relinking assembles the program from the updated record, bound, and it links exactly when the two shaders' sources link |
| UpdateShaders.SwapSucceeds | src/hooks/updateShaders.ts:23-38 | an edit that compiles replaces the stage's shader by the newly allocated one, keeps the program assembled and bound, and links it exactly when the pair links |
| UpdateShaders.AsWrittenFailureDetaches | src/hooks/updateShaders.ts:25-28 | an edit that does not compile leaves the record naming the old shader while the program no longer has it attached |
| UpdateShaders.CheckedFailureKeepsProgram | src/hooks/updateShaders.ts:25-28 | compiling first, a failed edit leaves the program's attachments, its link status and the record as they were |
| UpdateShaders.CheckedKeepsAssembled | src/hooks/updateShaders.ts:23-38 | compiling first, the program stays assembled from its record after any edit |
| UpdateShaders.MissingStageNeverLinks | src/hooks/updateShaders.ts:41-51 | once the other stage's slot is empty, even an edit that compiles leaves the program unlinked |
| UpdateShaders.BrokenFragmentEditBreaksVertexEdit | src/hooks/updateShaders.ts:25-51 | after a fragment edit that does not compile, a correct vertex edit no longer links the program |
| UpdateShaders.CheckedVertexEditAfterBrokenFragment | src/hooks/updateShaders.ts:25-51 | compiling first, the same two edits end with a linked program |
| UpdateShaders.PingPongLocation | src/hooks/updateShaders.ts:21 | `frameBufferTexture0` gets a location exactly when both ping-pong buffers are given |
| UpdateShaders.TryLoadShader | src/hooks/updateShaders.ts:60-78 | the error setter is cleared, then given the compile error exactly when the shader does not compile; the shader is returned exactly when it compiles |
| UpdateShaders.LocateUniforms | src/hooks/updateShaders.ts:35 | the uniform locations are those `createUniformLocations` gives for the current settings |
| UpdateShaders.UpdateShader | src/hooks/updateShaders.ts:23-57 | without a context nothing changes; otherwise the GL state and record end as the detach-then-compile swap says, the locations are refreshed after a successful compile, and a failed one only reports its error |
| UpdateShaders.UpdateShaderChecked | src/hooks/updateShaders.ts:23-57 | the same effect with the compile before the detach, ending as the checked swap says |
| GlHook.TextureHandles | src/hooks/gl.ts:27 | `Object.values(loaded).map(({ texture }) => texture)`: one handle per loaded texture, in order |
| GlHook.ImageHandles | src/hooks/gl.ts:25-28 | the textures ref receives one texture per image that loaded, numbered consecutively from the first handle allocated |
| GlHook.InitializeMeshAndProgram | src/hooks/gl.ts:34-43 | after the mesh is built the context, program and outline program refs are set; if building the mesh throws, none of them is |
| GlHook.LoadDemoTextures | src/hooks/gl.ts:20-28 | without image textures or materials nothing is loaded; with images the load fails exactly when one image fails, and the textures ref receives the created textures in order; a materials-only load sets the ref to `undefined` |
| GlHook.LoadAndMesh | src/hooks/gl.ts:20-31 | textures are loaded before the mesh and the refs are set only when both succeed |
| GlHook.CreateRenderer | src/hooks/gl.ts:18 | destructuring the `undefined` that `initializeRenderer` returns for a null canvas throws; otherwise the main program is the third handle allocated, and an outline program exists exactly when outline locations are asked for; no ref is set yet |
| GlHook.InitializeRendered | src/hooks/gl.ts:18-31 | after the renderer, the refs are set to the new context and program exactly when everything succeeds, with the textures allocated after the program |
| GlHook.InitializeGL | src/hooks/gl.ts:16-32 | an `undefined` canvas returns at once; a null canvas throws without touching GL; a mounted one ends with the refs set and the textures recorded, or with the refs untouched on failure |
| GlHook.DeletingAll | src/hooks/gl.ts:57-84 | deleting a list of handles marks exactly the listed existing objects deleted and changes nothing else |
| GlHook.DeletingAllLive | src/hooks/gl.ts:57-84 | after the deletions an object is live exactly when it was live and not listed |
| GlHook.DeleteHandles | src/hooks/gl.ts:57-84 | the loop of delete calls reaches the state the list deletion specifies |
| GlHook.UnboundTextures | src/hooks/gl.ts:48-51 | every texture unit below `MAX_TEXTURE_IMAGE_UNITS` is left empty and units beyond keep their texture |
| GlHook.UnboundBindings | src/hooks/gl.ts:48-55 | after unbinding no array, element, render or frame buffer is bound, no object is created or deleted and the program stays in use |
| GlHook.UnbindTextureUnits | src/hooks/gl.ts:48-51 | the unit loop clears units 0 to MAX-1 and leaves the last one active |
| GlHook.UnbindAll | src/hooks/gl.ts:48-55 | reaches the unbound state |
| GlHook.TearDown | src/hooks/gl.ts:52-86 | as written: deletes the data handles and the frame buffers in source order; with an FBO B but no FBO A it throws before losing the context |
| GlHook.TearDownFixed | src/hooks/gl.ts:52-86 | with FBO B's own depth buffer deleted, the teardown never throws and always loses the context |
| GlHook.CleanUpGL | src/hooks/gl.ts:45-87 | no context does nothing; otherwise everything is unbound, the textures, mesh buffers, base buffer and frame buffers are deleted as written, and the cleanup throws exactly when FBO B exists without FBO A |
| GlHook.CleanUpGLFixed | src/hooks/gl.ts:45-87 | the corrected cleanup deletes every owned handle, FBO B's depth buffer included, and loses the context |
| GlHook.DepthBufferLeaks | src/hooks/gl.ts:81-84 | as written FBO B's depth buffer stays live after the cleanup; the corrected order deletes it |
| GlHook.CleanUpReleases | src/hooks/gl.ts:57-84 | after the corrected cleanup an object is live exactly when it was live and not owned; FBO B's depth buffer and every texture are among the owned |
| GlHook.TargetTexturesKept | src/hooks/gl.ts:76-84 | neither cleanup deletes the frame buffers' target textures |
| Samplers.DiffuseName | lib/gl/textureLoader.ts:105 | every sampler name starts with `uDiffuse` |
| Samplers.DiffuseNamesDistinct | lib/gl/textureLoader.ts:117 | different units name different samplers |
| Samplers.BoundUnit | lib/gl/textureLoader.ts:115-117 | activating a unit, binding a texture and setting its sampler create and delete no GL object |
| Samplers.BindSlotsFrame | lib/gl/textureLoader.ts:112-119 | a binding loop changes only texture units and the active unit, and appends exactly its sampler calls to the call log |
| Samplers.BindSlotsUnits | lib/gl/textureLoader.ts:112-119 | after the loop unit k holds the texture of position k when that position is bound; every other unit keeps its texture |
| Samplers.SamplerCallsFor | lib/gl/textureLoader.ts:117 | every bound position k sets `uDiffuse{k}` to k |
| Samplers.SamplerCallsOnly | lib/gl/textureLoader.ts:112-119 | every sampler call comes from a bound position |
| Samplers.BindUnit | lib/gl/textureLoader.ts:115-117 | one loop iteration reaches the state the function describes |
| TextureLoader.PowerOf2Iff | lib/gl/textureLoader.ts:74 | `(v & (v - 1)) === 0` holds exactly for 0 and the powers of two |
| TextureLoader.PowersPass | lib/gl/textureLoader.ts:74 | every power of two passes the test |
| TextureLoader.BitAndSelf | lib/gl/textureLoader.ts:74 | `v & v` is v |
| TextureLoader.CreateTexture | lib/gl/textureLoader.ts:76-96 | allocates one new texture, binds it to unit 0, and mipmaps it when both sides are powers of two or clamps it otherwise; the size is the image's |
| TextureLoader.Kept | lib/gl/textureLoader.ts:29-35 | no more textures are made than images given |
| TextureLoader.KeptMembers | lib/gl/textureLoader.ts:31-35 | an image gets a texture exactly when it loaded with a source |
| TextureLoader.Made | lib/gl/textureLoader.ts:29-36 | one texture per kept image |
| TextureLoader.MadeEntries | lib/gl/textureLoader.ts:31-35 | texture k keeps its image's name and size and is handle base + k |
| TextureLoader.LoadImageTextures | lib/gl/textureLoader.ts:26-38 | `Promise.all` rejects, with no GL call, exactly when an image fails to load; otherwise one texture per loaded image, in key order |
| TextureLoader.CreateTextures | lib/gl/textureLoader.ts:29-36 | the `forEach` makes the kept images' textures with consecutive handles |
| TextureLoader.KeepTexture | lib/gl/textureLoader.ts:32-34 | one iteration adds a texture exactly when the image is usable |
| TextureLoader.TextureSlots | lib/gl/textureLoader.ts:112-113 | position i binds its texture when i is below the limit and is skipped otherwise |
| TextureLoader.BindTextures | lib/gl/textureLoader.ts:111-120 | as written: binds positions 0 to `MAX_SUPPORTED_MATERIAL_TEXTURES` inclusive |
| TextureLoader.BindSupportedTextures | lib/gl/textureLoader.ts:111-120 | the corrected loop binds positions below `MAX_SUPPORTED_MATERIAL_TEXTURES` only |
| TextureLoader.DiffuseNames | lib/gl/textureLoader.ts:117 | units 0 to 5 use samplers `uDiffuse0` to `uDiffuse5` |
| TextureLoader.SixthTextureUnsampled | lib/gl/textureLoader.ts:113 | as written a sixth texture is bound to unit 5 and its sampler call targets `uDiffuse5`, which has no location |
| TextureLoader.SupportedTexturesSampled | lib/gl/textureLoader.ts:111-120 | in the corrected loop every sampler call targets one of `uDiffuse0` to `uDiffuse4`, whose locations are looked up |
| TextureLoader.LoadSlot | lib/gl/textureLoader.ts:44-58 | a texture type with a map gets a new texture, one without keeps its entry |
| TextureLoader.LoadMaterial | lib/gl/textureLoader.ts:45-58 | every texture type of a material ends as its map prescribes |
| TextureLoader.LoadMaterialTextures | lib/gl/textureLoader.ts:40-63 | rejects, with no GL call, exactly when some map fails to load; otherwise one updated record per material |
| TextureLoader.LoadedAsWithin | lib/gl/textureLoader.ts:52-59 | a material loaded within a handle range stays loaded within any wider range |
| TextureLoader.MaterialSlots | lib/gl/textureLoader.ts:99-102 | material i binds its diffuse map when below the limit and skips otherwise |
| TextureLoader.BindMaterials | lib/gl/textureLoader.ts:98-109 | as written: binds materials 0 to `MAX_SUPPORTED_MATERIAL_TEXTURES` inclusive |
| TextureLoader.BindSupportedMaterials | lib/gl/textureLoader.ts:98-109 | the corrected loop binds materials below the limit only |
| TextureLoader.SixthMaterialUnsampled | lib/gl/textureLoader.ts:100 | as written a sixth material's diffuse map is bound to unit 5 with a sampler call that has no location |
| TextureLoader.SupportedMaterialsSampled | lib/gl/textureLoader.ts:98-109 | in the corrected loop every sampler call targets one of `uDiffuse0` to `uDiffuse4` |
| TextureLoader.LoadImagePath | lib/gl/textureLoader.ts:11-16 | images: fails exactly when one fails, with no GL change; otherwise the textures are created in key order and bound to units 0 onwards with their sampler calls |
| TextureLoader.BindImageTextures | lib/gl/textureLoader.ts:13 | unit k holds texture k for every supported position |
| TextureLoader.ImageUnits | lib/gl/textureLoader.ts:111-120 | binding consecutive handles puts handle base + k on unit k |
| TextureLoader.LoadMaterialPath | lib/gl/textureLoader.ts:18-23 | materials: fails exactly when some map fails; otherwise the materials are loaded and their diffuse maps bound |
| TextureLoader.LoadTextures | lib/gl/textureLoader.ts:10-24 | images win over materials; with neither nothing happens; each path fails as its loader does and leaves GL untouched on failure |
| Animation.Tick | src/hooks/animation.ts:36-56 | an idle loop does nothing; past `MAX_IDLE_TIME` the request is cancelled and the loop goes idle; otherwise the timer grows by one, the parity flips between 0 and 1 and the next frame is requested |
| Animation.CallbacksBeforeIdle | src/hooks/animation.ts:36-56 | a running loop with idle timer t calls back on exactly the next `MAX_IDLE_TIME + 1 - t` frames and is idle afterwards |
| Animation.IdleStays | src/hooks/animation.ts:38 | an idle loop stays idle and calls back no more |
| Animation.ParityAlternates | src/hooks/animation.ts:52-54 | after any number of frames the parity is the starting one plus the callbacks made, modulo 2 |
| Animation.AnimationFrame.constructor | src/hooks/animation.ts:16-34 | with motion allowed the first frame is requested with every ref at its initial value; under reduced motion only the timeout is set |
| Animation.AnimationFrame.Timeout | src/hooks/animation.ts:21-26 | the reduced-motion timeout calls back once with (0, 0) |
| Animation.AnimationFrame.Animate | src/hooks/animation.ts:36-56 | the refs change as one tick prescribes; a frame that fires records the callback with the current parity and the time |
| Animation.AnimationFrame.HandleScroll | src/hooks/animation.ts:90-113 | a canvas scrolled out of view pauses a running loop; one back in view restarts an idle loop with a reset timer; otherwise nothing changes |
| Animation.AnimationFrame.ResetIdleTimer | src/hooks/animation.ts:115-125 | input restarts an idle loop with a reset timer and leaves a running one alone |
| Animation.AnimationFrame.Unmount | src/hooks/animation.ts:60 | unmounting cancels the pending frame request and changes nothing else: callbacks, idle flag, idle timer, previous time and ping-pong value are kept |
| Throttle.SpacedPairs | src/hooks/helpers.ts:5-8 | any two forwarded calls are at least `delay` apart |
| Throttle.Throttled.constructor | src/hooks/helpers.ts:1-2 | a new throttle starts with `lastCall` 0 and nothing forwarded |
| Throttle.Throttled.Call | src/hooks/helpers.ts:3-10 | a call is forwarded, returning `fn`'s result, exactly when `delay` has passed since the last forwarded call, which then becomes this one; otherwise it returns `undefined` and nothing changes |
| Interaction.Gyroscope.constructor | lib/gl/interaction.ts:39-46 | a new gyroscope record is disabled, at rest, with the decelerate timer at 1 and the accelerate timer at 0 |
| Interaction.Drag.constructor | lib/gl/interaction.ts:47-55 | a new drag record is disabled, not dragging, at the origin and at rest, with the decelerate timer at 1 and the accelerate timer at 0 |
| Interaction.GetInitialInteraction | lib/gl/interaction.ts:30-59 | both records start disabled and at rest, and the rotation is the uniforms' rotation converted to radians, also kept as the initial rotation |
| Interaction.StepTimer | lib/gl/interaction.ts:106-110 | a timer at or above 1 stays; a timer in [0, 1] advances by the friction without passing 1 and never decreases |
| Interaction.TimerRamp | lib/gl/interaction.ts:106-110 | after n frames a timer in [0, 1] has advanced by n times the friction, capped at 1 |
| Interaction.TimerStaysAtOne | lib/gl/interaction.ts:106-110 | a timer at 1 stays at 1 |
| Interaction.GyroRampLength | lib/gl/interaction.ts:25 | with friction 0.001 the gyroscope timer reaches 1 after exactly 1000 frames |
| Interaction.ApplyDrag | lib/gl/interaction.ts:96-100 | drag rotates about x by the y velocity and about y by minus the x velocity, never about z; at rest the rotation is kept |
| Interaction.ApplyGyro | lib/gl/interaction.ts:102-104 | the gyroscope adds its velocity to the rotation, so subtracting it gives the rotation back |
| Interaction.UpdateDragVelocity | lib/gl/interaction.ts:112-126 | timer 0 keeps the velocity; timer 1 reaches three times the drag velocity in x and y, with z 0 |
| Interaction.NormalizeOrientation | lib/gl/interaction.ts:173-179 | the gyroscope's target is the sine of twice beta and the sine of alpha, in degrees: a device at rest gives (0, 0), and both components lie in [-1, 1] whenever sine does |
| Interaction.UpdateGyroVelocity | lib/gl/interaction.ts:128-148 | enabled at timer 0 keeps the velocity and at timer 1 reaches the normalized orientation; disabled at decelerate timer 1 stops |
| Interaction.ComposedRotationSum | lib/gl/interaction.ts:66-86 | with neither input the rotation is the initial one; with both it is the initial rotation plus the gyroscope velocity plus the drag turn |
| Interaction.UpdateInteraction | lib/gl/interaction.ts:61-94 | the enabled records get new velocities and advanced timers in place, the disabled ones are untouched, and the new rotation composes gyroscope then drag on the initial rotation |
| Interaction.MapMouseToScreenSpace | lib/gl/interaction.ts:151-157 | the pixel origin maps to (1, 1) |
| Interaction.ScreenSpaceRange | lib/gl/interaction.ts:151-157 | a mouse position inside the canvas, whose y the mouse hook negates, maps into [-1, 1] on both axes, and the far corner to (-1, -1) |
| Transition.EaseEnds | src/utils/transition.ts:8 | `easeOutCubic` starts at `initial` and ends at `initial + final` |
| Transition.EaseUnit | src/utils/transition.ts:8 | over [0, duration] the eased progress rises monotonically within [0, 1] and is 0 only at the start |
| Transition.Rotated | src/utils/transition.ts:66-70 | rotation keeps the length and the textures (a permutation); an empty array becomes `[undefined]` |
| Transition.RotatedAt | src/utils/transition.ts:66-70 | direction -1 moves the last texture to the front; any other direction moves the first texture to the back |
| Transition.RotateInverse | src/utils/transition.ts:66-70 | rotating forward then backward, or backward then forward, restores the array |
| Transition.Step | src/utils/transition.ts:31-64 | an idle carousel is unchanged; a frame at `DURATION - 0.05` or later stops the transition, moves the slide index by the direction and resets time and progress; any other frame advances time by `SPEED`; the textures rotate exactly on the frames that rotate them |
| Transition.StepMidway | src/utils/transition.ts:31-64 | every frame of a one-slide transition keeps it midway or finishes it, and finishes it exactly when it stops |
| Transition.EasedOne | src/utils/transition.ts:57-58 | going backward, the progress is exactly 1 only on the first frame, where the textures rotate |
| Transition.RunMidway | src/utils/transition.ts:31-64 | after k frames short of the end the transition is midway with time k times `SPEED` |
| Transition.RunStep | src/utils/transition.ts:31-64 | running n + 1 frames is one more frame after n |
| Transition.TransitionCompletes | src/utils/transition.ts:31-64 | in exact arithmetic, 51 frames after its start a transition has moved one slide and rotated the textures once in its direction |
| Transition.AllBound | src/utils/transition.ts:73-77 | every position of the slice is bound |
| Transition.BindTextures | src/utils/transition.ts:72-78 | unit i receives texture i and its sampler call, for every texture given |
| Transition.Transition.constructor | src/components/TransitionCanvas/TransitionCanvas.tsx:55-60 | the refs start at slide 0, idle, with time and progress 0, direction 1 and the given textures |
| Transition.Transition.RotateTextures | src/utils/transition.ts:66-70 | rotates the texture ref in place and changes no other ref |
| Transition.Transition.StopTransition | src/utils/transition.ts:42-51 | the refs end as one stopping frame says, and going forward the first two textures are rebound |
| Transition.Transition.AnimateTransition | src/utils/transition.ts:53-64 | the refs end as one easing frame says; the first two textures are rebound exactly when the textures rotate |
| Transition.Transition.UpdateTransitionProgress | src/utils/transition.ts:31-40 | one frame of the carousel: the refs end as one step says, and GL is touched exactly when the textures rotate |
| Rasterize.ReplaceAllAppend | src/hooks/rasterize.ts:137 | a global replace of one character distributes over concatenation |
| Rasterize.ReplaceAllAbsent | src/hooks/rasterize.ts:137 | replacing a character that does not occur changes nothing |
| Rasterize.EscapeXhtmlIsCharwise | src/hooks/rasterize.ts:137 | the two chained replaces equal one pass that rewrites `#` to `%23` and a newline to `%0A` |
| Rasterize.EscapeXhtmlClean | src/hooks/rasterize.ts:137 | the result contains no `#` and no newline |
| Rasterize.EscapeEachClean | src/hooks/rasterize.ts:137 | the one-pass rewrite leaves no `#` and no newline |
| Rasterize.EscapeEachIdentity | src/hooks/rasterize.ts:137 | a string without `#` or newline is left as it is |
| Rasterize.EscapeXhtmlIdempotent | src/hooks/rasterize.ts:137 | escaping twice is escaping once |
| Rasterize.EscapeXhtmlNotInjective | src/hooks/rasterize.ts:137 | `#` and the literal text `%23` escape to the same string, so escaping cannot be undone |
| Rasterize.EscapeEachLength | src/hooks/rasterize.ts:137 | the length grows by two for every `#` and every newline |
| Rasterize.EscapeXhtmlLength | src/hooks/rasterize.ts:137 | the escaped length is the original plus two per `#` and per newline |
| Color.StripHash | src/utils/color.ts:21-24 | a leading `#` is removed and any other string is kept |
| Color.Doubled | src/utils/color.ts:35 | three shorthand digits become six |
| Color.FormatHexString | src/utils/color.ts:32-37 | a valid hex string gives exactly six hex digits |
| Color.HexToRGBA | src/utils/color.ts:26-30 | a colour comes back exactly when the string, without its `#`, is three or six hex digits |
| Color.Byte | src/utils/color.ts:39-42 | two hex digits make a byte below 256 |
| Color.SixDigits | src/utils/color.ts:34 | six hex digits read as one number are three bytes, high to low |
| Color.ThreeBytes | src/utils/color.ts:40-42 | `>> 16 & 255`, `>> 8 & 255` and `& 255` recover the three bytes of a 24-bit number |
| Color.HexChannels | src/utils/color.ts:39-44 | each channel is its digit pair divided by 255, with alpha 1 |
| Color.ShorthandIsDoubled | src/utils/color.ts:21-37 | `#abc` is the colour `#aabbcc`, and the `#` is optional |
| Color.SecondHashRejected | src/utils/color.ts:16-24 | only one leading `#` is stripped, so `##…` is no hex colour |
| Color.DigitRun | src/utils/color.ts:49 | the run of decimal digits at a position: all digits, and stopped by a non-digit or the end |
| Color.Match | src/utils/color.ts:49-50 | a match of the pattern at a position ends within the string |
| Color.Capture | src/utils/color.ts:56-59 | a captured value is put in front of the groups that follow |
| Color.Lit | src/utils/color.ts:49 | a literal run matches its characters one by one |
| Color.RGBGroups | src/utils/color.ts:49 | the `rgb(…)` pattern has three capture groups |
| Color.RGBAGroups | src/utils/color.ts:65 | the `rgba(…)` pattern has four capture groups |
| Color.MatchGroups | src/utils/color.ts:56-59 | a match yields one value per capture group |
| Color.Find | src/utils/color.ts:55-57 | `exec` finds the leftmost position where the pattern matches, and reports none exactly when no position matches |
| Color.RGBStringToRGBA | src/utils/color.ts:48-62 | a colour comes back exactly when `rgb(d, d, d)` with one to three digits each occurs anywhere in the string; its alpha is 1 and its channels are non-negative |
| Color.RGBAStringToRGBA | src/utils/color.ts:64-78 | a colour comes back exactly when `rgba(d, d, d, a)` occurs anywhere in the string; every component is non-negative |
| Color.ParseColorFromString | src/utils/color.ts:4-14 | the parsers are tried in order and the first success wins: a valid hex string is read as hex, otherwise an `rgb(…)` match, otherwise an `rgba(…)` match, otherwise the colour-name lookup's result; `null` comes back only when that lookup also fails |
| Color.ParsedWithoutNames | src/utils/color.ts:4-14 | once hex, `rgb(…)` or `rgba(…)` accepts the string, the colour-name lookup does not matter |
| Color.LuminanceComposites | src/utils/color.ts:88-97 | the luminance of a translucent colour is the background's and the colour's luminances mixed by its alpha; alpha 1 gives the colour's own, alpha 0 the background's |
| ColorRatioCalc.MinComplianceRatio | src/components/AccessibleContrast/ContrastForm/ColorRatioCalc.tsx:14-17 | a target ratio exists exactly for AA and AAA: 4.5 for AA and 7 for AAA |
| ColorRatioCalc.Luminance | src/components/AccessibleContrast/ContrastForm/ColorRatioCalc.tsx:19 | channels in [0, 1] give a luminance in [0, 1], and a grey's luminance is its channel |
| ColorRatioCalc.LuminanceOfOpaque | src/components/AccessibleContrast/ContrastForm/ColorRatioCalc.tsx:19 | the form's luminance is `luminanceFromRGBA` of the opaque colour, whatever the background |
| ColorRatioCalc.ContrastRatio | src/components/AccessibleContrast/ContrastForm/ColorRatioCalc.tsx:21-27 | the ratio is at least 1: the lighter luminance plus 0.05 over the darker plus 0.05 |
| ColorRatioCalc.ContrastRatioSymmetric | src/components/AccessibleContrast/ContrastForm/ColorRatioCalc.tsx:21-27 | swapping background and foreground gives the same ratio |
| ColorRatioCalc.CheckContrast | src/components/AccessibleContrast/ContrastForm/ColorRatioCalc.tsx:29-32 | passes exactly when a target exists and the ratio reaches it (`x >= undefined` is false) |
| ColorRatioCalc.ShiftedLightness | src/components/AccessibleContrast/ContrastForm/ColorRatioCalc.tsx:39-49 | the lightness where the loop stops keeps the luminance used in the check defined |
| ColorRatioCalc.ShiftSteps | src/components/AccessibleContrast/ContrastForm/ColorRatioCalc.tsx:39-49 | the loop takes k steps of 1 in one direction: every earlier lightness failed the check while in [0, 100], the last one does not continue, and from [0, 100] it takes at most 101 steps |
| ColorRatioCalc.ShiftStops | src/components/AccessibleContrast/ContrastForm/ColorRatioCalc.tsx:39-49 | the loop ends with a lightness that passes the check, or one step past 100 going up, or one step below 0 going down |
| ColorRatioCalc.Shift | src/components/AccessibleContrast/ContrastForm/ColorRatioCalc.tsx:34-52 | returns the background with its lightness moved, away from the foreground's, to where the loop stops |
| ColorRatioCalc.MakeColorAccessible | src/components/AccessibleContrast/ContrastForm/ColorRatioCalc.tsx:54-62 | level NONE and a passing pair keep the background; otherwise the background is shifted |
| ColorRatioCalc.LevelASearchesToTheEnd | src/components/AccessibleContrast/ContrastForm/ColorRatioCalc.tsx:14-17 | level A has no target, so the loop always runs out of [0, 100] |
| ColorRatioCalc.QuotientBelow | src/components/AccessibleContrast/ContrastForm/ColorRatioCalc.tsx:24-25 | a quotient bound the lightness steps rely on |
| ColorRatioCalc.DarkensToSeven | src/components/AccessibleContrast/ContrastForm/ColorRatioCalc.tsx:39-49 | against a foreground of lightness 50 at AA, a background darkening from any lightness in [7, 45] stops at 7 |
| ColorRatioCalc.ShiftedColourCanFail | src/components/AccessibleContrast/ContrastForm/ColorRatioCalc.tsx:40 | because the loop checks HSL lightness as if it were luminance, grey 0.45 on blue fails AA, is shifted to grey 0.07, and that colour still fails AA |
| AccessibleContrast.Assign | src/components/AccessibleContrast/AccessibleContrast.tsx:20-26 | the spread stores the new setting under the name, keeps every other entry, keeps an existing key's place and appends a new key |
| AccessibleContrast.AssignKeepsValid | src/components/AccessibleContrast/AccessibleContrast.tsx:20-26 | storing an object found under no other key keeps the table's keys distinct and its objects unshared |
| AccessibleContrast.UpdateUniform | src/components/AccessibleContrast/AccessibleContrast.tsx:18-29 | a missing `uniforms` prop throws; otherwise the name maps to a new object with the old entry's fields and the new value, the old object keeps its value, and the table stays valid |
| Inputs.AxisEdit | src/components/Inputs/Inputs.tsx:95 | a vector box sends an object with exactly its own axis |
| Inputs.Updated | src/components/Inputs/Inputs.tsx:244-249 | a vector merges the edit into an object, anything else is replaced by the edit |
| Inputs.ScalarEditsReplace | src/components/Inputs/Inputs.tsx:31-73 | a scalar uniform takes a number box's raw text, a checkbox's 1 or 0, or a radio button's index verbatim |
| Inputs.VectorEditMerges | src/components/Inputs/Inputs.tsx:244-249 | a vector edit sets the components it supplies and keeps every other component |
| Inputs.AxisEditChangesOneComponent | src/components/Inputs/Inputs.tsx:83-215 | editing one box of a vector control changes that component only |
| Inputs.UpdateUniforms | src/components/Inputs/Inputs.tsx:244-249 | a missing name throws reading `type`; otherwise that setting's value is updated in place and no other setting changes |
| Inputs.UniformInput | src/components/Inputs/Inputs.tsx:217-238 | read-only `uBackground` shows nothing and other read-only uniforms display what `parseUniform` gives, or throw its error; FLOAT_1 gets a number box and a vector a vector control; for INT_1 a checkbox wins over radio buttons over the given choices (which throw without choices), and radio buttons win over an integer box; an untyped uniform renders its default value; only those two cases throw |
| Inputs.ControlAxesMatchDisplay | src/components/Inputs/Inputs.tsx:83-215 | a vector control edits exactly the axes its read-only display shows |
| Inputs.Controls | src/components/Inputs/Inputs.tsx:277-278 | a key gets a control exactly when it is neither `uMouse` nor `uTime` |
| Inputs.ControlsInOrder | src/components/Inputs/Inputs.tsx:277-278 | the controls keep the keys' order |
| General.ParseUniform | src/utils/general.ts:35-48 | a scalar is shown as it is; a vector throws exactly on `undefined`, reading `x` |
| General.FieldsStart | src/utils/general.ts:39-44 | the text starts with the first axis's field |
| General.VectorTextStartsWithX | src/utils/general.ts:39-44 | a vector's text starts with `x: ` and its x component |
| General.ZeroComponentShownAsColor | src/utils/general.ts:41-44 | a VEC_3 or VEC_4 whose x is falsy, zero say, is shown through its `r` property |
| General.Round2Close | src/utils/general.ts:59 | rounding to hundredths lands on a whole number of hundredths within half a hundredth |
| General.PreviewItems | src/utils/general.ts:57-59 | the preview is at most the first ten items, each rounded to hundredths |
| General.Preview | src/utils/general.ts:55-61 | a row is named by its key and ends with `... (n total)` for the full data length |
| General.Kept | src/utils/general.ts:53-54 | the kept buffers are exactly those with data |
| General.Previews | src/utils/general.ts:55-61 | one preview per kept buffer, in order |
| General.KeptAppend | src/utils/general.ts:52-54 | appending a buffer keeps it exactly when it has data |
| General.ReduceIsPreviewsOfKept | src/utils/general.ts:50-64 | the `reduce` produces the previews of the buffers with data, in key order |
| General.FormatAttributes | src/utils/general.ts:50-64 | no buffers give no rows; otherwise one row per buffer with data, in key order |
| General.FormatAttributesRows | src/utils/general.ts:50-64 | every row comes from a buffer with data, and every buffer with data has its row |
| WebGL.InitFrameBufferObject | lib/gl/frameBuffer.ts:39-56 | creates a new target texture, framebuffer and depth renderbuffer, three distinct live handles, at the given size; the texture and framebuffer bindings are cleared again |
| JsValue.SpreadLookup | src/components/Inputs/Inputs.tsx:247 | in `{ ...base, ...extra }` a key of `extra` reads from `extra` and any other key from `base` |
| JsValue.Or | src/utils/general.ts:42-44 | `a \|\| b` is a when a is truthy and b otherwise |

## Left out

- Pages and React components (JSX, styling, draw-call sequences). The only exceptions are the uniform panel's choice of control and the contrast form's update, which are modelled.
- `lib/gl/matrix.ts`, `assignProjectionMatrix`, `unprojectCoordinate` and `lookAtMouse`: matrices are floating-point transforms (tan, sin, cos, 1/det) that this model treats as opaque. The projection matrix is a reserved uniform name only.
- `initPlaceholderTexture`: a one-pixel texture shown while the worker loads; it has no behaviour beyond three GL calls.
- Fixed pipeline settings in `initializeRenderer` (`clearColor`, `clearDepth`, `enable`, `depthFunc`, `clear`, `viewport`) and `getContext`: they are not part of the modelled GL state. A canvas is the flag `hasCanvas`.
- `checkFramebufferStatus` and framebuffer completeness: decided by the driver.
- `console.warn` and `console.error` output: a failed link is only reported, and the model records that nothing else happens.
- Asynchrony: promises, `Promise.all`, the worker's message listener, `setTimeout` and `requestAnimationFrame`. Image loading is a function from URL to an optional image, a failed image rejects the whole load, and a pending request is a flag.
- Event, DOM and worker plumbing: the mouse, drag, gyroscope, resize, scroll-position and web-worker hooks, and the SVG/canvas rasterisation around `escapeXhtml`.
- `CSSColorStringToRGBA`, which asks the DOM for a colour name: it is the `named` parameter of `Color.ParseColorFromString`. `RGBToHSL`, `HSLToRGB` and the `cssColor` conversion are parameters too.
- The unused easing functions `easeInQuad`, `easeOutQuad`, `easeInOutQuad` and `easeInOutCubic`; only `easeOutCubic` is called.
- Floating-point exactness. Numbers are reals, so `Math.round` in `formatAttributes`, the square-root normalisation with its −0 patching, and the sines in `normalizeOrientation` are exact. The frame at which a transition's time reaches `DURATION - 0.05` is the exact-arithmetic one.
- Transition.Transition.constructor: it takes the slide textures as a parameter. In the source the textures ref starts as an empty array and is filled once the slide images have loaded, which is asynchronous and not modelled.
- Transition.TransitionCompletes: it is stated in exact arithmetic (51 frames). With doubles, accumulating 0.001 may stop one frame earlier or later.
- ObjLoader.LoadObjData: it states each vertex's position, texture coordinate and material slot, the indices and the bounding box, but not which normals the geometry carries. The worker parses `vn` lines but never copies them, because `normals` stays empty and `needsNormals` always holds. So the geometry's normals are the computed face normals, and the model bounds only their length.
- ObjLoader.ComputeBoundingBox: the box's size is the corrected extent `max - min` of the first Findings row, not `Math.abs(min) + max`. For x in [1, 3] the model states size 2 where the source gives 4; `ObjLoader.ComputeWidthCounterexample` states the value as written.
- ObjLoader.LoadObjData: its bounding box has the corrected size of `ObjLoader.ComputeBoundingBox`, not the source's `computeWidth`.
- MtlLoader.LoadMeshData: its geometry's bounding box has the corrected size of `ObjLoader.ComputeBoundingBox`, not the source's `computeWidth`.
- TextureLoader.BindImageTextures: it binds with the corrected `<` bound of the second Findings row, so a sixth texture is left unbound. The source binds it to unit 5 and calls `uniform1i` with the location of `uDiffuse5`; `TextureLoader.BindTextures` and `TextureLoader.SixthTextureUnsampled` state that behaviour.
- TextureLoader.LoadImagePath: it binds through `TextureLoader.BindImageTextures`, so it has the corrected `<` bound: unit 5 stays unbound where the source binds a sixth texture.
- TextureLoader.LoadMaterialPath: it binds with `TextureLoader.BindSupportedMaterials`, the corrected `<` bound of the third Findings row. The source binds a sixth material's diffuse map to unit 5; `TextureLoader.BindMaterials` and `TextureLoader.SixthMaterialUnsampled` state that behaviour.
- TextureLoader.LoadTextures: both of its paths bind with the corrected `<` bound, so a sixth texture or diffuse map is not bound to unit 5 as in the source.
- GlHook.LoadDemoTextures: it loads through `TextureLoader.LoadTextures`, so it has the corrected `<` bound: unit 5 stays unbound where the source binds a sixth texture.
- GlHook.LoadAndMesh: it loads textures through `GlHook.LoadDemoTextures`, so it has the corrected `<` bound.
- GlHook.InitializeRendered: it loads textures through `GlHook.LoadDemoTextures`, so it has the corrected `<` bound.
- GlHook.InitializeGL: its texture loading has the corrected `<` bound of `TextureLoader.LoadTextures`, so unit 5 stays unbound where the source binds a sixth texture.
- WebGLState.UniformLocation: every name of a successfully linked program gets a location. A real `getUniformLocation` returns `null` for a name the program does not declare or does not use, and which uniforms are active is up to the shader compiler. So `UpdateShaders.PingPongLocation` and `Initialize.CreateUniformLocations` state a location wherever the program is linked.
- Interaction.MapMouseToScreenSpace requires a canvas of non-zero width and height, because the model divides exactly. With a zero-sized canvas JavaScript gives an infinite or NaN coordinate, which the model does not represent.
- Initialize.InitializeMesh: the optional `setAttributes` callback is not modelled. The source calls it with the buffer record after building the face-array or OBJ buffers. The canvases pass one that hands `formatAttributes` of the buffers to a React state setter (see `General.FormatAttributesRows`); it changes no GL or ref state.
- ColorRatioCalc: the component is not mounted anywhere, because its use in `ContrastForm.tsx` is commented out. It is modelled as written. Its `luminance` is a plain weighted sum of the channels, not the linearised relative luminance of WCAG 2.1; only the ratio formula is WCAG's. `RGBToHSL` and `HSLToRGB` are imported from `color.ts` but not defined there, so they are function parameters.
- ColorRatioCalc.ContrastRatio requires each luminance plus 0.05 to be positive, because the model divides exactly. A luminance of a colour in [0, 1] always meets this; JavaScript would return Infinity or NaN otherwise.
- ColorRatioCalc.Shift: the unused `ratio` parameter of `shift` is dropped.
- Color.RGBStringToRGBA: states only that the channels are non-negative. The pattern accepts up to three digits, so `rgb(999, 0, 0)` gives a red channel above 1; the definition computes this, but no separate lemma states it.
- Color.RGBAStringToRGBA: states only that the components are non-negative. The definition reads the alpha with `parseInt`, so it is 0 or 1 and a fractional alpha such as 0.5 becomes 0, but the contract does not state this.
- JsValue.Spread: spreading a string primitive, which JavaScript turns into its characters, is treated as spreading nothing. The uniform values that are spread are always objects or `undefined`.
- TextureLoader.LoadMaterialTextures: the `delete materials.textures` key removal is not modelled, because the model returns new material records instead of mutating the caller's in place.
- GlHook.InitializeGL: it does not restate when the outline program exists. `Initialize.InitializeRenderer` states it.
- Shaders that live shader editing detaches are never deleted. The model keeps them in the GL state, as the source does, and states nothing further about them.
- Build and type-only files (webpack configs, `custom.d.ts`, `src/index.tsx`, `types.ts`). Their record shapes appear as datatypes.

## Findings

| source | as written | input that shows it | evidently intended | confidence | as-written member | corrected member |
|---|---|---|---|---|---|---|
| lib/gl/loadOBJWorker.ts:204 | `computeWidth` returns `Math.abs(min) + max` | min 1, max 3 gives width 4 | the extent `max - min`, here 2 | not executed | ObjLoader.ComputeWidthCounterexample | ObjLoader.ExtentWidth |
| lib/gl/textureLoader.ts:113 | `bindTextures` binds position i when `i <= MAX_SUPPORTED_MATERIAL_TEXTURES` (5), that is six textures, while the shaders declare only `uDiffuse0` to `uDiffuse4` | six textures: the sixth is bound to unit 5 and its sampler call names `uDiffuse5`, which has no location | `i < MAX_SUPPORTED_MATERIAL_TEXTURES`, five textures for five samplers | not executed | TextureLoader.SixthTextureUnsampled | TextureLoader.BindSupportedTextures |
| lib/gl/textureLoader.ts:100 | `bindMaterials` has the same `<=` bound for material diffuse maps | six materials with diffuse maps: the sixth is bound to unit 5 and its sampler `uDiffuse5` has no location | `i < MAX_SUPPORTED_MATERIAL_TEXTURES` | not executed | TextureLoader.SixthMaterialUnsampled | TextureLoader.BindSupportedMaterials |
| src/hooks/updateShaders.ts:25-28 | the old shader is detached before the new source is known to compile | a fragment edit that fails to compile, followed by a valid vertex edit: the relink lacks a fragment shader and fails | detach only after the new shader compiles, so a failed edit keeps the running program | not executed | UpdateShaders.AsWrittenFailureDetaches | UpdateShaders.CheckedFailureKeepsProgram |
| src/hooks/gl.ts:83 | FBO B's branch deletes FBO A's depth buffer, so that one is deleted twice and FBO B's never | both ping-pong framebuffers present: FBO B's depth renderbuffer is never deleted (and with FBO B but no FBO A the line throws) | delete FBO B's own depth buffer | not executed | GlHook.DepthBufferLeaks | GlHook.CleanUpReleases |
