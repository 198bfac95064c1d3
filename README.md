# Mug scene renderer: a Dafny model of its core

The program draws a textured mug, two lamps, a table plane, a cylinder and a small sphere with OpenGL. Everything it does lives in `main.cpp`. This project models the parts of that file that compute or sequence things, and proves what they promise:

- **`flipImageVertically`** (module `ImageFlip`). The in-place row swap that turns a decoded image upside down. It is modelled as a method on an `array` of bytes, proved against the function `Flipped`. Lemmas show that the flip is its own inverse and that it permutes the bytes.
- **`UCreateTexture`** (module `Texture`). Flip first, then the format dispatch: 3 channels upload as RGB8, 4 as RGBA8, and anything else fails. The decoder's result is a parameter, with a null buffer standing for a failed decode.
- **`UCreateMesh`**, split in two:
  - The constant tables (module `MeshData`): `verts` holds 108 vertices of 8 floats each. The GLushort table `indices` has 546 entries, every one below 108. The GLuint table `lightIndices` has 48 entries, and it is counted but never uploaded.
  - The buffer bookkeeping (module `MeshBuffers`): the sphere's vertex and index data share one buffer; there is the byte offset of the sphere's indices; and there are the attribute layouts of both vertex arrays. The `GLMesh` record is a class whose `CreateMesh` method fills it.
- **`UProcessInput`** (module `Scene`). Escape closes the window. W, S, A, D, E and Q move the camera in that polling order. P flips the projection on every frame it is held. L starts the lamp orbit only when it is stopped, and K stops it only when it runs. The globals it updates are the class `SceneState`.
- **`URender`** (modules `Glm`, `GL` and `Render`):
  - The lamp orbit step comes first.
  - Then come the frame's OpenGL calls, recorded as commands on a `Context` class. The context also keeps the part of the driver state those calls change.
  - Each frame draws the mug, the key lamp, the fill lamp and the sphere, in that order. The lemmas state what each draw reads: program, vertex array, element range, uniforms and texture.
  - Further lemmas cover where the draws read in the buffers `UCreateMesh` filled, and what a whole session from start-up through any number of frames leaves behind.

Four behaviours of the code shape the model:

- **The lamps.** `lightIndices` (main.cpp:1112-1132) is counted but never uploaded. Each lamp draws the first `nLightIndices` = 48 entries of `indices` (main.cpp:584 and main.cpp:603), and those entries are the mug base (`LightCountPrefixIsMugBase`, `ElementDrawsInBounds`).
- **The P key.** P flips the projection on every frame in which it is held (main.cpp:391-398); nothing waits for the key to be released (`Step`, `OrthoParity`).
- **The object colour.** The fragment shader declares `objectColor` but never reads it (main.cpp:150), so the uniform is inactive and the `glUniform3f` of main.cpp:548 changes nothing (`GL.Active`, `GL.ApplyRejected`). The mug's colour comes from its texture, lit by the two lights (main.cpp:198-201).
- **The texture bind.** The texture is bound after the draws, through `glActiveTexture(GL_TEXTURE)` (main.cpp:619-621), with the consequences listed under Findings.

Real numbers stand in for `float`. Matrices built by glm and by the camera are named by how they were built, not computed.

## Model

| member | source | states |
|---|---|---|
| ImageFlip.FlipImageVertically | main.cpp:236-252 | the buffer afterwards is `Flipped` of the buffer before: for j below height / 2, rows j and height-1-j of width*channels bytes trade places, and nothing else changes |
| ImageFlip.SwapRowBytes | main.cpp:243-250 | the inner loop swaps the count bytes from index1 with the count bytes from index2, byte for byte, and leaves every other byte as it was |
| ImageFlip.HalfTowardZero | main.cpp:238 | C's `height / 2` truncates toward zero: for height >= 0 the result h has 2h <= height <= 2h+1 |
| ImageFlip.Flipped | main.cpp:236-252 | the flipped buffer has the same length as the original |
| ImageFlip.FlippedAt | main.cpp:236-252 | byte k of row r of the flipped buffer is byte k of row height-1-r of the original; a middle row of an odd height stays put |
| ImageFlip.FlippedTail | main.cpp:236-252 | bytes past the last full row, and every byte when rows are empty, are left unchanged |
| ImageFlip.MirrorIndexInRange | main.cpp:236-252 | under the caller's bound, every byte of the flipped buffer is taken from inside the buffer |
| ImageFlip.FlipInvolution | main.cpp:236-252 | flipping twice gives back the original buffer |
| ImageFlip.FlipIsBijective | main.cpp:236-252 | two positions of the flipped buffer take their bytes from the same position exactly when they are the same position, so the flip is a permutation |
| ImageFlip.FlipPermutes | main.cpp:236-252 | the flipped buffer holds every byte value exactly as often as the original does |
| ImageFlip.PermutedMultiset | main.cpp:243-250 | a sequence whose bytes are taken from distinct positions of another of the same length is a permutation of it |
| Texture.ChannelCount | main.cpp:1219-1222 | RGB8 has 3 bytes per pixel and RGBA8 has 4 |
| Texture.FormatFor | main.cpp:1219-1227 | a format is chosen exactly for 3 or 4 channels, and its byte count is the channel count |
| Texture.LoadEffects | main.cpp:1209-1234 | a decoded image always gets a texture generated and bound; it is uploaded, unchanged and with its width and height, exactly when the channel count is 3 or 4; mipmaps, freeing the image and unbinding happen exactly then |
| Texture.CreateTexture | main.cpp:1201-1238 | a null decode returns false and makes no call; otherwise the image is flipped in place first; the call succeeds exactly for 3 or 4 channels, and what it uploads is the flipped buffer |
| Texture.UploadUnflips | main.cpp:1207-1222 | flipping what a successful load uploads gives back the decoder's rows |
| MeshData.Elements | main.cpp:893-1132 | a table of triangles has three entries per triangle |
| MeshData.ElementsAppend | main.cpp:893-1110 | the entries of two consecutive runs of triangles are the entries of the first followed by those of the second |
| MeshData.ElementsPrefix | main.cpp:893-912 | the entries of the leading triangles of a table are a prefix of the table's entries |
| MeshData.ElementsInRange | main.cpp:893-1132 | a table's entries all name one of `bound` vertices exactly when every triangle's three vertices do |
| MeshData.VertsAreWholeVertices | main.cpp:644-890 | the 864 floats of `verts` are exactly 108 vertices of 3 + 3 + 2 floats |
| MeshData.IndexTableWellFormed | main.cpp:893-1110 | `indices` has 546 entries, which is 182 whole triangles and fits a GLushort count, and every entry names one of the 108 vertices of `verts` |
| MeshData.LightIndicesWellFormed | main.cpp:1112-1132 | `lightIndices` has 48 entries, which is 16 whole triangles, each naming one of the 108 vertices |
| MeshData.LightCountPrefixIsMugBase | main.cpp:894-912 | the first `nLightIndices` = 48 entries (the count taken at main.cpp:1173) of the uploaded `indices` are the mug base's fan, and they differ from `lightIndices` |
| MeshBuffers.Readers | main.cpp:1182-1188 | no byte is read by more attributes than the layout has |
| MeshBuffers.UVReadsNormal | main.cpp:1179-1189 | as written, the texture coordinate reads bytes 12-19, the first two floats of the normal; those bytes are read twice, and bytes 24-31 are never read, so the layout stays inside the 32-byte stride but does not split it |
| MeshBuffers.CorrectedLayoutTiles | main.cpp:1179-1189 | with the texture coordinate at byte 24, position, normal and texture coordinate split each 32-byte vertex exactly |
| MeshBuffers.SphereLayoutTiles | main.cpp:1151-1153 | the sphere's three attributes of 3 floats split each 36-byte vertex exactly |
| MeshBuffers.VertexReadsInBuffer | main.cpp:1170-1189 | for a layout inside the 32-byte stride, every attribute of every one of the 108 vertices lies inside the `sizeof(verts)` bytes uploaded |
| MeshBuffers.SphereUploads | main.cpp:1156-1160 | the sphere buffer receives two uploads |
| MeshBuffers.SphereUploadsFillBuffer | main.cpp:1146-1160 | the vertex data starts at 0 and the index data starts where it ends; they do not overlap, and together they cover exactly the vertexBufferSize + indexBufferSize bytes allocated |
| MeshBuffers.StoredIndexOffset | main.cpp:1156-1159 | the GLuint global keeps the running offset exactly when the vertex data is below 4 GiB |
| MeshBuffers.SphereDrawInIndexData | main.cpp:1156-1161 | the sphere draw starts exactly at the uploaded index data, and it stays inside that data exactly when the data holds numIndices GLushorts |
| MeshBuffers.GLMesh.CreateMesh | main.cpp:1140-1189 | the sphere buffer size, its two uploads, its layout, the stored index offset and index count; `sizeof(verts)` vertex bytes; `indices` as the element data; both counts; the main layout as written |
| MeshBuffers.GLMesh.constructor | main.cpp:32-45 | the global `gMesh` starts zeroed: no counts, no offset, no buffer size, nothing uploaded, and both layouts empty with stride 0 |
| MeshBuffers.ElementDrawsInBounds | main.cpp:1173-1176 | with the counts `UCreateMesh` records, the mug draw reads the whole element buffer, and the lamp draws read its first 48 entries, the mug base, all of them vertices of `verts` |
| Glm.AxisDistanceSquared | main.cpp:489-500 | a squared distance is never negative |
| Glm.RotateYKeepsOrbit | main.cpp:489-500 | a rotation about the Y axis keeps a point's height and its distance from the axis |
| Glm.RotateYMirror | main.cpp:489-500 | a rotation about the Y axis commutes with reflection through the axis |
| Scene.Direction | main.cpp:378-389 | the direction polled at each rank has that rank |
| Scene.Movements | main.cpp:378-389 | at most six movements, each in a direction whose key is held |
| Scene.PolledMembers | main.cpp:378-389 | polling the first n directions keeps exactly the held directions among them |
| Scene.PolledAscending | main.cpp:378-389 | polling lists the held directions by strictly increasing rank |
| Scene.MovementsArePolled | main.cpp:378-389 | the six polls of `UProcessInput` are the polling of all six directions |
| Scene.MovementsInPollingOrder | main.cpp:378-389 | the camera moves in every direction whose key is held and in no other, once each, in the order W, S, A, D, E, Q |
| Scene.Step | main.cpp:371-406 | the close flag is set exactly when it was set or Escape is held; the projection flips exactly when P is held; the orbit flag changes exactly when K is held while orbiting, or L is held while stopped |
| Scene.Run | main.cpp:284-300 | over a run of frames, a set close flag stays set, and frames in which none of Escape, P, L and K is held leave the flags as they were |
| Scene.CountP | main.cpp:391 | the number of frames with P held is at most the number of frames |
| Scene.PTwiceRestores | main.cpp:391-398 | P held on two consecutive frames gives back the projection it started with |
| Scene.OrthoParity | main.cpp:391-398 | after any run of frames, the projection is flipped exactly when P was held in an odd number of them |
| Scene.CloseIsSticky | main.cpp:375-376 | after any run, the close flag is set exactly when it was set before or Escape was held in some frame |
| Scene.OrbitNeedsLOrK | main.cpp:401-405 | in a run where neither L nor K is held, the orbit flag never changes |
| Scene.LAndKTogetherFlip | main.cpp:401-405 | with L and K both held, the orbit flag flips |
| Scene.OrbitKeysIgnoreOthers | main.cpp:371-406 | L and K change neither the projection, nor the close flag, nor the camera movements |
| Scene.EscapeOnlyCloses | main.cpp:371-406 | Escape sets the close flag and changes nothing else |
| Scene.Orbit | main.cpp:487-501 | an orbit step keeps a light at its height |
| Scene.OrbitKeepsLampsOpposite | main.cpp:487-501 | an orbit step turns both lights by the same rotation, so they stay 3.25 up, 2.5 from the Y axis and opposite each other, whether or not the orbit is on |
| Scene.SceneState.constructor | main.cpp:58-85 | the globals start in perspective, with the orbit off, the window open, and the lights at (0, 3.25, 2.5) and (0, 3.25, -2.5) on opposite sides of the axis |
| Scene.SceneState.ProcessInput | main.cpp:371-406 | the flags become `Step` of the old flags; the camera movements returned are `Movements` of the keys; the light positions are unchanged |
| Scene.SceneState.PollMovements | main.cpp:378-389 | the six ifs produce `Movements` of the keys |
| Scene.SceneState.OrbitLamps | main.cpp:487-501 | both lights turn by the frame's rotation exactly when the orbit is on; the flags are unchanged |
| GL.Apply | main.cpp:503-630 | a call raises the error count by one exactly when the driver rejects it (a glUniform with no program in use, or `glActiveTexture(GL_TEXTURE)`); only glDrawElements adds a draw, one; only the swap counts a frame |
| GL.ApplyRejected | main.cpp:538-548 | a rejected call changes nothing but the error count; a glUniform on a uniform its program's shaders do not read, such as `objectColor`, changes nothing at all |
| GL.ApplySetUniform | main.cpp:529-559 | a glUniform on an active uniform of the program in use sets that uniform and changes nothing else |
| GL.ApplyUniforms | main.cpp:529-559 | only a glUniform on an active uniform of the program in use changes a uniform value, and no call removes one |
| GL.ApplyKeepsDraws | main.cpp:562-616 | a call keeps every earlier draw, and a draw reads the uniform values held and the texture on unit 0 when it is issued |
| GL.ExecKeeps | main.cpp:485-631 | any run of calls keeps the earlier draws, only adds errors and frames, and never gives an inactive uniform a value |
| GL.ExecAppend | main.cpp:260-281 | running two lists of calls is running the first and then the second; start-up and each frame are proved this way, one part at a time |
| GL.Context.Call | main.cpp:485-631 | one call is appended to the trace, and the state becomes `Apply` of the old state |
| GL.Context.constructor | main.cpp:335-342 | a new context has recorded no call and is fresh: nothing bound or in use, unit 0 active, no uniform set, no draw, no error, no frame |
| Render.ObjectValuesSet | main.cpp:529-559 | once the mug's uniforms are set, each of the object program's nine active uniforms holds the frame's value; the sampler is untouched, and `objectColor` is held afterwards exactly when it was before |
| Render.LampValuesSet | main.cpp:569-581 | a lamp's pass sets the lamp program's three matrices and changes no uniform of the object program |
| Render.FrameDraws | main.cpp:485-631 | each frame appends exactly four draws in order: the mug (object program, main vertex array, nIndices elements from 0), the key lamp, then the fill lamp (lamp program, the same main vertex array, nLightIndices elements from 0), then the sphere (object program, sphere vertex array, sphereNumIndices from sphereIndexByteOffset); all four are issued with what unit 0 held before the frame |
| Render.MugUniforms | main.cpp:526-565 | the mug sees the translate-scale model matrix, the camera's view, the projection that ortho selects, the colours and positions of both lights, the camera position, the UV scale and the sampler set before the frame; it sees an object colour only if one was held before the frame |
| Render.LampUniforms | main.cpp:567-604 | each lamp sees a model matrix placing it at its own light with scale 0.3, the camera's view, and the projection that ortho selects |
| Render.SphereUniforms | main.cpp:605-616 | the sphere sees its own model matrix, and every other object-program uniform exactly as the mug saw it |
| Render.FrameEnd | main.cpp:619-630 | after the frame, the mug's texture is bound on the unit that was active, because `glActiveTexture(GL_TEXTURE)` is rejected as an error; nothing is in use, one more buffer has been swapped, and the sampler is untouched |
| Render.FrameNoObjectColor | main.cpp:538-548 | the frame's `glUniform3f` for `objectColor` is ignored: a frame that starts with no object colour held ends with none and draws nothing with one |
| Render.FrameCalls | main.cpp:503-630 | the frame makes 35 calls, exactly four of them glDrawElements (the mug's, the two lamps' and the sphere's, with their counts and offsets), and the swap last |
| Render.MugPassResult | main.cpp:503-565 | the mug's calls add one draw, raise no error and change no texture binding |
| Render.LampPassResult | main.cpp:567-585 | a lamp's calls add one draw, made with the vertex array that was already bound, raise no error and change no texture binding |
| Render.SpherePassResult | main.cpp:605-616 | the sphere's calls add one draw, raise no error and change no texture binding |
| Render.FrameEndResult | main.cpp:619-630 | the frame's last calls draw nothing, leave the mug's texture on the unit that was active, and count one error and one frame |
| Render.FrameResult | main.cpp:485-631 | a frame adds four draws, raises one error and swaps once |
| Render.FrameExec | main.cpp:485-631 | running the frame's 35 calls one by one from any state leaves exactly `FrameResult`, so the trace a frame records and the state it leaves agree |
| Render.DrawsExec | main.cpp:503-616 | the calls up to the sphere's draw, run one by one, leave the state after the four passes |
| Render.MugExec | main.cpp:503-565 | the mug's calls, run one by one, leave `MugPassResult` |
| Render.FrameStartExec | main.cpp:503-526 | depth test, clear colour, clear and glUseProgram turn the depth test on and put the object program in use, and change nothing else |
| Render.ObjectMatrixExec | main.cpp:529-536 | with the object program in use, its three matrix calls set model, view and projection |
| Render.ObjectLightingExec | main.cpp:538-559 | with the object program in use, the lighting calls set the six active lighting uniforms, and the `objectColor` call sets nothing |
| Render.LampExec | main.cpp:567-585 | a lamp's calls, run one by one, leave `LampPassResult` |
| Render.SphereExec | main.cpp:605-616 | the sphere's calls, run one by one, leave `SpherePassResult` |
| Render.FrameEndExec | main.cpp:619-630 | the frame's last calls, run one by one, leave `FrameEndResult`: the rejected glActiveTexture, the bind on the active unit, the unbinds and the swap |
| Render.FrameReadsInBounds | main.cpp:562-616 | with the counts `UCreateMesh` records, the mug and both lamps read element entries that are all vertices of `verts`; the sphere reads inside its uploaded index data exactly when that data holds numIndices GLushorts |
| Render.StartupState | main.cpp:260-281 | after start-up (the binds of main.cpp:1144, 1165, 1210, 1232 and 1302 included) the object program is in use, its sampler reads unit 0, and unit 0 holds no texture, because `UCreateTexture` unbound it |
| Render.MeshStartup | main.cpp:1144-1165 | `UCreateMesh`'s binds leave the main vertex array bound |
| Render.ProgramStartup | main.cpp:1302 | creating the two programs leaves the lamp program in use |
| Render.TextureStartup | main.cpp:1210-1232 | binding the texture and then 0 leaves 0 bound on the active unit |
| Render.SamplerStartup | main.cpp:276-281 | `main` puts the object program in use and points its sampler at unit 0 |
| Render.AfterFrames | main.cpp:284-300 | after n frames there are 4n more draws, n more errors and n more swaps |
| Render.FrameNewDraws | main.cpp:562-616 | a frame keeps earlier draws, textures its four draws as unit 0 was before it, and only its first and last draws use the object program |
| Render.FrameSampler | main.cpp:562-616 | the mug and the sphere both read the object program's sampler as it was before the frame |
| Render.SessionShapeStep | main.cpp:284-300 | four more draws textured as unit 0 was and without an object colour, followed by the mug bound on unit 0 and one error, take a session of k frames to one of k+1 frames |
| Render.FrameKeepsSessionShape | main.cpp:284-300 | one frame takes a session of k frames to one of k+1 frames |
| Render.Session | main.cpp:256-300 | after start-up and any frames: four draws per frame; the first frame's four draws find no texture on unit 0 and every later draw finds the mug's there, which the mug and sphere draws sample; every object-program draw reads unit 0; each frame raises one error; no draw has an object colour |
| Render.Render | main.cpp:485-631 | the lights take one orbit step; the flags are unchanged; the trace grows by the frame's calls in source order, and the state becomes the frame's result for the moved lights |
| Render.IssueFrame | main.cpp:503-630 | the trace grows by the frame's calls in source order, and the state becomes `FrameResult` |
| Render.IssueDraws | main.cpp:503-616 | the calls up to the sphere's draw in source order, and `DrawsResult` |
| Render.DrawMug | main.cpp:503-565 | the calls up to the mug's draw, and the state after them |
| Render.StartFrame | main.cpp:503-526 | depth test, clear colour, clear and the object program: the depth test is on and the object program in use |
| Render.SetObjectMatrices | main.cpp:529-536 | the three matrix uniforms of the object program are set |
| Render.SetObjectLighting | main.cpp:538-559 | the seven calls are made; the `objectColor` one changes nothing, and the six active lighting uniforms of the object program are set |
| Render.SetActiveLighting | main.cpp:549-559 | the six active lighting uniforms of the object program are set |
| Render.SetInactiveUniform | main.cpp:538-548 | a glUniform on a uniform its program does not have is recorded and changes nothing |
| Render.SetObjectUniform | main.cpp:529-536 | a glUniform on an active uniform of the object program in use sets that uniform and nothing else |
| Render.DrawLamp | main.cpp:567-604 | one lamp's calls, and the state after them |
| Render.DrawSphere | main.cpp:605-616 | the sphere's calls, and the state after them |
| Render.EndFrame | main.cpp:619-630 | the rejected `glActiveTexture`, the bind, the unbinds and the swap |
| CorrectedRender.CorrectedFrameMatches | main.cpp:619-621 | with the texture bound on unit 0 before the draws, a frame draws what the as-written frame would draw from that state, and it raises no error |
| CorrectedRender.CorrectedFrameCalls | main.cpp:619-621 | the corrected frame binds the texture on unit 0 first, then makes the as-written frame's calls up to the sphere's draw, and swaps last |
| CorrectedRender.CorrectedFrameResult | main.cpp:619-621 | a corrected frame adds four draws, raises no error and swaps once |
| CorrectedRender.CorrectedFrameExec | main.cpp:619-621 | running the corrected frame's calls one by one from any state leaves exactly `CorrectedFrameResult` |
| CorrectedRender.AfterCorrectedFrames | main.cpp:284-300 | after n corrected frames there are 4n more draws, n more swaps and no more errors |
| CorrectedRender.CorrectedFrameKeepsShape | main.cpp:619-621 | one corrected frame takes a corrected session of k frames to one of k+1 frames |
| CorrectedRender.CorrectedSession | main.cpp:619-621 | after start-up and any corrected frames, every draw, including the first frame's, is issued with the mug's texture on unit 0, which the mug and sphere draws sample; every object-program draw reads unit 0; no call is rejected |
| CorrectedRender.CorrectedRenderFrame | main.cpp:485-631 | the corrected frame's calls, and its state |
| CorrectedRender.IssueCorrectedFrame | main.cpp:503-630 | the corrected frame's calls in order, and `CorrectedFrameResult` |
| CorrectedRender.BindMugTexture | main.cpp:620-621 | `glActiveTexture(GL_TEXTURE0)` and the bind |
| CorrectedRender.CorrectedEndFrame | main.cpp:626-630 | the unbinds and the swap |

## Left out

- **The window.** GLFW window creation, the resize, mouse, scroll and button callbacks, event polling and the buffer swap's wait for the display are left out: they are I/O. The swap is recorded as a call.
- **Shaders.** Compilation and linking in `UCreateShaderProgram` are left out; the model keeps the program each call leaves in use and which uniforms each program's shaders read. The lighting maths inside the shaders is left out too.
- GL.Apply: with no program in use, a glUniform is counted as an error whether or not its location is -1; the frame never makes such a call, so the order of those two checks is not modelled.
- **Camera.h.** The camera is not part of this model:
  - the view matrix and the zoom-dependent perspective are named values;
  - the camera position is a parameter of `Render`;
  - the camera's response to movements is not modelled: `ProcessInput` returns the movements in order.
- **ShapeGenerator.** ShapeGenerator is not part of this model. The sphere's sizes and index count are a `ShapeData` parameter.
- **Image decoding.** `stbi_load` decoding and the texture's wrap and filter parameters are left out, because they are a foreign library. The decoded buffer, or null, is a parameter.
- **Numbers and vertex values.** glm numerics and float rounding are not modelled:
  - reals stand in for float;
  - a rotation is given by its cosine and sine, and `IsRotation` is exact;
  - the float values in `verts` are not modelled, only their number.
- Scene.SceneState.OrbitLamps: the angle `glm::radians(45) * gDeltaTime` comes from the clock, so the rotation is a parameter. The model does not state that a full 8-second cycle returns a light to its start.
- **Destroy functions.** `UDestroyMesh`, `UDestroyTexture` and `UDestroyShaderProgram` are left out: they only release driver handles. As written, `UDestroyMesh` releases only `vao` and `vbos[0]`, and `UDestroyTexture` calls `glGenTextures` instead of `glDeleteTextures`.
- **Handles.** Driver-assigned handles are not modelled: each program, vertex array and texture is named by what it stands for. A uniform location is named by its uniform and the program it was looked up in.
- ImageFlip.FlipImageVertically: the `int` products `j * width * channels` are unbounded here. Their 32-bit overflow for images of 2 GiB or more is not modelled.
- MeshBuffers.GLMesh.CreateMesh: `vertexBufferSize + indexBufferSize` is not reduced to `GLsizeiptr`, whose 64-bit overflow would need 8 EiB of data. The 32-bit truncation of the stored offset is modelled.
- **Failed start-up.** `main`'s exits on a failed start-up are left out, and so is the texture's failure message.

## Findings

| source | as written | input that shows it | evidently intended | confidence | as-written member | corrected member |
|---|---|---|---|---|---|---|
| main.cpp:1188 | the UV attribute starts at `sizeof(float) * floatsPerVertex` = 12, where the normal starts, not at the texture column that the comments of `verts` name (main.cpp:645) | any vertex of `verts`: bytes 24-31 are never read, and bytes 12-19 (normal x and y) are read as the texture coordinate. The shader scales that coordinate by `gUVScale` = (2, 2) (main.cpp:50-51, 198), and on 90 of the 108 vertices twice the normal's x and y is within 0.02 of the texture column, so the picture may be close to the one the column describes. Vertex 18 differs in u (the column's 0.3125 against 0.032), and vertices 74-90 differ in v | the layout the column comments of `verts` describe: offset `sizeof(float) * (floatsPerVertex + floatsPerNormal)` = 24. With `gUVScale` at 2 it would sample twice the column's coordinates, so the intent is uncertain | low; not executed | MeshBuffers.UVReadsNormal | MeshBuffers.CorrectedLayoutTiles |
| main.cpp:620-621 | `glActiveTexture(GL_TEXTURE)` names a texture target rather than a unit, and the texture is bound only after all four draws | the first frame after start-up: unit 0 holds no texture, since `UCreateTexture` unbound it at main.cpp:1232, so the mug is drawn untextured, and every frame raises one GL error | `glActiveTexture(GL_TEXTURE0)` and the bind before the draws, so that every draw is issued with the mug's texture on unit 0, which the mug and sphere draws sample, and no call is rejected | high; not executed | Render.Session | CorrectedRender.CorrectedSession |

The rest of the model follows the code as written. `GLMesh.CreateMesh` records the as-written layout, and `Render.Render` issues the as-written frame. The corrected layout and the corrected frame (`CorrectedRender.CorrectedRenderFrame`) are defined beside them, and their intended properties are proved.
