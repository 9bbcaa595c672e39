# OpenGL scene core: lights, sphere field, camera and cube tables

This project models the logic of a small OpenGL scene (Source_Code/Assingment3) in
Dafny and proves what that logic promises. It leaves out the GL, GLFW and glm calls
around the logic. There are four components:

- **The light rig** (`LightRig`, over `ShaderUniforms`). A `Light` object holds point
  lights, one directional light, spotlights and four enable flags.
  - `HandleKeyPress` is an edge-triggered toggle per key (1, 2, 3). Each key has a latch.
  - `Render*` and `Disable*` write named light members into a linked shader program.
  - A program's uniforms are a map from a uniform name (`PointLightField(1, Ambient)` for
    `pointLights[1].ambient`) to a value. A write to a name the program does not declare is
    dropped, as `glUniform*` drops a write to location -1.
  - Every operation's writes are given twice: as the list the C++ loops issue, and as a
    declarative description of the values left behind. A `...Realizes` lemma ties the two
    together. An `...Effect` lemma states the resulting table: which uniforms change, to
    what, and that nothing else changes.
  - One frame of the main loop (`LightingFrame`) runs the key toggles, then Render or
    Disable per category, then the rim flag. `FrameEffect` gives the table the frame leaves.
- **The sphere field** (`SphereField`). `CreateSphere` fills the vertex and index arrays in
  nested loops; the model proves the layout, the index bounds and the texture-coordinate
  range. `SetPosition` places up to 100 non-overlapping spheres by rejection sampling, with
  up to 100 tries each. The placement is proved append-only, bounded and pairwise separated
  by at least 2r. `Update` spins the spheres about Y.
- **The camera** (`CameraControl`). It covers:
  - the mouse-look angles with the ±89° pitch clamp and the scroll zoom clamped to [1, 100];
  - the cursor bookkeeping of `Inputs` with its `firstClick` latch and the cursor-inside test;
  - the W/A/S/D/Q/E movement and the L-key wireframe toggle.
- **The constant cube tables** (`SkyBoxModel`, `LightMarker`). These are the skybox's
  24×3-float vertex table and 36 indices, and the light-marker cube's 24×8-float table and
  36 indices. The model proves their sizes, face layout, index bounds, coordinates and
  normals, plus the skybox's six-face cubemap load loop.

Floats are exact reals (`Glm.Vec3` over `real`). Some things outside the logic become
parameters:
- the trigonometry that turns angles into directions: `dir` for the sphere vertices,
  `heading` for the camera's look direction;
- `glm::normalize`: `normalize`;
- the random number stream: `rand`, with `randMax`;
- the clock, the cursor, the mouse button and the keys;
- the image loader: `load`.

## Model

| member | source | states |
|---|---|---|
| ShaderUniforms.ShaderProgram.SetUniform | Source_Code/Assingment3/Light.cpp:309-329 | one glUniform call: a declared name takes the value, an undeclared name (location -1) changes nothing; the write is appended to the program's log |
| ShaderUniforms.ShaderProgram.SetUniforms | Source_Code/Assingment3/Light.cpp:170-177 | a run of glUniform calls leaves the table equal to the writes applied in order, and logs exactly those writes |
| ShaderUniforms.GlState.UseProgram | Source_Code/Assingment3/Light.cpp:164 | glUseProgram makes the given program the bound one |
| ShaderUniforms.ApplyKeys | Source_Code/Assingment3/Light.cpp:309-329 | no sequence of writes adds or removes a uniform: the program's declared names stay the same |
| ShaderUniforms.ApplyUntargeted | Source_Code/Assingment3/Light.cpp:309-329 | a declared uniform that no write names keeps its value |
| ShaderUniforms.ApplyConsistent | Source_Code/Assingment3/Light.cpp:309-329 | a declared uniform that is written, always with the same value, ends with that value |
| ShaderUniforms.ApplyRealizes | Source_Code/Assingment3/Light.cpp:309-329 | a write list that realizes a description leaves every described declared uniform at its described value and every other uniform unchanged |
| ShaderUniforms.RealizesConcat | Source_Code/Assingment3/Main.cpp:142-164 | two write lists issued one after the other realize the union of their descriptions when the descriptions agree wherever both give a value |
| LightRig.KeyStep | Source_Code/Assingment3/Light.cpp:400-406 | one frame of one key: the latch ends equal to the key, and the flag flips exactly when the key is pressed while the latch is clear |
| LightRig.PressWhileLatchedChangesNothing | Source_Code/Assingment3/Light.cpp:400-403 | a press while the latch is set changes neither the flag nor the latch |
| LightRig.ReleaseClearsLatch | Source_Code/Assingment3/Light.cpp:404-405 | a release while the latch is set clears the latch and keeps the flag |
| LightRig.KeyRunCountsEdges | Source_Code/Assingment3/Light.cpp:400-406 | over any run of frames the latch ends at the last key state and the flag has flipped once per rising edge of the key |
| LightRig.HeldKeyTogglesOnce | Source_Code/Assingment3/Light.cpp:400-406 | holding the key for any number n ≥ 1 of frames, from a clear latch, toggles the flag exactly once |
| LightRig.PressPressTogglesOnce | Source_Code/Assingment3/Light.cpp:400-406 | press, press toggles the flag once |
| LightRig.PressReleasePressRestores | Source_Code/Assingment3/Light.cpp:400-406 | press, release, press toggles twice: the flag returns to its original value and the latch is set |
| LightRig.Light.HandleKeyPress | Source_Code/Assingment3/Light.cpp:392-425 | keys 1, 2 and 3 each step their own flag and latch by KeyStep; no key touches another key's flag or latch |
| LightRig.Light.constructor | Source_Code/Assingment3/Light.cpp:28-35 | the generic lightObj member is built at (1, 1, 1) with colour 0; the category flags start as given, the rim light starts enabled and the latches clear; then InitializeLights runs, leaving two point lights with their markers and one spotlight |
| LightRig.Light.InitializeLights | Source_Code/Assingment3/Light.cpp:59-117 | appends the red and the blue point light, each with a marker built from its position and colour and owning its own program; sets the directional light and the spotlight and appends the spotlight; every point light keeps a marker at the same index |
| LightRig.Light.RenderLightObjects | Source_Code/Assingment3/Light.cpp:129-135 | one marker draw per point light, at that light's position and in that light's colour; each draw binds the marker's own program (LightObj.cpp line 149), so the last marker's program is left bound when there is a marker |
| LightRig.PointLightWritesInOrder | Source_Code/Assingment3/Light.cpp:170-177 | one iteration of the point loop writes position, colour, ambient, diffuse, specular and the three attenuation terms of light i, in that order |
| LightRig.Light.WritePointLight | Source_Code/Assingment3/Light.cpp:168-177 | the loop body issues exactly the eight writes of light i |
| LightRig.RenderPointRealizes | Source_Code/Assingment3/Light.cpp:162-183 | the writes of RenderPointLights set every member of every point light, the count and the flag, and nothing else |
| LightRig.Light.RenderPointLights | Source_Code/Assingment3/Light.cpp:162-183 | with the flag off nothing is written and nothing bound; with it on the program is bound and receives the eight members of every point light, then the count and the flag |
| LightRig.RenderPointEffect | Source_Code/Assingment3/Light.cpp:162-183 | after RenderPointLights every declared member of point light i < n holds that light's value, pointLightCount is n, isPointLightsEnable is 1, and every other uniform keeps its value |
| LightRig.Light.DisablePointLights | Source_Code/Assingment3/Light.cpp:198-206 | binds the program and writes zero ambient, diffuse and specular for every point light |
| LightRig.DisablePointEffect | Source_Code/Assingment3/Light.cpp:198-206 | after DisablePointLights the three lighting terms of every point light are zero; position, colour, attenuation and every other uniform keep their values |
| LightRig.DirWritesInOrder | Source_Code/Assingment3/Light.cpp:234-238 | RenderDirectionalLight writes the flag, then direction, ambient, diffuse and specular; DisableDirectionalLight writes zero ambient, diffuse and specular |
| LightRig.Light.RenderDirectionalLight | Source_Code/Assingment3/Light.cpp:231-242 | with the flag off nothing is written; with it on the program is bound and receives the flag and the four members |
| LightRig.RenderDirEffect | Source_Code/Assingment3/Light.cpp:231-242 | after RenderDirectionalLight the four members hold the light's values and the flag is 1; everything else keeps its value |
| LightRig.Light.DisableDirectionalLight | Source_Code/Assingment3/Light.cpp:255-260 | binds the program and writes the three zero terms |
| LightRig.DisableDirEffect | Source_Code/Assingment3/Light.cpp:255-260 | after DisableDirectionalLight ambient, diffuse and specular are zero while the direction and every other uniform keep their values |
| LightRig.SpotLightWritesInOrder | Source_Code/Assingment3/Light.cpp:299-329 | one iteration of the spot loop writes the flag, then position, direction, ambient, diffuse, specular and the two cutoffs of spotlight i |
| LightRig.Light.WriteSpotLight | Source_Code/Assingment3/Light.cpp:298-329 | the loop body issues exactly those eight writes; the found-location guards coincide with SetUniform dropping undeclared names |
| LightRig.RenderSpotRealizes | Source_Code/Assingment3/Light.cpp:288-332 | the writes of RenderSpotlights set the count, every member of every spotlight, and the flag only when there is a spotlight |
| LightRig.Light.RenderSpotlights | Source_Code/Assingment3/Light.cpp:288-332 | with the flag off nothing is written; with it on the program is bound and receives the count, then one block per spotlight |
| LightRig.RenderSpotEffect | Source_Code/Assingment3/Light.cpp:288-332 | after RenderSpotlights the count is n, every member of spotlight i < n holds its value, the flag is 1 if n > 0 and unchanged otherwise, and the rest keeps its value |
| LightRig.Light.DisableSpotlights | Source_Code/Assingment3/Light.cpp:344-354 | binds nothing, so it requires the program to be bound already; writes count 0, then zero diffuse and specular for every spotlight |
| LightRig.DisableSpotEffect | Source_Code/Assingment3/Light.cpp:344-354 | after DisableSpotlights the count is 0 and diffuse and specular are zero, while ambient, position, direction, the cutoffs and the flag keep their values |
| LightRig.DisableSpotRealizes | Source_Code/Assingment3/Light.cpp:344-354 | the writes of DisableSpotlights set exactly the count and the two zeroed terms of each spotlight |
| LightRig.Light.RenderRimLight | Source_Code/Assingment3/Light.cpp:368-379 | binds the program and writes only isRimLightEnable; the three rim locations looked up are never written |
| LightRig.RimRealizes | Source_Code/Assingment3/Light.cpp:368-379 | the rim writes set isRimLightEnable to the flag and nothing else |
| LightRig.PointSpec | Source_Code/Assingment3/Main.cpp:143-151 | the point branch of a frame describes only point-light uniforms |
| LightRig.DirSpec | Source_Code/Assingment3/Main.cpp:152-157 | the directional branch describes only directional uniforms |
| LightRig.SpotSpec | Source_Code/Assingment3/Main.cpp:158-163 | the spotlight branch describes only spotlight uniforms |
| LightRig.FrameRealizes | Source_Code/Assingment3/Main.cpp:142-164 | the writes of a whole frame realize the per-category descriptions joined together: no category overwrites another's uniforms |
| LightRig.FrameEffect | Source_Code/Assingment3/Main.cpp:142-164 | after a frame each declared uniform holds its category's Render or Disable value or keeps its old one; the rim flag is the rig's; a disabled category has its count or lighting terms zeroed |
| LightRig.Light.PointStep | Source_Code/Assingment3/Main.cpp:143-151 | enabled: RenderPointLights plus one marker draw per point light; disabled: DisablePointLights and no draws; the lighting program ends bound, except that drawn markers leave the last marker's program bound |
| LightRig.Light.DirStep | Source_Code/Assingment3/Main.cpp:152-157 | Render or Disable of the directional light by its flag; the program ends bound |
| LightRig.Light.SpotStep | Source_Code/Assingment3/Main.cpp:158-163 | Render or Disable of the spotlights by their flag, with the program already bound |
| LightRig.Light.DispatchLights | Source_Code/Assingment3/Main.cpp:142-164 | the four branches in order issue exactly FrameWrites, so the table ends as FrameEffect describes, with the lighting program bound again, since the directional branch always binds it |
| LightRig.Light.LightingFrame | Source_Code/Assingment3/Main.cpp:140-164 | the key toggles, then the dispatch on the new flags: each flag is KeyStep of its key, each latch equals its key, the table ends as FrameWrites leaves it |
| SphereField.SphereIndices | Source_Code/Assingment3/Sphere.cpp:119-138 | the index buffer has quality·quality·6 entries |
| SphereField.QuadLayout | Source_Code/Assingment3/Sphere.cpp:124-137 | quad (i, j) occupies offsets 6(iq+j) to 6(iq+j)+5 |
| SphereField.QuadTrianglesShareDiagonal | Source_Code/Assingment3/Sphere.cpp:128-136 | both triangles of a quad contain i·q+j and ((i+1)%q)·q+(j+1)%q |
| SphereField.SphereIndicesInRange | Source_Code/Assingment3/Sphere.cpp:129-136 | every index written is in [0, q·q), thanks to the % q on ring and sector |
| SphereField.SphereVertices | Source_Code/Assingment3/Sphere.cpp:76-116 | the vertex buffer has quality·quality·8 floats |
| SphereField.VertexLayout | Source_Code/Assingment3/Sphere.cpp:81-107 | vertex (i, j) occupies offsets 8(iq+j) to 8(iq+j)+7: position, texcoord, normal |
| SphereField.TexcoordsInUnitSquare | Source_Code/Assingment3/Sphere.cpp:100-101 | u = i/(q-1) and v = 1 - j/(q-1) lie in [0, 1] for every ring and sector |
| SphereField.TexcoordsSpanUnitSquare | Source_Code/Assingment3/Sphere.cpp:100-101 | the first ring has u = 0, the last u = 1; the first sector has v = 1, the last v = 0 |
| SphereField.SphereGridWellFormed | Source_Code/Assingment3/Sphere.cpp:76-141 | the mesh of any quality q > 1 is well formed: the counts equal the array lengths and every index names a vertex |
| SphereField.SphereMeshWellFormed | Source_Code/Assingment3/Sphere.cpp:67-144 | the quality-20 mesh CreateSphere builds is well formed |
| SphereField.Sphere.PutTriple | Source_Code/Assingment3/Sphere.cpp:95-97 | three consecutive `element++` writes set exactly those three entries |
| SphereField.Sphere.PutVertex | Source_Code/Assingment3/Sphere.cpp:95-106 | the eight `element++` writes of a vertex set exactly its eight floats and advance element by 8 |
| SphereField.Sphere.PutQuad | Source_Code/Assingment3/Sphere.cpp:128-136 | the six `element++` writes of a quad set exactly its six indices and advance element by 6 |
| SphereField.Sphere.CreateSphere | Source_Code/Assingment3/Sphere.cpp:67-144 | the nested loops fill the vertex array with SphereVertices and the index array with SphereIndices, element ending at each count; indexCount is 20·20·6 |
| SphereField.DistanceTest | Source_Code/Assingment3/Sphere.cpp:158 | the squared test agrees with glm::distance(a, b) < 2r for the non-negative square root of the squared distance, so a distance of exactly 2r is accepted |
| SphereField.Sphere.IsOverlapping | Source_Code/Assingment3/Sphere.cpp:156-164 | true exactly when some stored position is closer than 2r to newPos |
| SphereField.CoordinateInRange | Source_Code/Assingment3/Sphere.cpp:199-201 | min + rand()/(RAND_MAX/(max-min)) lies in [min, max] for rand() in [0, RAND_MAX] |
| SphereField.CandidateInBox | Source_Code/Assingment3/Sphere.cpp:199-201 | every candidate lies in the [-10, 10] cube |
| SphereField.AppendKeepsSeparated | Source_Code/Assingment3/Sphere.cpp:211-213 | appending a position that overlaps nothing keeps the positions pairwise separated |
| SphereField.FirstFree | Source_Code/Assingment3/Sphere.cpp:197-209 | the retry loop draws no more than its tries |
| SphereField.FirstFreeSkipsOverlapping | Source_Code/Assingment3/Sphere.cpp:197-209 | every candidate the retry loop passes over overlaps; the one it stops at, if any, does not |
| SphereField.FirstFreeIs | Source_Code/Assingment3/Sphere.cpp:197-209 | the number of tries is the only count with that property |
| SphereField.PlaceOneSpec | Source_Code/Assingment3/Sphere.cpp:191-218 | one slot draws between one and maxTries candidates and appends at most one position, which overlaps none before it |
| SphereField.PlaceOneEnds | Source_Code/Assingment3/Sphere.cpp:197-213 | a slot whose tries all overlap appends nothing; a slot that finds a free candidate appends that candidate |
| SphereField.PlaceCounts | Source_Code/Assingment3/Sphere.cpp:191-218 | placing appends at most one position per slot and draws at most maxTries candidates per slot |
| SphereField.PlaceExtends | Source_Code/Assingment3/Sphere.cpp:211-213 | placing is append-only: the earlier positions are unchanged |
| SphereField.PlaceSeparated | Source_Code/Assingment3/Sphere.cpp:203-213 | positions pairwise at least 2r apart stay so after placing |
| SphereField.PlaceKeeps | Source_Code/Assingment3/Sphere.cpp:211-213 | only drawn candidates are stored: any property shared by every candidate and every earlier position holds of every resulting position |
| SphereField.PlaceWithoutRadius | Source_Code/Assingment3/Sphere.cpp:203-213 | with r ≤ 0 nothing is too close, so every slot keeps its first candidate |
| SphereField.PlacedSeparated | Source_Code/Assingment3/Sphere.cpp:174-219 | SetPosition keeps its starting positions, adds at most 100, and keeps every pair at least 2r apart |
| SphereField.PlacedInBox | Source_Code/Assingment3/Sphere.cpp:182-201 | with rand() in [0, RAND_MAX], every sphere it adds lies inside the placement box |
| SphereField.PlacedWithoutRadius | Source_Code/Assingment3/Sphere.cpp:191-213 | with r ≤ 0 all 100 spheres are placed, at the first 100 candidates |
| SphereField.Sphere.DrawFree | Source_Code/Assingment3/Sphere.cpp:196-209 | the retry loop tries at most maxTries candidates, all those it rejects overlap, and an accepted one is the next candidate and overlaps nothing |
| SphereField.Sphere.PlaceSlot | Source_Code/Assingment3/Sphere.cpp:191-217 | one outer iteration ends as PlaceOne describes |
| SphereField.Sphere.SetPosition | Source_Code/Assingment3/Sphere.cpp:174-219 | the positions end as Placed: 100 slots of 100 tries from the rand() stream |
| SphereField.SpinTotal | Source_Code/Assingment3/Sphere.cpp:279-281 | over any frames only the Y angle turns, by 80 times the total elapsed time |
| SphereField.Sphere.Update | Source_Code/Assingment3/Sphere.cpp:279-281 | rotation.y grows by 80·deltaTime and x, z stay |
| SphereField.Sphere.constructor | Source_Code/Assingment3/Sphere.cpp:34-41 | position and rotation start at zero, the mesh is CreateSphere's, then SetPosition places the spheres |
| CameraControl.ClampPitch | Source_Code/Assingment3/Camera.cpp:225-228 | the result lies in [-89, 89], equals the input inside it and saturates outside it |
| CameraControl.ClampFov | Source_Code/Assingment3/Camera.cpp:252-255 | the result lies in [1, 100], equals the input inside it and saturates outside it |
| CameraControl.ScrollAllInRange | Source_Code/Assingment3/Camera.cpp:251-255 | over any sequence of scrolls fov stays in [1, 100] once it is there, and is there after the first scroll |
| CameraControl.PitchAllInRange | Source_Code/Assingment3/Camera.cpp:218-228 | over any sequence of mouse movements pitch stays in [-89, 89] |
| CameraControl.YawAllSum | Source_Code/Assingment3/Camera.cpp:218-221 | yaw is the starting yaw plus the sensitivity times the sum of the offsets: never clamped or wrapped |
| CameraControl.Steps | Source_Code/Assingment3/Camera.cpp:171-196 | the six conditional steps W, A, S, D, Q, E add the net step of each opposite pair |
| CameraControl.Move | Source_Code/Assingment3/Camera.cpp:166-196 | the new position is the old plus speed times the net forward, side and up steps |
| CameraControl.MoveNoKeys | Source_Code/Assingment3/Camera.cpp:171-196 | with no movement key down the camera stays put |
| CameraControl.MoveForwardBackCancel | Source_Code/Assingment3/Camera.cpp:172-183 | W with S moves as if neither were down |
| CameraControl.MoveLeftRightCancel | Source_Code/Assingment3/Camera.cpp:176-188 | A with D moves as if neither were down: both use the same side vector |
| CameraControl.MoveUpDownCancel | Source_Code/Assingment3/Camera.cpp:190-196 | Q with E moves as if neither were down |
| CameraControl.MoveIgnoresShift | Source_Code/Assingment3/Camera.cpp:198-203 | left shift has no effect on the move: the base speed it sets is read by nothing after it |
| CameraControl.MoveSingleKeys | Source_Code/Assingment3/Camera.cpp:172-191 | W alone moves by speed·orientation, Q alone by speed·up, A alone by speed·side |
| CameraControl.Camera.constructor | Source_Code/Assingment3/Camera.cpp:28-46 | width, height and position as given; lastX, lastY at the window centre; fov 45; firstClick and firstMouse set; pitch 0, yaw -90, sensitivity 0.1, orientation (0,0,-1), up (0,1,0), front zero, clocks zero; in range |
| CameraControl.Camera.MouseMovement | Source_Code/Assingment3/Camera.cpp:217-235 | yaw grows by xoffset·sensitivity unclamped, pitch becomes the clamp of pitch + yoffset·sensitivity, front is the heading of the new angles and orientation its normalisation |
| CameraControl.Camera.MouseScroll | Source_Code/Assingment3/Camera.cpp:248-257 | fov becomes the clamp of fov - 2·yoffset to [1, 100] |
| CameraControl.Camera.TrackCursor | Source_Code/Assingment3/Camera.cpp:118-131 | the offsets are mouseX - lastX and lastY - mouseY; lastX, lastY become the cursor; the cursor shape is the hand exactly when 0 ≤ mouseX ≤ width and 0 ≤ mouseY ≤ height, and the arrow otherwise |
| CameraControl.Camera.HandleButton | Source_Code/Assingment3/Camera.cpp:134-160 | a press hides the cursor, clears firstClick and applies MouseMovement; a release shows the cursor, sets firstClick and leaves the angles and orientation alone |
| CameraControl.Camera.Tick | Source_Code/Assingment3/Camera.cpp:161-163 | deltaTime is the time since the previous call |
| CameraControl.Camera.Walk | Source_Code/Assingment3/Camera.cpp:166-196 | the position moves by Move with speed 1·deltaTime and side vector normalize(cross(orientation, up)) |
| CameraControl.Camera.Inputs | Source_Code/Assingment3/Camera.cpp:114-204 | the whole call: the offsets, the cursor shape (the hand exactly when the cursor lies in the window) and mode, the firstClick latch, the mouse-look on a press only, the clock, and the key movement, with lastX, lastY overwritten on every call |
| CameraControl.Camera.KeyButtonCallback | Source_Code/Assingment3/Camera.cpp:273-296 | a GLFW_PRESS of L flips the wireframe flag and sets the polygon mode to lines when it is on and fill when it is off; any other key or action changes nothing |
| LightMarker.Flatten | Source_Code/Assingment3/LightObj.cpp:65-101 | the flat table has eight floats per row |
| LightMarker.FlattenAt | Source_Code/Assingment3/LightObj.cpp:65-101 | float c of row v is at offset 8v + c |
| LightMarker.CubeTableSizes | Source_Code/Assingment3/LightObj.cpp:65-118 | 24 rows, 192 floats, 36 indices |
| LightMarker.CubeFaceLayout | Source_Code/Assingment3/LightObj.cpp:105-118 | face k is the triangles (4k, 4k+1, 4k+2) and (4k, 4k+2, 4k+3) |
| LightMarker.CubeIndicesInRange | Source_Code/Assingment3/LightObj.cpp:105-118 | every index is below 24 |
| LightMarker.CubeFaceRows | Source_Code/Assingment3/LightObj.cpp:67-100 | the four rows of a face share one unit axis normal, position·normal is 1, every coordinate is ±1 and every texcoord is 0 or 1 |
| LightMarker.CubeFaceNormal | Source_Code/Assingment3/LightObj.cpp:67-100 | the normal and plane part of CubeFaceRows |
| LightMarker.CubeFaceCorner | Source_Code/Assingment3/LightObj.cpp:67-100 | the corner and texcoord part of CubeFaceRows |
| LightMarker.SetupLightObj | Source_Code/Assingment3/LightObj.cpp:63-122 | the mesh gets the two tables with counts 192 and 36 (the sizeof quotients), and it is well formed |
| SkyBoxModel.FlattenRows | Source_Code/Assingment3/SkyBox.h:44-76 | the flat table has three floats per row |
| SkyBoxModel.FlattenRowsAt | Source_Code/Assingment3/SkyBox.h:44-76 | coordinate c of row v is at offset 3v + c |
| SkyBoxModel.SkyBoxTableSizes | Source_Code/Assingment3/SkyBox.h:44-90 | 24 rows and 72 floats, 36 indices: the sizes uploaded by glBufferData (skybox.cpp lines 54 and 57) and drawn by glDrawElements (line 167) |
| SkyBoxModel.SkyBoxFaceLayout | Source_Code/Assingment3/SkyBox.h:78-89 | face k is the triangles (4k+2, 4k+1, 4k) and (4k+3, 4k+2, 4k) |
| SkyBoxModel.SkyBoxIndicesInRange | Source_Code/Assingment3/SkyBox.h:77-90 | every index is below 24 |
| SkyBoxModel.SkyBoxFaceRows | Source_Code/Assingment3/SkyBox.h:47-75 | the four vertices of face k share its fixed coordinate (z = 0.5 front, z = -0.5 back, x = ±0.5 right/left, y = ±0.5 top/bottom) and every coordinate is ±0.5 |
| SkyBoxModel.SkyBoxCoordinates | Source_Code/Assingment3/SkyBox.h:44-76 | every one of the 72 floats is ±0.5 |
| SkyBoxModel.LoadCubeMapFaces | Source_Code/Assingment3/skybox.cpp:71-89 | one entry per face: face i gets an upload to +X + i, RGBA for four components and RGB otherwise, when its load succeeds; a failed load only records its index and leaves the face without data |
| SkyBoxModel.FaceTargets | Source_Code/Assingment3/skybox.cpp:37-44 | the paths are Right, Left, Up, Down, Back, Front and go to +X, -X, +Y, -Y, +Z, -Z |

## Left out

- OpenGL calls (VAO, VBO and EBO creation, glDrawElements, texture binding and parameters, depth state) are driver calls. Only the uniform-table effect of glUniform* on the lighting program and the bound program of glUseProgram are modelled. The PVM and color uniforms a LightObj writes to its own program while drawing are not modelled, beyond the colour recorded in each marker draw. A Mesh is the record of the arrays and counts it receives.
- Sphere::Render, Sphere::RenderReflectiveSphere, LightObj::Render, SkyBox::Update and SkyBox::Render build matrices and draw, so they are GL and glm numerics. Only the skybox's draw count (36) is kept, in SkyBoxTableSizes.
- Camera::GetViewMatrix and GetProjectionMatrix are glm matrix numerics.
- The trigonometry of the sphere vertices and of the camera's front vector, and glm::normalize, are parameters (`dir`, `heading`, `normalize`). The model proves the layout and arithmetic around them, not their values.
- The spot cutoffs are stored as cos(radians(angle)) in the C++. The model keeps them as the symbolic value Cosine(angle), because it has no trigonometry.
- Floats are exact reals. There is no single-precision rounding, so for instance Theta += pi/(q-1) drifting from j·pi/(q-1) is not modelled.
- std::rand, std::srand and std::time in SetPosition are the `rand` stream and `randMax` parameters. Candidate k uses rand values 3k, 3k+1 and 3k+2.
- glfwGetKey, glfwGetCursorPos, glfwGetMouseButton, glfwGetTime and the window are explicit parameters. glfwSetCursor and glfwSetInputMode become the `cursor` and `cursorMode` fields. glPolygonMode becomes the `polygonMode` field.
- The function-static latches of HandleKeyPress and the static WireFrameEnabled of KeyButtonCallback become fields of the object. For the single Light and Camera of the scene this is the same state. The unused isKeyPressed1..3 members are not modelled.
- The uninitialised members are parameters instead of undefined values: the three category flags (Light.h lines 92-94; the statements in the Light constructor do nothing) and sphereRadius (Sphere.h line 72).
- The memory defects are not modelled. CreateSphere's local arrays shadow the members the destructor deletes, and the light objects are allocated with new and never freed.
- The RimLight values set in InitializeLights are unused locals and are not modelled. So are the rimLights vector and the rim uniform locations that RenderRimLight looks up and never writes.
- Camera::firstMouse is set but never read, so it is only a field.
- The std::cout logging (MouseScroll, the failed skybox load) is I/O. A failed face load is reported by the index list `failed` of LoadCubeMapFaces.
- The generic Light::lightObj member (Light.h line 91) is only built, with its program handle given, and never drawn. Main's myLightObj (Main.cpp line 111) is not modelled: it is built, which creates a program and a mesh, and never used by the lighting.
- ShaderLoader.cpp, Texture.cpp, stb_image and the window bootstrap of Main.cpp are file I/O and GL setup. The program handles ShaderLoader::CreateProgram returns to the LightObj constructors are parameters of the Light constructor. Main's lighting dispatch is its only part modelled, as LightingFrame.
- glm::distance is not computed, because the model has no square root. IsOverlapping uses the equivalent squared-distance test, and DistanceTest proves the equivalence for any non-negative root.
- Each glUniform call is one (name, value) entry of a write list. WritePointLight, WriteSpotLight and the zeroing loops issue a block of these entries through SetUniforms, in the same order and with the same values as the C++ statements.
