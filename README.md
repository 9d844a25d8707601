# WorldWind Android: draw context, sensor and visibility drawables

A Dafny model of the rendering core of WorldWind Android that draws an
omnidirectional sensor and a visibility mockup over the terrain.

**Draw context.** `DrawContexts.DrawContext` is the per-surface object that every
drawable receives. The model covers:
- the frame's matrices and the drawable and terrain queues;
- the cache of GL bindings: framebuffer, program, active texture unit, 32 texture
  units, and the array and element-array buffers;
- the lazily built shared resources: the scratch framebuffer and the unit sphere,
  sphere index, square and circle buffers;
- the scratch byte buffer and pixel readback.

**The driver.** The GL driver is represented by three fields:
- `gl` is the slice of driver state the drawables set and restore: framebuffer,
  viewport, colour mask, polygon offset, depth test and function, and the
  texture-coordinate attribute;
- `calls` logs, in order, every modelled call into the driver or into a shader program, the
  binds the cache issues for terrain vertex buffers included; a terrain chunk's own drawing is
  the single call DrawTerrainTriangles;
- `direct` is the same log without the binds that the cache issues.

Each drawing method is proved against a function that gives the calls it makes,
given the outcome of every bind. Lemmas then say what those calls draw and what
state they leave.

**Modules.**
- `BindingCache` is the bind cache as a pure function, with lemmas about repeated
  binds and about agreement with the driver.
- `UnitShapes` holds the sphere's triangle-strip indices (closed form, bounds,
  16-bit fit) and the unit circle outline.
- `PixelReadback` converts RGBA bytes to colours and collects the distinct colours.
- `Resources` holds the GL object values, the byte buffer and the drawable queue.
- `Collaborators` holds the bind operations of the GL object classes, as oracles.
- `TerrainPasses` is the per-chunk terrain loop shared by all passes.
- `SensorDrawables`, `SensorRangeDrawables` and `MockupDrawables` are the three
  drawables.
- `Shapes` holds the two shapes that build the drawables and the program registry
  of the render context.

**What each drawable does.**
- The sensor drawable scans five cube-map faces. For each face it captures the
  terrain's depth into the scratch framebuffer, then draws the occlusion pass only
  when the capture bound.
- The range drawable draws the unit sphere with an inverted depth test.
- The mockup captures the viewer's depth, draws the terrain's visibility and
  shows the depth texture on a screen square.

## Model

| member | source | states |
|---|---|---|
| BindingCache.Step | worldwind/src/main/java/gov/nasa/worldwind/draw/DrawContext.java:165-305 | one bind against the cache: a framebuffer, program, unit or texture bind issues a driver call exactly when the requested name differs from the cached one; a buffer bind always issues one call; the unit changes only on a unit activation; a texture bind changes only the active unit's slot |
| BindingCache.BindIsRemembered | worldwind/src/main/java/gov/nasa/worldwind/draw/DrawContext.java:165-305 | after a bind, the cache reports the requested name as current (for buffers, for the two tracked targets) |
| BindingCache.UntrackedBufferTarget | worldwind/src/main/java/gov/nasa/worldwind/draw/DrawContext.java:278-305 | a bind to a target other than GL_ARRAY_BUFFER / GL_ELEMENT_ARRAY_BUFFER is forwarded and leaves the cache unchanged; its current buffer reads 0 |
| BindingCache.RepeatedBindsIssueAtMostOneCall | worldwind/src/main/java/gov/nasa/worldwind/draw/DrawContext.java:165-269 | binding the same framebuffer, program, unit or texture n >= 1 times issues one driver call if the name differed and none otherwise, and ends in the state of a single bind |
| BindingCache.RepeatedBufferBindsAreNotElided | worldwind/src/main/java/gov/nasa/worldwind/draw/DrawContext.java:295-305 | n binds of the same buffer issue n identical driver calls, and the buffer is then current |
| BindingCache.Issue | worldwind/src/main/java/gov/nasa/worldwind/draw/DrawContext.java:165-305 | the driver side of a bind call keeps 32 texture slots |
| BindingCache.Replay | worldwind/src/main/java/gov/nasa/worldwind/draw/DrawContext.java:165-305 | replaying driver calls keeps 32 texture slots |
| BindingCache.StepMirrorsDriver | worldwind/src/main/java/gov/nasa/worldwind/draw/DrawContext.java:165-305 | the cache after a bind equals the driver state obtained by replaying the calls the bind issued: eliding a call never loses a binding |
| BindingCache.RepeatMirrorsDriver | worldwind/src/main/java/gov/nasa/worldwind/draw/DrawContext.java:165-305 | the same agreement holds for any number of repeated binds |
| BindingCache.ReplayAppend | worldwind/src/main/java/gov/nasa/worldwind/draw/DrawContext.java:165-305 | replaying two call logs in sequence equals replaying their concatenation |
| Collaborators.UseShaderProgram | worldwind/src/main/java/gov/nasa/worldwind/draw/DrawableOmnidirectionalSensor.java:54 | the program is used exactly when it builds; then it is the current program; otherwise no call is made |
| Collaborators.BindFramebufferObject | worldwind/src/main/java/gov/nasa/worldwind/draw/DrawableOmnidirectionalSensor.java:82 | on success the framebuffer is the driver's render target; on failure nothing changes |
| Collaborators.BindTextureObject | worldwind/src/main/java/gov/nasa/worldwind/draw/DrawableOmnidirectionalSensor.java:131 | on success the texture is bound to the active unit and every other unit keeps its texture; on failure nothing changes |
| Collaborators.BindBufferObject | worldwind/src/main/java/gov/nasa/worldwind/draw/DrawableOmnidirectionalSensorRange.java:50 | on success exactly one bind call is made and the buffer is current for its target; the other target is untouched; on failure nothing changes |
| DrawContexts.UnitSphereIndices | worldwind/src/main/java/gov/nasa/worldwind/draw/DrawContext.java:368-403 | 28796 indices, index p being the closed-form strip index SphereIndexAt(p, 120) |
| DrawContexts.BuildSphereElements | worldwind/src/main/java/gov/nasa/worldwind/draw/DrawContext.java:368-403 | an element-array buffer of shorts, two bytes per index, holding exactly the closed-form strip of the grid |
| DrawContexts.DrawContext.Snapshot | worldwind/src/main/java/gov/nasa/worldwind/draw/DrawContext.java:63-89 | the binding cache's view of the context has 32 texture slots |
| DrawContexts.DrawContext.constructor | worldwind/src/main/java/gov/nasa/worldwind/draw/DrawContext.java:63-92 | a fresh context: every binding 0 and unit GL_TEXTURE0, default driver state, empty logs, a 4-byte scratch buffer, no queues, no picking, no lazy resources |
| DrawContexts.DrawContext.Reset | worldwind/src/main/java/gov/nasa/worldwind/draw/DrawContext.java:94-110 | the view state is back to defaults (zero eye point and viewport, identity matrices), queues and picking are cleared, the scratch buffer is cleared and the scratch list emptied; bindings are kept |
| DrawContexts.DrawContext.ResetView | worldwind/src/main/java/gov/nasa/worldwind/draw/DrawContext.java:95-101 | eye point and viewport are zero and every matrix is the identity |
| DrawContexts.DrawContext.ResetQueuesAndPicking | worldwind/src/main/java/gov/nasa/worldwind/draw/DrawContext.java:102-107 | queues, picked objects and pick state are cleared |
| DrawContexts.DrawContext.ContextLost | worldwind/src/main/java/gov/nasa/worldwind/draw/DrawContext.java:112-123 | every binding returns to 0 / GL_TEXTURE0 with all 32 texture slots 0; the scratch framebuffer, circle and square buffers are dropped; the sphere buffers are kept, as written; no driver call is made, and the driver state is the defaults of the new context the platform has created; the names the context has handed out stay below the next one |
| DrawContexts.DrawContext.ForgetBindings | worldwind/src/main/java/gov/nasa/worldwind/draw/DrawContext.java:114-118 | framebuffer, program, array and element buffers are 0 and the unit is GL_TEXTURE0 |
| DrawContexts.DrawContext.ClearTextureSlots | worldwind/src/main/java/gov/nasa/worldwind/draw/DrawContext.java:122 | all 32 texture slots are 0 |
| DrawContexts.DrawContext.GlCall | worldwind/src/main/java/gov/nasa/worldwind/draw/DrawableOmnidirectionalSensor.java:88-94 | a direct driver call changes the driver state as the call does and is appended to both logs |
| DrawContexts.DrawContext.IssueBind | worldwind/src/main/java/gov/nasa/worldwind/draw/DrawContext.java:165-305 | a bind issued by the cache changes the driver state and is logged, but not among the direct calls |
| DrawContexts.DrawContext.CurrentFramebuffer | worldwind/src/main/java/gov/nasa/worldwind/draw/DrawContext.java:152-154 | the cached framebuffer is the one the driver renders into |
| DrawContexts.DrawContext.BindFramebuffer | worldwind/src/main/java/gov/nasa/worldwind/draw/DrawContext.java:165-170 | the framebuffer becomes current; the cache and the log change exactly as BindingCache.Step says; the driver renders into it |
| DrawContexts.DrawContext.UseProgram | worldwind/src/main/java/gov/nasa/worldwind/draw/DrawContext.java:204-209 | the program becomes current; the cache and log change as BindingCache.Step says |
| DrawContexts.DrawContext.ActiveTextureUnit | worldwind/src/main/java/gov/nasa/worldwind/draw/DrawContext.java:227-232 | the unit becomes current; the cache and log change as BindingCache.Step says |
| DrawContexts.DrawContext.CurrentTexture | worldwind/src/main/java/gov/nasa/worldwind/draw/DrawContext.java:252-255 | the texture cached for the given unit's slot |
| DrawContexts.DrawContext.CurrentActiveTexture | worldwind/src/main/java/gov/nasa/worldwind/draw/DrawContext.java:240-243 | the texture of the active unit |
| DrawContexts.DrawContext.BindTexture | worldwind/src/main/java/gov/nasa/worldwind/draw/DrawContext.java:263-269 | the texture is current on the active unit, the other units keep theirs, and the call is elided when it was already bound |
| DrawContexts.DrawContext.CurrentBuffer | worldwind/src/main/java/gov/nasa/worldwind/draw/DrawContext.java:278-286 | the buffer cached for the target; 0 for any other target |
| DrawContexts.DrawContext.BindBuffer | worldwind/src/main/java/gov/nasa/worldwind/draw/DrawContext.java:295-305 | the buffer is current for a tracked target, and one bind call is always logged, as written |
| DrawContexts.DrawContext.PeekDrawable | worldwind/src/main/java/gov/nasa/worldwind/draw/DrawContext.java:125-127 | the queue's drawable at its cursor, none when the queue is absent or used up |
| DrawContexts.DrawContext.PollDrawable | worldwind/src/main/java/gov/nasa/worldwind/draw/DrawContext.java:129-131 | returns what a peek returns and advances the cursor past it |
| DrawContexts.DrawContext.RewindDrawables | worldwind/src/main/java/gov/nasa/worldwind/draw/DrawContext.java:133-137 | the cursor is back at the first drawable and the contents are unchanged |
| DrawContexts.DrawContext.GetDrawableTerrainCount | worldwind/src/main/java/gov/nasa/worldwind/draw/DrawContext.java:139-141 | the number of terrain chunks, 0 when there is no terrain queue |
| DrawContexts.DrawContext.GetDrawableTerrain | worldwind/src/main/java/gov/nasa/worldwind/draw/DrawContext.java:143-145 | the chunk at an index exactly when the index is in range |
| DrawContexts.DrawContext.NewSerial | worldwind/src/main/java/gov/nasa/worldwind/draw/DrawContext.java:172-186 | a GL object created now gets a name that no cached object has and that every later name exceeds; the context keeps every cached name below the next one |
| DrawContexts.DrawContext.ScratchFramebuffer | worldwind/src/main/java/gov/nasa/worldwind/draw/DrawContext.java:172-186 | built once: 1024 x 1024 RGBA colour and 32-bit depth attachments under three new names; later calls return the same framebuffer |
| DrawContexts.DrawContext.UnitSphereBuffer | worldwind/src/main/java/gov/nasa/worldwind/draw/DrawContext.java:335-365 | built once: a 120 x 120 x 3 float array buffer; later calls return the same buffer |
| DrawContexts.DrawContext.UnitSphereElements | worldwind/src/main/java/gov/nasa/worldwind/draw/DrawContext.java:368-403 | built once: the 28796 closed-form strip indices; later calls return the same buffer |
| DrawContexts.DrawContext.UnitSquareBuffer | worldwind/src/main/java/gov/nasa/worldwind/draw/DrawContext.java:414-432 | built once: the four corners of the unit square, two floats each; later calls return the same buffer |
| DrawContexts.RebuildSquareAfterContextLost | worldwind/src/main/java/gov/nasa/worldwind/draw/DrawContext.java:112-123 | after a lost context the unit square is rebuilt under a name above every name cached before the loss |
| DrawContexts.DrawContext.UnitCircleBuffer | worldwind/src/main/java/gov/nasa/worldwind/draw/DrawContext.java:307-333 | built once, with the corrected loop: the closed circle outline; later calls return the same buffer |
| DrawContexts.DrawContext.ScratchBuffer | worldwind/src/main/java/gov/nasa/worldwind/draw/DrawContext.java:512-518 | a buffer of at least the requested capacity that never shrinks; it is reallocated only when it is too small |
| DrawContexts.DrawContext.ReadPixelColor | worldwind/src/main/java/gov/nasa/worldwind/draw/DrawContext.java:445-462 | one ReadPixels call; the colour is the first pixel's bytes, read unsigned and divided by 255, each component in [0, 1]; the scratch buffer is cleared with room for at least 4 bytes, and the relative read of the pixel leaves its position at 4 |
| DrawContexts.DrawContext.ReadPixelColors | worldwind/src/main/java/gov/nasa/worldwind/draw/DrawContext.java:475-500 | one ReadPixels call; a colour is returned exactly when some pixel of the rectangle has it; there are no more colours than pixels; the scratch buffer is cleared with room for 4 bytes per pixel, and the per-pixel relative reads leave its position at 4 times the pixel count (0 when width times height is negative) |
| Gles.Apply | worldwind/src/main/java/gov/nasa/worldwind/draw/DrawableOmnidirectionalSensor.java:86-94 | loads and draws leave the driver state alone, and only a framebuffer bind changes the render target |
| Gles.Draws | worldwind/src/main/java/gov/nasa/worldwind/draw/DrawableOmnidirectionalSensor.java:112 | the draw calls of a log, a subsequence of it |
| Gles.DrawsAppend | worldwind/src/main/java/gov/nasa/worldwind/draw/DrawableOmnidirectionalSensor.java:96-121 | the draws of a concatenation are the draws of each part, in order |
| Gles.RunAppend | worldwind/src/main/java/gov/nasa/worldwind/draw/DrawableOmnidirectionalSensor.java:86-121 | running two logs in sequence is running their concatenation |
| Gles.RunOfLoadsAndDraws | worldwind/src/main/java/gov/nasa/worldwind/draw/DrawableOmnidirectionalSensor.java:106-112 | a log of uniform loads and draws leaves the driver state unchanged |
| PixelReadback.UnsignedByte | worldwind/src/main/java/gov/nasa/worldwind/draw/DrawContext.java:456 | a signed Java byte masked with 0xFF: in [0, 255], unchanged when non-negative, plus 256 when negative |
| PixelReadback.Component | worldwind/src/main/java/gov/nasa/worldwind/draw/DrawContext.java:456-459 | a colour component is in [0, 1] |
| PixelReadback.ComponentInjective | worldwind/src/main/java/gov/nasa/worldwind/draw/DrawContext.java:456-459 | two bytes give the same component exactly when they are equal |
| PixelReadback.SameColorIffSameBytes | worldwind/src/main/java/gov/nasa/worldwind/draw/DrawContext.java:484-498 | two pixels have the same colour exactly when their four bytes are equal, so the colour set is the set of distinct pixel values |
| PixelReadback.CollectColors | worldwind/src/main/java/gov/nasa/worldwind/draw/DrawContext.java:484-498 | the loop over the pixels collects exactly the colours some pixel has |
| PixelReadback.DistinctColorsBounded | worldwind/src/main/java/gov/nasa/worldwind/draw/DrawContext.java:475-500 | at most one colour per pixel, each component in [0, 1] |
| PixelReadback.UniformFrame | worldwind/src/main/java/gov/nasa/worldwind/draw/DrawContext.java:475-500 | a rectangle of identical pixels yields exactly one colour |
| Resources.ByteBuffer.Clear | worldwind/src/main/java/gov/nasa/worldwind/draw/DrawContext.java:108 | position 0 and limit equal to capacity, capacity kept |
| Resources.ByteBuffer.Get | worldwind/src/main/java/gov/nasa/worldwind/draw/DrawContext.java:453 | a relative get of n bytes moves the position n bytes on and keeps capacity and limit |
| Resources.AllocateDirect | worldwind/src/main/java/gov/nasa/worldwind/draw/DrawContext.java:514 | a new buffer of the capacity, cleared |
| Resources.DrawableQueue.GetDrawable | worldwind/src/main/java/gov/nasa/worldwind/draw/DrawContext.java:143-145 | the item at an index exactly when it is in range |
| Resources.DrawableQueue.PeekDrawable | worldwind/src/main/java/gov/nasa/worldwind/draw/DrawContext.java:125-127 | the item at the cursor, none when the cursor is past the end |
| Resources.DrawableQueue.PollDrawable | worldwind/src/main/java/gov/nasa/worldwind/draw/DrawContext.java:129-131 | the peeked item, with the cursor advanced past it and the items unchanged |
| Resources.DrawableQueue.RewindDrawables | worldwind/src/main/java/gov/nasa/worldwind/draw/DrawContext.java:133-137 | the same items with the cursor at 0 |
| Resources.PollAllYieldsRemaining | worldwind/src/main/java/gov/nasa/worldwind/draw/DrawContext.java:129-131 | polling until none yields exactly the items from the cursor onwards, in order |
| Resources.RewindThenPollAllYieldsAll | worldwind/src/main/java/gov/nasa/worldwind/draw/DrawContext.java:133-137 | after a rewind, polling yields every item in order |
| Resources.PollAllExhausts | worldwind/src/main/java/gov/nasa/worldwind/draw/DrawContext.java:129-131 | after polling until none, the cursor is at the end and further polls yield nothing |
| SensorDrawables.DepthCaptureState | worldwind/src/main/java/gov/nasa/worldwind/draw/DrawableOmnidirectionalSensor.java:88-94 | the capture state: the scratch framebuffer, no colour writes, polygon offset 4, 2 on; depth settings kept |
| SensorDrawables.AmbientState | worldwind/src/main/java/gov/nasa/worldwind/draw/DrawableOmnidirectionalSensor.java:114-121 | the restored state: the default framebuffer, the context's viewport, all colour writes, polygon offset off and 0, 0 |
| SensorDrawables.FaceCallsDraw | worldwind/src/main/java/gov/nasa/worldwind/draw/DrawableOmnidirectionalSensor.java:65-76 | a face draws its depth pass's chunks into the capture state and then, when the depth texture binds, its occlusion pass's chunks in the ambient state |
| SensorDrawables.FailedDepthPassDrawsNothing | worldwind/src/main/java/gov/nasa/worldwind/draw/DrawableOmnidirectionalSensor.java:73-74 | a face whose framebuffer does not bind draws nothing, and its occlusion pass is skipped |
| SensorDrawables.ScanCallsDraw | worldwind/src/main/java/gov/nasa/worldwind/draw/DrawableOmnidirectionalSensor.java:65-76 | the draws of the first k faces are the faces' draws in order |
| SensorDrawables.DrawCallsDraw | worldwind/src/main/java/gov/nasa/worldwind/draw/DrawableOmnidirectionalSensor.java:59-76 | a sensor draw draws exactly the five faces' draws; the uniform loads draw nothing |
| SensorDrawables.FaceDrawsAllBind | worldwind/src/main/java/gov/nasa/worldwind/draw/DrawableOmnidirectionalSensor.java:79-158 | when every bind succeeds, a face draws each chunk once into the capture and once in the ambient state, in chunk order |
| SensorDrawables.ScanDrawsAllBind | worldwind/src/main/java/gov/nasa/worldwind/draw/DrawableOmnidirectionalSensor.java:65-76 | when every bind succeeds, k faces make 2 k n terrain draws for n chunks |
| SensorDrawables.CaptureAfterRestore | worldwind/src/main/java/gov/nasa/worldwind/draw/DrawableOmnidirectionalSensor.java:86-121 | restoring then capturing is the same as capturing directly, and restoring twice is the same as restoring once, so every face starts from the same state |
| SensorDrawables.BeginDepthCapture | worldwind/src/main/java/gov/nasa/worldwind/draw/DrawableOmnidirectionalSensor.java:86-94 | viewport set to the depth texture's size, no colour writes, polygon offset 4, 2 on |
| SensorDrawables.RestoreAmbient | worldwind/src/main/java/gov/nasa/worldwind/draw/DrawableOmnidirectionalSensor.java:114-121 | the default framebuffer is bound again and the ambient state is restored, in every outcome |
| SensorDrawables.RestoreAmbientState | worldwind/src/main/java/gov/nasa/worldwind/draw/DrawableOmnidirectionalSensor.java:117-120 | viewport, colour mask and polygon offset are back to the context's defaults |
| SensorDrawables.DrawableOmnidirectionalSensor.constructor | worldwind/src/main/java/gov/nasa/worldwind/draw/DrawableOmnidirectionalSensor.java:19-45 | identity transform, zero range, no program, default colours and matrices |
| SensorDrawables.DrawableOmnidirectionalSensor.Draw | worldwind/src/main/java/gov/nasa/worldwind/draw/DrawableOmnidirectionalSensor.java:53-77 | nothing happens without a program that builds (no call, and the driver state, binding cache, serial counter and lazy caches are unchanged); otherwise the calls are the range and colour loads followed by the five faces' scans, and the ambient state is restored |
| SensorDrawables.DrawableOmnidirectionalSensor.DrawWithProgram | worldwind/src/main/java/gov/nasa/worldwind/draw/DrawableOmnidirectionalSensor.java:59-76 | with the program in use: the loads, then the face loop, ending in the ambient state |
| SensorDrawables.DrawableOmnidirectionalSensor.LoadSensorUniforms | worldwind/src/main/java/gov/nasa/worldwind/draw/DrawableOmnidirectionalSensor.java:59-60 | the range and the two colours are loaded, without changing the driver state |
| SensorDrawables.DrawableOmnidirectionalSensor.ScanFaces | worldwind/src/main/java/gov/nasa/worldwind/draw/DrawableOmnidirectionalSensor.java:65-76 | the loop over the five faces makes exactly the scan's calls and leaves the ambient state |
| SensorDrawables.DrawableOmnidirectionalSensor.ScanFace | worldwind/src/main/java/gov/nasa/worldwind/draw/DrawableOmnidirectionalSensor.java:65-76 | one iteration extends the calls of faces 0 .. idx-1 to those of 0 .. idx |
| SensorDrawables.DrawableOmnidirectionalSensor.DrawFace | worldwind/src/main/java/gov/nasa/worldwind/draw/DrawableOmnidirectionalSensor.java:66-75 | one face: its view matrix, its depth pass, and its occlusion pass only if the depth pass succeeded |
| SensorDrawables.DrawableOmnidirectionalSensor.DrawSceneDepth | worldwind/src/main/java/gov/nasa/worldwind/draw/DrawableOmnidirectionalSensor.java:79-124 | reports whether the framebuffer bound; when it did, the terrain is captured; either way the default framebuffer and ambient state are restored |
| SensorDrawables.DrawableOmnidirectionalSensor.BindAndCaptureDepth | worldwind/src/main/java/gov/nasa/worldwind/draw/DrawableOmnidirectionalSensor.java:81-113 | on a failed bind nothing is drawn and the state is unchanged; otherwise the capture state is set and the terrain pass is drawn |
| SensorDrawables.DrawableOmnidirectionalSensor.CaptureDepth | worldwind/src/main/java/gov/nasa/worldwind/draw/DrawableOmnidirectionalSensor.java:86-113 | clear, capture state, and the depth pass over every chunk |
| SensorDrawables.DrawableOmnidirectionalSensor.DrawSceneOcclusion | worldwind/src/main/java/gov/nasa/worldwind/draw/DrawableOmnidirectionalSensor.java:126-158 | unit 0 becomes active; the depth attachment is bound to it; the terrain is drawn only when it bound; the driver state is unchanged |
| SensorDrawables.DrawableOmnidirectionalSensor.BindAndDrawOcclusion | worldwind/src/main/java/gov/nasa/worldwind/draw/DrawableOmnidirectionalSensor.java:130-157 | the terrain loop runs only when the depth texture binds |
| SensorRangeDrawables.StyleCallsAreLoads | worldwind/src/main/java/gov/nasa/worldwind/draw/DrawableOmnidirectionalSensorRange.java:43-47 | the style calls are uniform loads only |
| SensorRangeDrawables.RangeDraws | worldwind/src/main/java/gov/nasa/worldwind/draw/DrawableOmnidirectionalSensorRange.java:49-69 | the sphere is drawn once, as a strip of all the element buffer's indices with depth function GL_GREATER, when both buffers bind; otherwise nothing is drawn |
| SensorRangeDrawables.StyleDrawsNothing | worldwind/src/main/java/gov/nasa/worldwind/draw/DrawableOmnidirectionalSensorRange.java:43-47 | loading the style draws nothing |
| SensorRangeDrawables.SphereDraws | worldwind/src/main/java/gov/nasa/worldwind/draw/DrawableOmnidirectionalSensorRange.java:59-71 | the only draw is the strip with depth function GL_GREATER |
| SensorRangeDrawables.SphereEffect | worldwind/src/main/java/gov/nasa/worldwind/draw/DrawableOmnidirectionalSensorRange.java:65-71 | the strip is drawn with GL_GREATER and the depth function ends up GL_LEQUAL |
| SensorRangeDrawables.RangeDrawState | worldwind/src/main/java/gov/nasa/worldwind/draw/DrawableOmnidirectionalSensorRange.java:65-69 | the draw is issued with the depth function GL_GREATER |
| SensorRangeDrawables.RangeEffect | worldwind/src/main/java/gov/nasa/worldwind/draw/DrawableOmnidirectionalSensorRange.java:38-72 | a draw leaves the depth function GL_LEQUAL when the sphere was drawn, and the state unchanged otherwise |
| SensorRangeDrawables.LoadRangeStyle | worldwind/src/main/java/gov/nasa/worldwind/draw/DrawableOmnidirectionalSensorRange.java:43-47 | no pick mode, no texture, white at half opacity; driver state unchanged |
| SensorRangeDrawables.DrawSphere | worldwind/src/main/java/gov/nasa/worldwind/draw/DrawableOmnidirectionalSensorRange.java:59-71 | the sphere's matrix, GL_GREATER, the attribute pointer, the strip, GL_LEQUAL |
| SensorRangeDrawables.DrawableOmnidirectionalSensorRange.constructor | worldwind/src/main/java/gov/nasa/worldwind/draw/DrawableOmnidirectionalSensorRange.java:17-30 | identity transform, zero range, no program, default colours |
| SensorRangeDrawables.DrawableOmnidirectionalSensorRange.Draw | worldwind/src/main/java/gov/nasa/worldwind/draw/DrawableOmnidirectionalSensorRange.java:38-72 | nothing happens without a program that builds (no call, and the driver state, binding cache, serial counter and lazy caches are unchanged); otherwise the style, then the sphere only when both buffers bind; the last seven calls are the two binds and the sphere calls, and both buffers are then current |
| SensorRangeDrawables.DrawableOmnidirectionalSensorRange.DrawInUse | worldwind/src/main/java/gov/nasa/worldwind/draw/DrawableOmnidirectionalSensorRange.java:43-71 | the draw once the program is in use |
| SensorRangeDrawables.DrawableOmnidirectionalSensorRange.BindSphereBuffers | worldwind/src/main/java/gov/nasa/worldwind/draw/DrawableOmnidirectionalSensorRange.java:49-57 | the element buffer is tried only after the vertex buffer bound; both are current on success |
| SensorRangeDrawables.DrawableOmnidirectionalSensorRange.BindSphereElements | worldwind/src/main/java/gov/nasa/worldwind/draw/DrawableOmnidirectionalSensorRange.java:54-57 | the element buffer holds 28796 indices and is current on success; the array buffer is untouched |
| SensorRangeDrawables.DrawableOmnidirectionalSensorRange.DrawRange | worldwind/src/main/java/gov/nasa/worldwind/draw/DrawableOmnidirectionalSensorRange.java:59-71 | with both buffers bound: the sphere calls, ending with GL_LEQUAL |
| MockupDrawables.CaptureState | worldwind/src/main/java/gov/nasa/worldwind/shape/DrawableVisibilityMockup.java:63-75 | the capture state: the scratch framebuffer, a 1024 x 1024 viewport, no colour writes |
| MockupDrawables.RestoredState | worldwind/src/main/java/gov/nasa/worldwind/shape/DrawableVisibilityMockup.java:95-100 | the restored state: the default framebuffer, the context's viewport, all colour writes |
| MockupDrawables.SquareLoadsAreLoads | worldwind/src/main/java/gov/nasa/worldwind/shape/DrawableVisibilityMockup.java:166-176 | the screen pass's program settings are uniform loads only |
| MockupDrawables.ScreenDraws | worldwind/src/main/java/gov/nasa/worldwind/shape/DrawableVisibilityMockup.java:149-192 | the screen pass draws one four-vertex strip, with depth test off, when it is ready, and nothing otherwise |
| MockupDrawables.SquarePrepareEffect | worldwind/src/main/java/gov/nasa/worldwind/shape/DrawableVisibilityMockup.java:179-184 | the attributes are set up and the depth test is off |
| MockupDrawables.SquarePrepareDrawsNothing | worldwind/src/main/java/gov/nasa/worldwind/shape/DrawableVisibilityMockup.java:179-184 | preparing the square draws nothing |
| MockupDrawables.SquareRestoreEffect | worldwind/src/main/java/gov/nasa/worldwind/shape/DrawableVisibilityMockup.java:190-191 | the depth test is on and the texture-coordinate attribute off |
| MockupDrawables.SquareRestoreDrawsNothing | worldwind/src/main/java/gov/nasa/worldwind/shape/DrawableVisibilityMockup.java:190-191 | restoring draws nothing |
| MockupDrawables.SquareDraws | worldwind/src/main/java/gov/nasa/worldwind/shape/DrawableVisibilityMockup.java:179-191 | the square's only draw is the strip, in the prepared state |
| MockupDrawables.SquareEffect | worldwind/src/main/java/gov/nasa/worldwind/shape/DrawableVisibilityMockup.java:179-191 | after the square, the depth test is on and the texture-coordinate attribute off |
| MockupDrawables.ScreenEffect | worldwind/src/main/java/gov/nasa/worldwind/shape/DrawableVisibilityMockup.java:149-192 | the screen pass changes the driver state only when it draws |
| MockupDrawables.MockupCallsDraw | worldwind/src/main/java/gov/nasa/worldwind/shape/DrawableVisibilityMockup.java:45-55 | a mockup draws the depth pass's chunks, then the visibility pass's chunks when it is ready, then the square when it is ready |
| MockupDrawables.CaptureDraws | worldwind/src/main/java/gov/nasa/worldwind/shape/DrawableVisibilityMockup.java:57-103 | the capture draws the depth pass's chunks when it bound, and nothing otherwise |
| MockupDrawables.CaptureCleanupDrawsNothing | worldwind/src/main/java/gov/nasa/worldwind/shape/DrawableVisibilityMockup.java:95-100 | the cleanup draws nothing |
| MockupDrawables.CaptureSetupDrawsNothing | worldwind/src/main/java/gov/nasa/worldwind/shape/DrawableVisibilityMockup.java:68-75 | the setup draws nothing |
| MockupDrawables.VisibilityDraws | worldwind/src/main/java/gov/nasa/worldwind/shape/DrawableVisibilityMockup.java:105-147 | the visibility pass draws its chunks when it is ready, and nothing otherwise |
| MockupDrawables.FailedCaptureDrawsNothing | worldwind/src/main/java/gov/nasa/worldwind/shape/DrawableVisibilityMockup.java:49-51 | when the capture fails, nothing at all is drawn |
| MockupDrawables.PassTargets | worldwind/src/main/java/gov/nasa/worldwind/shape/DrawableVisibilityMockup.java:57-147 | every terrain draw goes either to the scratch framebuffer without colour or to the screen with colour, for a chunk that exists |
| MockupDrawables.RestoreCapture | worldwind/src/main/java/gov/nasa/worldwind/shape/DrawableVisibilityMockup.java:95-100 | the default framebuffer is bound again and the viewport and colour mask are restored |
| MockupDrawables.RestoreViewportAndColor | worldwind/src/main/java/gov/nasa/worldwind/shape/DrawableVisibilityMockup.java:98-99 | the viewport and colour mask are restored |
| MockupDrawables.BeginCapture | worldwind/src/main/java/gov/nasa/worldwind/shape/DrawableVisibilityMockup.java:69-75 | the viewport is the depth texture's size and colour writes are off |
| MockupDrawables.LoadSquareUniforms | worldwind/src/main/java/gov/nasa/worldwind/shape/DrawableVisibilityMockup.java:166-176 | pick mode, white, texturing, identity texture matrix and the square's matrix are loaded, without changing the driver state |
| MockupDrawables.DrawSquare | worldwind/src/main/java/gov/nasa/worldwind/shape/DrawableVisibilityMockup.java:179-191 | the square is drawn with depth test off, then the defaults are back |
| MockupDrawables.PrepareSquare | worldwind/src/main/java/gov/nasa/worldwind/shape/DrawableVisibilityMockup.java:179-184 | the prepared state |
| MockupDrawables.StripAndRestore | worldwind/src/main/java/gov/nasa/worldwind/shape/DrawableVisibilityMockup.java:187-191 | the strip, then the restore |
| MockupDrawables.DrawableVisibilityMockup.constructor | worldwind/src/main/java/gov/nasa/worldwind/shape/DrawableVisibilityMockup.java:24-37 | no programs, identity viewer matrix |
| MockupDrawables.DrawableVisibilityMockup.Draw | worldwind/src/main/java/gov/nasa/worldwind/shape/DrawableVisibilityMockup.java:45-55 | nothing happens without a program that builds (no call, and the driver state, binding cache, serial counter and lazy caches are unchanged); otherwise the calls are those of the mockup, and the driver ends in its final state |
| MockupDrawables.DrawableVisibilityMockup.DrawInUse | worldwind/src/main/java/gov/nasa/worldwind/shape/DrawableVisibilityMockup.java:48-54 | the capture, then the two passes only when it succeeded |
| MockupDrawables.DrawableVisibilityMockup.DrawPasses | worldwind/src/main/java/gov/nasa/worldwind/shape/DrawableVisibilityMockup.java:52-53 | the visibility pass, then the screen pass |
| MockupDrawables.DrawableVisibilityMockup.DrawSceneToFramebuffer | worldwind/src/main/java/gov/nasa/worldwind/shape/DrawableVisibilityMockup.java:57-103 | reports success exactly when the program builds and the framebuffer binds; the cleanup runs in every case |
| MockupDrawables.DrawableVisibilityMockup.BindAndCapture | worldwind/src/main/java/gov/nasa/worldwind/shape/DrawableVisibilityMockup.java:63-94 | on a failed bind nothing is drawn and the state is unchanged; otherwise the capture |
| MockupDrawables.DrawableVisibilityMockup.BindAndCaptureInto | worldwind/src/main/java/gov/nasa/worldwind/shape/DrawableVisibilityMockup.java:64-94 | the capture into a given framebuffer |
| MockupDrawables.DrawableVisibilityMockup.CaptureSceneDepth | worldwind/src/main/java/gov/nasa/worldwind/shape/DrawableVisibilityMockup.java:68-94 | the setup and the depth pass over every chunk |
| MockupDrawables.DrawableVisibilityMockup.DrawSceneVisibility | worldwind/src/main/java/gov/nasa/worldwind/shape/DrawableVisibilityMockup.java:105-147 | nothing without the mockup program; otherwise unit 0 and the depth texture, and the terrain only when it bound; the driver state is unchanged |
| MockupDrawables.DrawableVisibilityMockup.DrawVisibilityWithProgram | worldwind/src/main/java/gov/nasa/worldwind/shape/DrawableVisibilityMockup.java:111-146 | with the program in use: unit 0, the depth texture, and the terrain only when it bound |
| MockupDrawables.DrawableVisibilityMockup.BindAndDrawVisibility | worldwind/src/main/java/gov/nasa/worldwind/shape/DrawableVisibilityMockup.java:113-146 | the terrain only when the texture bound |
| MockupDrawables.DrawableVisibilityMockup.DrawVisibleTerrain | worldwind/src/main/java/gov/nasa/worldwind/shape/DrawableVisibilityMockup.java:119-146 | white, then the visibility pass over every chunk |
| MockupDrawables.DrawableVisibilityMockup.DrawFramebufferToScreen | worldwind/src/main/java/gov/nasa/worldwind/shape/DrawableVisibilityMockup.java:149-192 | the square is drawn only when the program, the square buffer and the texture are all ready; the state changes only then |
| MockupDrawables.DrawableVisibilityMockup.ShowSquare | worldwind/src/main/java/gov/nasa/worldwind/shape/DrawableVisibilityMockup.java:166-191 | the loads and the square |
| MockupDrawables.DrawableVisibilityMockup.BindSquareAndTexture | worldwind/src/main/java/gov/nasa/worldwind/shape/DrawableVisibilityMockup.java:154-164 | the texture is tried only after the square bound |
| MockupDrawables.DrawableVisibilityMockup.BindDepthTexture | worldwind/src/main/java/gov/nasa/worldwind/shape/DrawableVisibilityMockup.java:159-164 | unit 0 active and the depth attachment bound to it on success |
| Shapes.CopyOf | worldwind/src/main/java/gov/nasa/worldwind/shape/OmnidirectionalSensor.java:41 | a new position with the same coordinates |
| Shapes.LookupOrCreateReuses | worldwind/src/main/java/gov/nasa/worldwind/shape/OmnidirectionalSensor.java:143-146 | a registered program is returned and nothing changes; otherwise one is created under the key and the other entries are kept |
| Shapes.LookupOrCreateIdempotent | worldwind/src/main/java/gov/nasa/worldwind/shape/VisibilityMockup.java:116-124 | a second lookup returns the same program and changes nothing |
| Shapes.LookupAll | worldwind/src/main/java/gov/nasa/worldwind/shape/VisibilityMockup.java:116-124 | one program per key looked up |
| Shapes.OneInstancePerKey | worldwind/src/main/java/gov/nasa/worldwind/shape/VisibilityMockup.java:116-124 | after any series of lookups, every result is the registry's instance for its key, and earlier entries are kept |
| Shapes.ObtainProgram | worldwind/src/main/java/gov/nasa/worldwind/shape/OmnidirectionalSensor.java:143-146 | the get-or-put of the render context is the lookup-or-create |
| Shapes.AliasedPositionFollowsCaller | worldwind/src/main/java/gov/nasa/worldwind/shape/OmnidirectionalSensor.java:56-62 | with the constructor that stores the caller's position, moving that position moves the sensor |
| Shapes.CopiedPositionStaysPut | worldwind/src/main/java/gov/nasa/worldwind/shape/OmnidirectionalSensor.java:30-43 | with the constructor that copies the position, moving the caller's position leaves the sensor where it was |
| Shapes.RenderTwiceSharesPrograms | worldwind/src/main/java/gov/nasa/worldwind/shape/VisibilityMockup.java:89-127 | two renders in one frame offer two drawables that share the two programs, which differ from each other |
| Shapes.Position.constructor | worldwind/src/main/java/gov/nasa/worldwind/shape/OmnidirectionalSensor.java:22 | a position with the given coordinates |
| Shapes.Position.Set | worldwind/src/main/java/gov/nasa/worldwind/shape/OmnidirectionalSensor.java:83 | the coordinates become the other position's |
| Shapes.RenderContext.constructor | worldwind/src/main/java/gov/nasa/worldwind/shape/OmnidirectionalSensor.java:129-148 | an empty registry and no offered drawables |
| Shapes.RenderContext.GetShaderProgram | worldwind/src/main/java/gov/nasa/worldwind/shape/OmnidirectionalSensor.java:143 | the registered program for the key, none when there is none |
| Shapes.RenderContext.NewProgram | worldwind/src/main/java/gov/nasa/worldwind/shape/OmnidirectionalSensor.java:145 | a new program for the key, under a new serial |
| Shapes.RenderContext.PutShaderProgram | worldwind/src/main/java/gov/nasa/worldwind/shape/OmnidirectionalSensor.java:145 | the key is mapped to the program, which is returned |
| Shapes.RenderContext.OfferDrawable | worldwind/src/main/java/gov/nasa/worldwind/shape/VisibilityMockup.java:126 | the drawable is appended to the offered drawables with its group and z-order |
| Shapes.RenderContext.OfferSurfaceDrawable | worldwind/src/main/java/gov/nasa/worldwind/shape/OmnidirectionalSensor.java:147 | the drawable is appended to the surface group |
| Shapes.OmnidirectionalSensor.Init | worldwind/src/main/java/gov/nasa/worldwind/shape/OmnidirectionalSensor.java:22-28 | the position and range given |
| Shapes.OmnidirectionalSensor.WithRange | worldwind/src/main/java/gov/nasa/worldwind/shape/OmnidirectionalSensor.java:30-43 | no position is MissingPosition; a negative range is InvalidRange; otherwise a sensor holding a copy of the position and the range |
| Shapes.OmnidirectionalSensor.WithAttributes | worldwind/src/main/java/gov/nasa/worldwind/shape/OmnidirectionalSensor.java:45-54 | no position is MissingPosition; otherwise a sensor that shares the caller's position and has range 0 |
| Shapes.OmnidirectionalSensor.WithRangeAndAttributes | worldwind/src/main/java/gov/nasa/worldwind/shape/OmnidirectionalSensor.java:56-71 | no position is MissingPosition; a negative range is InvalidRange; otherwise a sensor that shares the position, with the range |
| Shapes.OmnidirectionalSensor.GetReferencePosition | worldwind/src/main/java/gov/nasa/worldwind/shape/OmnidirectionalSensor.java:107-110 | the sensor's position |
| Shapes.OmnidirectionalSensor.GetRange | worldwind/src/main/java/gov/nasa/worldwind/shape/OmnidirectionalSensor.java:87-89 | the range, never negative |
| Shapes.OmnidirectionalSensor.SetPosition | worldwind/src/main/java/gov/nasa/worldwind/shape/OmnidirectionalSensor.java:77-85 | no position is MissingPosition and nothing changes; otherwise the coordinates are copied in and the sensor returned |
| Shapes.OmnidirectionalSensor.SetRange | worldwind/src/main/java/gov/nasa/worldwind/shape/OmnidirectionalSensor.java:91-99 | a negative range is InvalidRange and nothing changes; otherwise the range is set (zero allowed) |
| Shapes.OmnidirectionalSensor.MoveTo | worldwind/src/main/java/gov/nasa/worldwind/shape/OmnidirectionalSensor.java:119-122 | exactly setPosition |
| Shapes.OmnidirectionalSensor.MakeDrawable | worldwind/src/main/java/gov/nasa/worldwind/shape/OmnidirectionalSensor.java:129-148 | a new drawable at the local transform of the position, with the range; the pick colour for both colours in pick mode, otherwise the interior colour and half-transparent red; the registry's sensor program, created once; offered to the surface group at z-order 0 |
| Shapes.VisibilityMockup.Init | worldwind/src/main/java/gov/nasa/worldwind/shape/VisibilityMockup.java:20-43 | absolute altitude, heading 0, field of view 90, near 200, far 20000 |
| Shapes.VisibilityMockup.Create | worldwind/src/main/java/gov/nasa/worldwind/shape/VisibilityMockup.java:36-43 | no position is MissingPosition; otherwise a mockup holding a copy of the position |
| Shapes.VisibilityMockup.GetReferencePosition | worldwind/src/main/java/gov/nasa/worldwind/shape/VisibilityMockup.java:78-81 | the mockup's position |
| Shapes.VisibilityMockup.SetPosition | worldwind/src/main/java/gov/nasa/worldwind/shape/VisibilityMockup.java:49-57 | no position is MissingPosition and nothing changes; otherwise the coordinates are copied in |
| Shapes.VisibilityMockup.SetAltitudeMode | worldwind/src/main/java/gov/nasa/worldwind/shape/VisibilityMockup.java:64-67 | the altitude mode is set and the mockup returned |
| Shapes.VisibilityMockup.SetHeading | worldwind/src/main/java/gov/nasa/worldwind/shape/VisibilityMockup.java:73-76 | the heading is set and the mockup returned |
| Shapes.VisibilityMockup.MoveTo | worldwind/src/main/java/gov/nasa/worldwind/shape/VisibilityMockup.java:83-86 | exactly setPosition |
| Shapes.VisibilityMockup.DoRender | worldwind/src/main/java/gov/nasa/worldwind/shape/VisibilityMockup.java:89-127 | nothing when the terrain sector is empty; otherwise the viewer's matrices, a new drawable with their product and the registry's basic and mockup programs, offered to the screen group |
| TerrainPasses.UniformLoads | worldwind/src/main/java/gov/nasa/worldwind/draw/DrawableOmnidirectionalSensor.java:106-109 | one or two uniform loads per chunk, nothing else |
| TerrainPasses.PassCallsAreLoadsAndDraws | worldwind/src/main/java/gov/nasa/worldwind/draw/DrawableOmnidirectionalSensor.java:96-113 | besides the cache's binds, a terrain pass makes only attribute pointers, uniform loads and terrain draws, none of which changes the driver state |
| TerrainPasses.PassDraws | worldwind/src/main/java/gov/nasa/worldwind/draw/DrawableOmnidirectionalSensor.java:96-113 | the draws of a pass are the terrain draws of the chunks whose attribute binds |
| TerrainPasses.ChunkDraws | worldwind/src/main/java/gov/nasa/worldwind/draw/DrawableOmnidirectionalSensor.java:106-112 | a chunk draws its triangles once |
| TerrainPasses.TerrainDrawsMembership | worldwind/src/main/java/gov/nasa/worldwind/draw/DrawableOmnidirectionalSensor.java:96-113 | a draw belongs to a pass exactly when it is one of its chunks whose attribute binds, drawn in the pass's state |
| TerrainPasses.TerrainDrawsInOrder | worldwind/src/main/java/gov/nasa/worldwind/draw/DrawableOmnidirectionalSensor.java:96-113 | a pass's draws are of existing chunks, in strictly increasing chunk order, so no chunk is drawn twice |
| TerrainPasses.AllChunksBind | worldwind/src/main/java/gov/nasa/worldwind/draw/DrawableOmnidirectionalSensor.java:96-113 | when every attribute binds, chunk j is the pass's j-th draw |
| TerrainPasses.NoChunkBinds | worldwind/src/main/java/gov/nasa/worldwind/draw/DrawableOmnidirectionalSensor.java:102-104 | when no attribute binds, the pass draws nothing |
| TerrainPasses.LoadUniforms | worldwind/src/main/java/gov/nasa/worldwind/draw/DrawableOmnidirectionalSensor.java:106-109 | the chunk's uniforms are loaded |
| TerrainPasses.DrawTerrainPass | worldwind/src/main/java/gov/nasa/worldwind/draw/DrawableOmnidirectionalSensor.java:96-113 | the loop over every chunk makes exactly the pass's own calls and, with the cache's binds, exactly its full log; the driver state is unchanged, the cached array buffer is the vertex buffer of the last chunk that bound (or the earlier one when none did) and the element buffer is kept |
| TerrainPasses.PassStep | worldwind/src/main/java/gov/nasa/worldwind/draw/DrawableOmnidirectionalSensor.java:96-113 | one iteration extends the pass's own calls, its full log and its last bound buffer from chunks 0..idx-1 to 0..idx |
| TerrainPasses.LastBoundBuffer | worldwind/src/main/java/gov/nasa/worldwind/draw/DrawableOmnidirectionalSensor.java:102-104 | the cached array buffer after a pass is the vertex buffer of the last chunk whose attribute bound, or the initial one when none bound |
| TerrainPasses.PassLogDraws | worldwind/src/main/java/gov/nasa/worldwind/draw/DrawableOmnidirectionalSensor.java:96-113 | the full log of a pass, binds included, draws exactly the chunks whose attribute binds, in order |
| TerrainPasses.ChunkLogDraws | worldwind/src/main/java/gov/nasa/worldwind/draw/DrawableOmnidirectionalSensor.java:102-112 | the bind of a chunk's vertex buffer draws nothing, so a chunk's full log draws only its triangles |
| TerrainPasses.DrawChunk | worldwind/src/main/java/gov/nasa/worldwind/draw/DrawableOmnidirectionalSensor.java:98-112 | one chunk: its vertex buffer bound through the cache and current afterwards, the attribute-0 pointer, its uniforms and its triangles, in that order, with the driver state and the element buffer kept |
| UnitShapes.ToShort | worldwind/src/main/java/gov/nasa/worldwind/draw/DrawContext.java:385-386 | the Java cast to short: in the 16-bit range, identity on values already there |
| UnitShapes.StripPairsAt | worldwind/src/main/java/gov/nasa/worldwind/draw/DrawContext.java:384-388 | the row's pairs alternate the upper and lower vertex of each column |
| UnitShapes.RowsLength | worldwind/src/main/java/gov/nasa/worldwind/draw/DrawContext.java:380-397 | each row contributes 2 numLon + 2 indices except the last, which has no join |
| UnitShapes.SphereElementsLength | worldwind/src/main/java/gov/nasa/worldwind/draw/DrawContext.java:377 | the strip has exactly the count the source allocates |
| UnitShapes.DefaultSphereElementCount | worldwind/src/main/java/gov/nasa/worldwind/draw/DrawContext.java:373-377 | for 120 x 120 the count is 28796 |
| UnitShapes.RowsAt | worldwind/src/main/java/gov/nasa/worldwind/draw/DrawContext.java:380-397 | the rows are laid out one after another |
| UnitShapes.SphereStripAt | worldwind/src/main/java/gov/nasa/worldwind/draw/DrawContext.java:380-397 | the index at a row's offset is that row's |
| UnitShapes.SphereStripPair | worldwind/src/main/java/gov/nasa/worldwind/draw/DrawContext.java:384-388 | in row lat, pair j is (j + lat numLon + numLon, j + lat numLon) |
| UnitShapes.SphereStripJoin | worldwind/src/main/java/gov/nasa/worldwind/draw/DrawContext.java:393-396 | between rows the strip repeats the row's last vertex and the first vertex two rows up, forming two degenerate triangles |
| UnitShapes.SphereElementsClosedForm | worldwind/src/main/java/gov/nasa/worldwind/draw/DrawContext.java:380-397 | the strip equals SphereIndexAt at every position |
| UnitShapes.SphereIndexAtPosition | worldwind/src/main/java/gov/nasa/worldwind/draw/DrawContext.java:380-397 | one position of the closed form |
| UnitShapes.RowsBounded | worldwind/src/main/java/gov/nasa/worldwind/draw/DrawContext.java:380-397 | every index of the rows names a vertex of the grid |
| UnitShapes.RowBounded | worldwind/src/main/java/gov/nasa/worldwind/draw/DrawContext.java:380-397 | every index of a row names a vertex of the grid |
| UnitShapes.StripPairsBounded | worldwind/src/main/java/gov/nasa/worldwind/draw/DrawContext.java:384-388 | every index of the pairs names a vertex of the grid |
| UnitShapes.SphereElementsBounded | worldwind/src/main/java/gov/nasa/worldwind/draw/DrawContext.java:380-397 | every index of the strip is below numLat numLon, so it names a vertex and fits in a short for the 120 x 120 grid |
| UnitShapes.RowsFit | worldwind/src/main/java/gov/nasa/worldwind/draw/DrawContext.java:377-397 | the rows never overrun the allocated array |
| UnitShapes.VertexBounds | worldwind/src/main/java/gov/nasa/worldwind/draw/DrawContext.java:384-396 | each written vertex lies inside the grid |
| UnitShapes.FillSphereElements | worldwind/src/main/java/gov/nasa/worldwind/draw/DrawContext.java:368-397 | the filled array is exactly the strip |
| UnitShapes.FillSphereRow | worldwind/src/main/java/gov/nasa/worldwind/draw/DrawContext.java:380-397 | one pass of the outer loop appends exactly one row |
| UnitShapes.FillStripPairs | worldwind/src/main/java/gov/nasa/worldwind/draw/DrawContext.java:384-388 | the inner loop appends the row's pairs and ends with the row's last vertex |
| UnitShapes.CircleLoopOverruns | worldwind/src/main/java/gov/nasa/worldwind/draw/DrawContext.java:318-321 | from any even position, the loop as written ends writing one past the end of the array |
| UnitShapes.UnitCircleAsWrittenThrows | worldwind/src/main/java/gov/nasa/worldwind/draw/DrawContext.java:312-321 | as written, building the circle throws: the loop writes index 2 slices + 4 |
| UnitShapes.Ring | worldwind/src/main/java/gov/nasa/worldwind/draw/DrawContext.java:318-321 | two coordinates per step |
| UnitShapes.RingAt | worldwind/src/main/java/gov/nasa/worldwind/draw/DrawContext.java:318-321 | step j is at positions 2 j and 2 j + 1 |
| UnitShapes.CircleIsClosed | worldwind/src/main/java/gov/nasa/worldwind/draw/DrawContext.java:312-324 | 2 slices + 4 coordinates: a leading pad pair, the points in order, and the first point repeated at the end |
| UnitShapes.FillCirclePoints | worldwind/src/main/java/gov/nasa/worldwind/draw/DrawContext.java:312-324 | the corrected loop fills the array with exactly the closed outline |

## Left out

- Matrix arithmetic (Matrix4, Matrix3) is symbolic: products, inverses, perspective and scale are constructors, not computed.
- Floating point: colours, ranges and angles are reals. A NaN range is not modelled; `range < 0` is a real comparison.
- The trigonometry of the circle is kept symbolic (cosine and sine of a step). The sphere's vertex positions are a count of unmodelled floats.
- The classes ShaderProgram, SensorProgram, BasicShaderProgram, MockupProgram, Framebuffer, Texture, BufferObject and DrawableTerrain are not part of this model. Whether a program builds, a framebuffer, texture or buffer binds, or a terrain chunk's vertex attribute binds is a boolean parameter of each operation. A chunk whose attribute binds has its vertex buffer (the chunk's `vertexPoints` name) bound through the draw context's cache, as BufferObject binds do, and attribute 0 pointed at it with three coordinates per vertex.
- TerrainPasses.DrawChunk: a chunk's triangles are the single call DrawTerrainTriangles; any buffer that drawTriangles binds inside DrawableTerrain, which is not part of this model, is neither logged nor cached. The size 3 of the attribute pointer is the size of a vertex point; no line of the core states it.
- TerrainPasses.DrawTerrainPass: a chunk whose attribute fails to bind makes no call; what useVertexPointAttrib does before it fails is not modelled.
- Framebuffer.attachTexture and the texture parameters of the scratch attachments are not modelled; the attachments are values of the right size and format.
- glReadPixels is modelled as a logged call; the bytes it writes are a parameter, `pixels`.
- readPixelColor's optional result object is not modelled; the colour is returned.
- The drawables' scratch matrices (`matrix`, `projMatrix`, `identityMatrix3`) are computed inline as values. The per-chunk matrix is a function of the pass's uniforms and the chunk's origin.
- The recycle methods and `scratchList` beyond its reset are not modelled. The getters currentProgram and currentTextureUnit have no contract beyond returning the field.
- The globe argument of moveTo is not used by the source and is dropped.
- `cameraDistance` in makeDrawable is computed and never used; it is left out.
- The shapes' AbstractShape state (altitude mode, pick colour, active attributes) are parameters of MakeDrawable.
- The mockup keeps its altitude mode but, like the source, does not use it in doRender; ABSOLUTE is the constant 0.
- Geographic-to-Cartesian conversion and the local transform are symbolic functions of latitude, longitude, altitude and altitude mode.
- Threading and the GL context's thread affinity are not modelled.
- DrawContexts.DrawContext.BindBuffer: repeated binds of the same buffer are not elided (the cached name is checked, but every branch issues glBindBuffer), modelled as written.
- DrawContexts.DrawContext.ReadPixelColors: the 32-bit overflow of `width * height` and of `pixelCount * 4` is not modelled; the products are unbounded integers, so a rectangle too large for Java's int gets a buffer of the true size rather than a wrapped one.
- DrawContexts.DrawContext.BindTexture: a texture unit outside GL_TEXTURE0 to GL_TEXTURE31 makes the source index past its 32 slots and throw ArrayIndexOutOfBoundsException; that case is a precondition here, and every caller in the core activates GL_TEXTURE0 first.
- DrawContexts.DrawContext.CurrentTexture: a unit outside GL_TEXTURE0 to GL_TEXTURE31 throws ArrayIndexOutOfBoundsException in the source; it is a precondition here; nothing in the core calls it.
- DrawContexts.DrawContext.CurrentActiveTexture: an active unit outside GL_TEXTURE0 to GL_TEXTURE31 throws ArrayIndexOutOfBoundsException in the source; it is a precondition here; nothing in the core calls it.
- Collaborators.BindTextureObject: inherits the precondition of DrawContexts.DrawContext.BindTexture in place of the out-of-range exception; both drawables activate GL_TEXTURE0 before binding.
- BindingCache.Step: a texture bind with the active unit outside the 32 slots is excluded by BindingCache.Allowed, standing for the same exception.
- Resources.ByteBuffer.Get: the BufferUnderflowException of a get past the limit is a precondition; both readbacks read only bytes they cleared room for.
- DrawContexts.DrawContext.ContextLost: the unit sphere buffers are not dropped when the context is lost, modelled as written.
- BasicGlobeActivity (an example activity) is not part of this model.

## Findings

| source | as written | input that shows it | evidently intended | confidence | as-written member | corrected member |
|---|---|---|---|---|---|---|
| worldwind/src/main/java/gov/nasa/worldwind/draw/DrawContext.java:318-321 | the fill loop of unitCircleBuffer tests `idx < len` but never increments `idx`, so it keeps writing until `pos` leaves the array | the first call of unitCircleBuffer (360 slices, 724 floats): the loop writes index 724 and throws ArrayIndexOutOfBoundsException | `idx` advances by two per point, so the loop writes 360 points and the first point is repeated to close the outline | high; not executed | UnitShapes.UnitCircleAsWrittenThrows | UnitShapes.FillCirclePoints |
