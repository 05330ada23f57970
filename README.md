# Volumetric cloud wallpaper: the parameter and state harness

The wallpaper draws its clouds in a full-screen fragment shader. Around that
shader sits a small JavaScript harness, `res/script.js`. This project models
that harness in Dafny and proves properties of the model.

The harness starts in `main`:
- it acquires a WebGL2 context;
- it fills and uploads a 64×64×64 volume of random bytes as a 3D noise texture;
- it fetches the fragment shader, then compiles and links it with a fixed vertex shader;
- it resolves ten uniform locations and writes their start values;
- it seeds an orbiting camera;
- it attaches a resize listener, starts the render loop and installs `livelyPropertyListener`.

The wallpaper host calls `livelyPropertyListener` with a name and a number. Five names each write one shader
uniform directly. Three names change a field of the camera state, and the
camera uniforms are then recomputed from that state.

The model has one module per concern:
- **Uniforms**: the ten uniform names and values, and the location table.
  Unavailable locations are null; the program never sees a write through a null location.
- **Camera**: `updateCamera`, the spherical eye position with a fixed target.
- **Pipeline**: `compileShader` and `createProgram`.
- **Noise**: the fill loop of `createNoiseTexture`.
- **Parameters**: the listener's dispatch table, written as a pure function on a snapshot of the state.
- **Harness**: the script's module state as a class. `main` is the constructor `Load`.
  The class has the resize event, one tick of the render loop and the property listener as methods.

The driver and the browser are not modelled as code. Their answers come in as a
`Host` record:
- whether WebGL2 is available;
- whether the shader text was fetched;
- the compile and link outcomes;
- the active uniform names;
- the canvas and window sizes;
- two clock readings.

`Math.sin`, `Math.cos` and `Math.PI` come in as a `MathLib` value. Lemmas that need a
trigonometric identity take it as a hypothesis at the point where it is used.

`startRenderLoop` reads `canvas.width` and `canvas.height`, but no `canvas` is in its
lexical scope. In a browser that name resolves to the element whose id is
`canvas`, which is the same canvas `main` resizes. The model reads the canvas
size the harness keeps.

## Model

| member | source | states |
|---|---|---|
| Uniforms.EveryNameIsKnown | res/script.js:78-91 | every uniform is one of the ten names the location table looks up |
| Uniforms.HeldWrite | res/script.js:174-183 | a write to a registered uniform changes exactly that held value; a write through a null location changes nothing the program holds |
| Camera.UpdateCamera | res/script.js:93-104 | after the update, the position uniform holds the spherical position of the given camera state and the target uniform holds (0, -0.5, 0) |
| Camera.UpdateCameraWritesOnlyCamera | res/script.js:102-103 | the camera update writes no uniform except u_cameraPos and u_cameraTarget |
| Camera.TargetIgnoresState | res/script.js:94 | the target written is (0, -0.5, 0) whatever the camera state and whatever the table held |
| Camera.ZeroDistanceIsOrigin | res/script.js:97-99 | at distance 0 the eye is at the origin |
| Camera.HeightIgnoresAzimuth | res/script.js:98 | the eye's height does not depend on the azimuth |
| Camera.Overhead | res/script.js:95-100 | at elevation 90 degrees the eye is at (0, distance, 0) for every azimuth, given sin(π/2) = 1 and cos(π/2) = 0 |
| Camera.FullTurnAzimuth | res/script.js:95-99 | adding 360 degrees to the azimuth leaves the eye where it was, given that sine and cosine have period 2π at that angle |
| Camera.NormIsDistance | res/script.js:95-100 | given sin² + cos² = 1 at both angles, the eye lies on the sphere of radius `distance` |
| Pipeline.CreateProgram | res/script.js:50-65 | a program exists iff both stages compile and the link succeeds, which is also exactly when nothing is reported; each stage's compile error is reported iff that stage fails; linking is attempted, and a link error possible, only when both compiled; at most two reports; when both fail, the vertex error comes first |
| Noise.Sample | res/script.js:18 | a draw in [0, 1) gives a byte in [0, 255] that is the floor of draw × 256 |
| Noise.CreateNoiseTexture | res/script.js:14-19 | a fresh array of 64³ = 262144 entries in which every entry is the sample of its own draw, so every entry is in [0, 255] |
| Parameters.Parse | res/script.js:173-196 | a recognised result is the case whose name is exactly the text received |
| Parameters.ParseName | res/script.js:173-196 | each of the eight names reaches its own case of the switch |
| Parameters.Dispatch | res/script.js:171-197 | an unknown name changes nothing; each of the five direct names sets its own uniform to the value (uniform1f for three, uniform1i for two), changes no other uniform and leaves the camera state alone; each camera name sets only its own camera field, changes no uniform except the two camera ones, and leaves them showing the new camera state |
| Parameters.DispatchKeepsInSync | res/script.js:184-195 | whatever the listener receives, camera uniforms that showed the camera state still show it afterwards |
| Parameters.FovScenario | res/script.js:176-177 | ("fov", 2.0) sets u_fov to 2.0 and nothing else; the program's held values change at u_fov only, or not at all when u_fov has no location |
| Harness.BootPhase | res/script.js:130-149 | `main` gets through to a ready state iff a context exists, the shader is fetched, both stages compile and the program links; it stops with no context exactly when WebGL2 is missing, and with a fetch failure exactly when only the fetch fails; a pipeline failure carries `createProgram`'s non-empty report |
| Harness.FrameWritesOnlyClock | res/script.js:120-122 | a frame sets iTime to the elapsed time and iResolution to (width, height, 1.0), and writes no other uniform |
| Harness.FrameKeepsCamera | res/script.js:120-122 | a frame leaves the camera uniforms showing the camera state they showed before |
| Harness.Defaults | res/script.js:153-163 | the start-up writes set u_noise to 0, noiseScale 0.15, fov 1.5, cloudSpeed 1.0, cloudType 0 and lightPreset 0, and leave every other uniform as it was |
| Harness.BootValues | res/script.js:152-169 | after a successful start all ten uniforms have been written: the six defaults, the camera at (45, 20, 6) looking at (0, -0.5, 0), and the first frame's time and resolution |
| Harness.BootHoldsAllRegistered | res/script.js:152-169 | after a successful start the program holds a value for exactly the uniforms that have a location |
| Harness.BootHoldsActive | res/script.js:78-91 | after a successful start the program holds a value for a uniform exactly when the linked program has that uniform's GLSL name among its active uniforms, since every other location resolves to null |
| Harness.Prepare | res/script.js:131-149 | the noise volume is created (64³ bytes in range) iff a context exists, and stays empty without one; a program exists exactly when the whole chain succeeds; otherwise the phase is the failure `main` stops at |
| Harness.CameraState.constructor | res/script.js:165 | the camera record holds the three given fields |
| Harness.Harness.Load | res/script.js:130-170 | `main`: ends with the state invariant and the phase given by BootPhase; after a successful start the fields are the linked program, the resolved locations, the start-up table, a fresh camera at (45, 20, 6), canvas and viewport at the window size, both listeners attached and the loop running, and one frame drawn; after any failure there is no program, no location, no uniform write and no camera, the noise volume is empty when there is no context, the canvas keeps its size, nothing is installed and nothing is drawn |
| Harness.Harness.Start | res/script.js:150-170 | from a linked program, the rest of `main` ends ready, with the resolved locations, the start-up table, the seeded camera and the window-sized canvas |
| Harness.Harness.Configure | res/script.js:152-166 | the locations are resolved, the defaults written and the camera seeded at (45, 20, 6), with its uniforms computed from that seed |
| Harness.Harness.Attach | res/script.js:168-171 | canvas and viewport take the window size, the resize listener is attached, the loop starts at the start clock reading and draws one frame, and the property listener is installed, keeping the invariant |
| Harness.Harness.SetUniform | res/script.js:159-163 | one gl.uniform* call records exactly its value for its uniform |
| Harness.Harness.UpdateCamera | res/script.js:166 | the table afterwards is the camera update for the camera record's current fields |
| Harness.Harness.SyncViewport | res/script.js:108-114 | canvas size := window size and viewport := (0, 0, width, height) |
| Harness.Harness.OnResize | res/script.js:107-111 | a resize event sets canvas and viewport to the new window size, keeps the invariant, and changes no uniform and no frame count |
| Harness.Harness.RenderFrame | res/script.js:119-125 | one tick writes the time elapsed since the loop started and the current canvas size, and draws one frame (the draw count rises by one) |
| Harness.Harness.OnProperty | res/script.js:171-197 | the listener keeps the invariant, the camera record's identity, the canvas, the viewport and the frame count, and changes the uniform table and camera state exactly as Dispatch says for the parsed name |

## Left out

- WebGL calls with no state the core depends on are not modelled: texture creation and parameters, `activeTexture`, `useProgram`, vertex buffers and attributes, and blending. A draw call is counted in `frames`.
- `loadShader`'s fetch and `await` are not modelled. The `Host.shaderFetched` flag stands for the fetch succeeding. The `catch` path is the `ShaderFetchFailed` outcome.
- Console and alert output is left out, because it changes no state the harness reads. This covers `alert` and `console.error` on every failure path, and the listener's `console.log` of each property change.
- The render loop's self-scheduling through `requestAnimationFrame` is left out. `RenderFrame` is one tick, and `main` runs the first tick itself.
- Browser event registration is a flag (`resizeListening`, `listenerInstalled`), and events are method calls. Concurrency between events is not modelled.
- Math numerics are not modelled. Sine, cosine and π are parameters, and floating-point rounding is not modelled. Values are exact reals.
- Math.random's distribution is not modelled. Each draw is an arbitrary real in [0, 1).
- The conversion of a JavaScript number to a GLint in `uniform1i` is not modelled. `Scalar1i` keeps the number as given.
- The `Uint8Array` is an array of `int`. Its bytes are proved to lie in [0, 255], so no wrap-around arises.
- Harness.Harness.RenderFrame: requires only a running loop and states nothing about the invariant. Callers restore the invariant through FrameKeepsCamera.
- The program's uniform state is at two levels. The `uniforms` table records every write the script makes, whether or not the location is null. `Uniforms.Held` gives what the linked program keeps.
- Uniforms.HeldWrite: assumes each uniform's GLSL type matches the gl.uniform* call that writes it. The shader is not part of this model. On a type mismatch WebGL raises INVALID_OPERATION and keeps the old value, which `Held` does not capture.
