/**
 * The script's module state and its entry points: the bootstrap chain of
 * `main`, the resize listener, one tick of the render loop and the
 * property listener, all over an abstract GPU state (the uniform writes,
 * canvas size, viewport, uploaded noise volume).
 */
module Harness {
  import opened Optional
  import opened Uniforms
  import opened Camera
  import opened Pipeline
  import opened Noise
  import opened Parameters

  /** Why the bootstrap stopped. */
  datatype BootError =
    | ContextUnavailable                      // getContext('webgl2') returned null
    | ShaderFetchFailed                       // loadShader threw (fetch failed or response not ok)
    | PipelineFailed(log: seq<Diagnostic>)    // createProgram returned null

  /** `Building` only while `main` runs; it ends Ready or Failed, with no way back from Failed. */
  datatype Phase = Building | Ready | Failed(error: BootError)

  /** The rectangle last passed to gl.viewport. */
  datatype Viewport = Viewport(x: int, y: int, width: int, height: int)

  /**
   * Everything `main` learns from its environment: whether WebGL2 is
   * available, whether the fragment shader text could be fetched, the
   * driver's compile and link outcomes, the active uniform names of the
   * linked program, the canvas and window sizes, and the two clock
   * readings (performance.now() / 1000) taken when the render loop starts
   * and when its first frame runs.
   */
  datatype Host = Host(
    hasWebGL2: bool,
    shaderFetched: bool,
    vertexCompiles: bool,
    fragmentCompiles: bool,
    links: bool,
    activeUniforms: set<string>,
    canvasWidth: nat,
    canvasHeight: nat,
    innerWidth: nat,
    innerHeight: nat,
    startNow: real,
    firstNow: real)

  /** The fail-fast chain of `main`: context, then shader text, then program. */
  function BootPhase(host: Host): (p: Phase)
    ensures p != Building
    ensures p.Ready? <==>
      host.hasWebGL2 && host.shaderFetched && host.vertexCompiles && host.fragmentCompiles && host.links
    ensures p == Failed(ContextUnavailable) <==> !host.hasWebGL2
    ensures p == Failed(ShaderFetchFailed) <==> host.hasWebGL2 && !host.shaderFetched
    ensures p.Failed? && p.error.PipelineFailed? ==>
      host.hasWebGL2 && host.shaderFetched && p.error.log != [] &&
      p.error.log == CreateProgram(host.vertexCompiles, host.fragmentCompiles, host.links).log
  {
    if !host.hasWebGL2 then Failed(ContextUnavailable)
    else if !host.shaderFetched then Failed(ShaderFetchFailed)
    else
      var built := CreateProgram(host.vertexCompiles, host.fragmentCompiles, host.links);
      if built.program.None? then Failed(PipelineFailed(built.log)) else Ready
  }

  /** One frame's uniform writes: elapsed time, then (width, height, 1.0). */
  function Frame(t: Table, elapsed: real, width: nat, height: nat): Table
  {
    t[ITime := Scalar1f(elapsed)][IResolution := Vector3f(Vec3(width as real, height as real, 1.0))]
  }

  /** A frame leaves the camera uniforms showing the camera they showed before. */
  lemma FrameKeepsCamera(math: MathLib, t: Table, o: Orbit, elapsed: real, width: nat, height: nat)
    requires InSync(math, t, o)
    ensures InSync(math, Frame(t, elapsed, width, height), o)
  {
  }

  /** A frame sets the clock and the resolution and writes no other uniform. */
  lemma FrameWritesOnlyClock(t: Table, elapsed: real, width: nat, height: nat)
    ensures AgreeExcept(Frame(t, elapsed, width, height), t, {ITime, IResolution})
    ensures Frame(t, elapsed, width, height)[ITime] == Scalar1f(elapsed)
    ensures Frame(t, elapsed, width, height)[IResolution] == Vector3f(Vec3(width as real, height as real, 1.0))
  {
  }

  /** The default writes `main` makes right after resolving the uniforms, in order. */
  function Defaults(t: Table): (r: Table)
    ensures AgreeExcept(r, t, {UNoise, UNoiseScale, UFov, UCloudSpeed, UCloudType, ULightPreset})
    ensures UNoise in r && r[UNoise] == Scalar1i(0.0)
    ensures UNoiseScale in r && r[UNoiseScale] == Scalar1f(0.15)
    ensures UFov in r && r[UFov] == Scalar1f(1.5)
    ensures UCloudSpeed in r && r[UCloudSpeed] == Scalar1f(1.0)
    ensures UCloudType in r && r[UCloudType] == Scalar1i(0.0)
    ensures ULightPreset in r && r[ULightPreset] == Scalar1i(0.0)
  {
    t[UNoise := Scalar1i(0.0)]
     [UNoiseScale := Scalar1f(0.15)]
     [UFov := Scalar1f(1.5)]
     [UCloudSpeed := Scalar1f(1.0)]
     [UCloudType := Scalar1i(0.0)]
     [ULightPreset := Scalar1i(0.0)]
  }

  /**
   * The table a successful `main` leaves: the sampler on texture unit 0,
   * the style defaults, the seeded camera, then the first frame.
   */
  function BootUniforms(math: MathLib, host: Host): Table
  {
    Frame(UpdateCamera(math, Defaults(map[]), Seed), host.firstNow - host.startNow, host.innerWidth, host.innerHeight)
  }

  /**
   * The values `main` leaves in place: every uniform written, the six
   * parameter defaults, the camera at (45, 20, 6) looking at (0, -0.5, 0),
   * and the clock and resolution of the first frame.
   */
  lemma {:induction false} BootValues(math: MathLib, host: Host)
    ensures forall u :: u in BootUniforms(math, host)
    ensures BootUniforms(math, host)[UNoise] == Scalar1i(0.0)
    ensures BootUniforms(math, host)[UNoiseScale] == Scalar1f(0.15)
    ensures BootUniforms(math, host)[UFov] == Scalar1f(1.5)
    ensures BootUniforms(math, host)[UCloudSpeed] == Scalar1f(1.0)
    ensures BootUniforms(math, host)[UCloudType] == Scalar1i(0.0)
    ensures BootUniforms(math, host)[ULightPreset] == Scalar1i(0.0)
    ensures BootUniforms(math, host)[UCameraPos] == Vector3f(Position(math, Orbit(45.0, 20.0, 6.0)))
    ensures BootUniforms(math, host)[UCameraTarget] == Vector3f(Vec3(0.0, -0.5, 0.0))
    ensures BootUniforms(math, host)[ITime] == Scalar1f(host.firstNow - host.startNow)
    ensures BootUniforms(math, host)[IResolution] == Vector3f(Vec3(host.innerWidth as real, host.innerHeight as real, 1.0))
  {
    var preset := Defaults(map[]);
    var seeded := UpdateCamera(math, preset, Seed);
    var r := Frame(seeded, host.firstNow - host.startNow, host.innerWidth, host.innerHeight);
    assert r == BootUniforms(math, host);
    forall u ensures u in r {
      EveryNameIsKnown(u);
    }
  }

  /** After a successful start the program holds a value for every uniform it has. */
  lemma BootHoldsAllRegistered(math: MathLib, host: Host, registry: set<UniformName>)
    ensures Held(registry, BootUniforms(math, host)).Keys == registry
  {
    BootValues(math, host);
  }

  /**
   * After a successful start the program holds a value for a uniform
   * exactly when the shader declares it as an active uniform.
   */
  lemma BootHoldsActive(math: MathLib, host: Host, u: UniformName)
    ensures u in Held(Resolve(host.activeUniforms), BootUniforms(math, host)) <==> GlslName(u) in host.activeUniforms
  {
    BootHoldsAllRegistered(math, host, Resolve(host.activeUniforms));
  }

  /** The `cameraState` record, whose fields the property listener assigns in place. */
  class CameraState {
    var azimuth: real
    var elevation: real
    var distance: real

    constructor (azimuth: real, elevation: real, distance: real)
      ensures this.azimuth == azimuth && this.elevation == elevation && this.distance == distance
    {
      this.azimuth := azimuth;
      this.elevation := elevation;
      this.distance := distance;
    }
  }

  /**
   * The first half of `main`: acquire the context, fill the noise volume,
   * fetch the shader source and build the program. The phase stays
   * `Building` only when a linked program is ready for the rest of `main`.
   */
  method Prepare(host: Host) returns (phase: Phase, noiseVolume: seq<int>, program: Option<Program>)
    ensures host.hasWebGL2 <==> |noiseVolume| == Volume
    ensures !host.hasWebGL2 ==> noiseVolume == []
    ensures forall k :: 0 <= k < |noiseVolume| ==> 0 <= noiseVolume[k] < 256
    ensures program.Some? <==> BootPhase(host).Ready?
    ensures program.Some? ==> phase == Building && program == Some(Program(Shader(VertexStage), Shader(FragmentStage)))
    ensures program.None? ==> phase == BootPhase(host)
  {
    noiseVolume, program := [], None;
    phase := Building;
    if !host.hasWebGL2 {
      phase := Failed(ContextUnavailable);
    } else {
      var data, draws := CreateNoiseTexture();
      noiseVolume := data[..];
      if !host.shaderFetched {
        phase := Failed(ShaderFetchFailed);
      } else {
        var built := CreateProgram(host.vertexCompiles, host.fragmentCompiles, host.links);
        program := built.program;
        if built.program.None? {
          phase := Failed(PipelineFailed(built.log));
        }
      }
    }
  }

  /** The script's module state, built once by `main` (the constructor `Load`). */
  class Harness {
    const math: MathLib
    var phase: Phase
    /** The texels uploaded to the 3D noise texture; empty until it is created. */
    var noiseVolume: seq<int>
    var program: Option<Program>
    /** The uniforms whose locations resolved to non-null. */
    var registry: set<UniformName>
    /** The values the script has passed to gl.uniform*, per uniform, whether or not its location is null. */
    var uniforms: Table
    var camera: CameraState?
    var canvasWidth: nat
    var canvasHeight: nat
    var viewport: Viewport
    var resizeListening: bool
    var startTime: real
    var loopRunning: bool
    /** Draw calls issued by the render loop. */
    var frames: nat
    var listenerInstalled: bool

    /** The viewport always covers the whole canvas. */
    ghost predicate Layout()
      reads this`viewport, this`canvasWidth, this`canvasHeight
    {
      viewport == Viewport(0, 0, canvasWidth, canvasHeight)
    }

    /** Once the camera exists, the camera uniforms show it. */
    ghost predicate Shown()
      reads this`uniforms, this`camera, camera
    {
      camera != null ==> InSync(math, uniforms, Camera.Orbit(camera.azimuth, camera.elevation, camera.distance))
    }

    /** What each stage of `main` leaves behind once it has run. */
    ghost predicate Staged()
      reads this`program, this`registry, this`uniforms, this`camera, this`phase
      reads this`resizeListening, this`loopRunning, this`listenerInstalled
    {
      && (program.None? ==> registry == {} && uniforms == map[] && camera == null && !loopRunning)
      && (loopRunning ==> resizeListening)
      && (listenerInstalled ==> camera != null && loopRunning)
      && (phase.Ready? <==> listenerInstalled)
      && (phase.Failed? ==> program.None? && !resizeListening)
    }

    ghost predicate Valid()
      reads this, camera
    {
      Layout() && Shown() && Staged()
    }

    /** The state the property listener works on. */
    function Current(): Snapshot
      reads this, camera
      requires camera != null
    {
      Snapshot(uniforms, Camera.Orbit(camera.azimuth, camera.elevation, camera.distance))
    }

    /**
     * `main`: acquire the context, fill and upload the noise volume, fetch
     * and build the program, then resolve the uniforms, write the defaults,
     * seed the camera, attach the resize listener, start the render loop
     * (which draws its first frame at once) and install the property
     * listener. Each failure stops the chain where it happens.
     */
    constructor Load(math: MathLib, host: Host)
      ensures Valid()
      ensures phase == BootPhase(host)
      ensures host.hasWebGL2 <==> |noiseVolume| == Volume
    ensures !host.hasWebGL2 ==> noiseVolume == []
      ensures forall k :: 0 <= k < |noiseVolume| ==> 0 <= noiseVolume[k] < 256
      ensures phase.Ready? ==>
        && program == Some(Program(Shader(VertexStage), Shader(FragmentStage)))
        && registry == Resolve(host.activeUniforms)
        && uniforms == BootUniforms(math, host)
        && camera != null && fresh(camera) && Camera.Orbit(camera.azimuth, camera.elevation, camera.distance) == Seed
        && canvasWidth == host.innerWidth && canvasHeight == host.innerHeight
        && viewport == Viewport(0, 0, host.innerWidth, host.innerHeight)
        && resizeListening && loopRunning && listenerInstalled
        && startTime == host.startNow && frames == 1
      ensures !phase.Ready? ==>
        && program == None && registry == {} && uniforms == map[] && camera == null
        && canvasWidth == host.canvasWidth && canvasHeight == host.canvasHeight
        && !resizeListening && !loopRunning && !listenerInstalled && frames == 0
    {
      this.math := math;
      canvasWidth, canvasHeight := host.canvasWidth, host.canvasHeight;
      viewport := Viewport(0, 0, host.canvasWidth, host.canvasHeight);
      registry, uniforms, camera := {}, map[], null;
      resizeListening, loopRunning, listenerInstalled := false, false, false;
      startTime, frames := 0.0, 0;
      var ph, noise, prog := Prepare(host);
      phase, noiseVolume, program := ph, noise, prog;
      new;
      if program.Some? {
        Start(host);
      }
    }

    /** `main` once the program is linked: configure, then attach. */
    method Start(host: Host)
      requires Valid() && program.Some? && phase == Building
      requires registry == {} && uniforms == map[] && camera == null
      requires !resizeListening && !loopRunning && !listenerInstalled && frames == 0
      modifies this
      ensures Valid() && phase == Ready
      ensures program == old(program) && noiseVolume == old(noiseVolume)
      ensures registry == Resolve(host.activeUniforms)
      ensures uniforms == BootUniforms(math, host)
      ensures camera != null && fresh(camera) && Camera.Orbit(camera.azimuth, camera.elevation, camera.distance) == Seed
      ensures canvasWidth == host.innerWidth && canvasHeight == host.innerHeight
      ensures viewport == Viewport(0, 0, host.innerWidth, host.innerHeight)
      ensures resizeListening && loopRunning && listenerInstalled
      ensures startTime == host.startNow && frames == 1
    {
      Configure(host);
      Attach(host);
    }

    /**
     * The part of `main` after the program is linked and in use: resolve
     * the uniform locations, write the defaults and seed the camera.
     */
    method Configure(host: Host)
      requires uniforms == map[] && camera == null
      modifies this`registry, this`uniforms, this`camera
      ensures registry == Resolve(host.activeUniforms)
      ensures uniforms == Camera.UpdateCamera(math, Defaults(map[]), Seed)
      ensures camera != null && fresh(camera)
      ensures camera.azimuth == 45.0 && camera.elevation == 20.0 && camera.distance == 6.0
    {
      registry := Resolve(host.activeUniforms);
      uniforms := Defaults(uniforms);
      camera := new CameraState(45.0, 20.0, 6.0);
      UpdateCamera();
    }

    /**
     * The rest of `main`: attach the resize listener, start the render
     * loop (which draws its first frame at once) and install the property
     * listener.
     */
    method Attach(host: Host)
      requires Valid() && program.Some? && camera != null && phase == Building
      requires !resizeListening && !loopRunning && !listenerInstalled
      modifies this`canvasWidth, this`canvasHeight, this`viewport, this`resizeListening
      modifies this`startTime, this`loopRunning, this`uniforms, this`frames, this`listenerInstalled, this`phase
      ensures Valid() && phase == Ready
      ensures uniforms == Frame(old(uniforms), host.firstNow - host.startNow, host.innerWidth, host.innerHeight)
      ensures canvasWidth == host.innerWidth && canvasHeight == host.innerHeight
      ensures viewport == Viewport(0, 0, host.innerWidth, host.innerHeight)
      ensures resizeListening && loopRunning && listenerInstalled
      ensures startTime == host.startNow && frames == old(frames) + 1
    {
      SyncViewport(host.innerWidth, host.innerHeight);
      resizeListening, startTime, loopRunning := true, host.startNow, true;
      ghost var shown := uniforms;
      RenderFrame(host.firstNow);
      FrameKeepsCamera(math, shown, Camera.Orbit(camera.azimuth, camera.elevation, camera.distance),
        host.firstNow - startTime, canvasWidth, canvasHeight);
      listenerInstalled, phase := true, Ready;
    }

    /** One gl.uniform* call. */
    method SetUniform(u: UniformName, v: Value)
      modifies this`uniforms
      ensures uniforms == old(uniforms)[u := v]
    {
      uniforms := uniforms[u := v];
    }

    /** `updateCamera(cameraState.azimuth, cameraState.elevation, cameraState.distance)`. */
    method UpdateCamera()
      requires camera != null
      modifies this`uniforms
      ensures uniforms == Camera.UpdateCamera(math, old(uniforms), Camera.Orbit(camera.azimuth, camera.elevation, camera.distance))
    {
      SetUniform(UCameraPos, Vector3f(Position(math, Camera.Orbit(camera.azimuth, camera.elevation, camera.distance))));
      SetUniform(UCameraTarget, Vector3f(Target));
    }

    /** The body shared by the resize listener and its attach step: canvas := window size, viewport to match. */
    method SyncViewport(innerWidth: nat, innerHeight: nat)
      modifies this`canvasWidth, this`canvasHeight, this`viewport
      ensures canvasWidth == innerWidth && canvasHeight == innerHeight
      ensures viewport == Viewport(0, 0, innerWidth, innerHeight)
    {
      canvasWidth := innerWidth;
      canvasHeight := innerHeight;
      viewport := Viewport(0, 0, canvasWidth, canvasHeight);
    }

    /** A window resize event, once the listener is attached. */
    method OnResize(innerWidth: nat, innerHeight: nat)
      requires Valid() && resizeListening
      modifies this`canvasWidth, this`canvasHeight, this`viewport
      ensures Valid()
      ensures canvasWidth == innerWidth && canvasHeight == innerHeight
      ensures viewport == Viewport(0, 0, innerWidth, innerHeight)
      ensures uniforms == old(uniforms) && frames == old(frames)
    {
      SyncViewport(innerWidth, innerHeight);
    }

    /** One tick of the render loop: time and resolution uniforms, then one draw. */
    method RenderFrame(now: real)
      requires loopRunning
      modifies this`uniforms, this`frames
      ensures uniforms == Frame(old(uniforms), now - startTime, canvasWidth, canvasHeight)
      ensures frames == old(frames) + 1
    {
      SetUniform(ITime, Scalar1f(now - startTime));
      SetUniform(IResolution, Vector3f(Vec3(canvasWidth as real, canvasHeight as real, 1.0)));
      frames := frames + 1;
    }

    /** `livelyPropertyListener(name, value)`. */
    method OnProperty(name: string, value: real)
      requires Valid() && listenerInstalled
      modifies this`uniforms, camera
      ensures Valid()
      ensures camera == old(camera)
      ensures Current() == Dispatch(math, old(Current()), Parse(name), value)
      ensures canvasWidth == old(canvasWidth) && canvasHeight == old(canvasHeight)
      ensures viewport == old(viewport) && frames == old(frames)
    {
      match Parse(name)
      case NoiseScale => SetUniform(UNoiseScale, Scalar1f(value));
      case Fov => SetUniform(UFov, Scalar1f(value));
      case CloudSpeed => SetUniform(UCloudSpeed, Scalar1f(value));
      case CloudType => SetUniform(UCloudType, Scalar1i(value));
      case LightPreset => SetUniform(ULightPreset, Scalar1i(value));
      case CameraAzimuth =>
        camera.azimuth := value;
        UpdateCamera();
      case CameraElevation =>
        camera.elevation := value;
        UpdateCamera();
      case CameraDistance =>
        camera.distance := value;
        UpdateCamera();
      case Unrecognized =>
    }
  }

  /**
   * What a caller can rely on from the contracts alone: after a successful
   * start, ("fov", 2.0) changes only the field-of-view uniform and an
   * unknown name changes nothing.
   */
  method TuneSession(math: MathLib, host: Host)
    requires host.hasWebGL2 && host.shaderFetched && host.vertexCompiles && host.fragmentCompiles && host.links
  {
    var h := new Harness.Load(math, host);
    ghost var before := h.Current();
    h.OnProperty("fov", 2.0);
    FovScenario(math, h.registry, before);
    assert h.uniforms == before.uniforms[UFov := Scalar1f(2.0)];
    ghost var mid := h.Current();
    h.OnProperty("exposure", 3.0);
    assert h.Current() == mid;
  }

  /** After a successful start, a resize to 800 x 600 is what the next frame reports as the resolution. */
  method ResizeSession(math: MathLib, host: Host)
    requires host.hasWebGL2 && host.shaderFetched && host.vertexCompiles && host.fragmentCompiles && host.links
  {
    var h := new Harness.Load(math, host);
    h.OnResize(800, 600);
    assert h.viewport == Viewport(0, 0, 800, 600);
    h.RenderFrame(host.firstNow + 1.0);
    assert h.uniforms[IResolution] == Vector3f(Vec3(800.0, 600.0, 1.0));
  }
}
