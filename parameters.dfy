/**
 * The live-property channel: `livelyPropertyListener(name, value)` routes
 * a named change through a fixed table to one uniform write or to one
 * field of the camera state followed by a camera update.
 */
module Parameters {
  import opened Uniforms
  import opened Camera

  /** The names the dispatch table recognises, and everything else. */
  datatype Param =
    | NoiseScale | Fov | CloudSpeed | CloudType | LightPreset
    | CameraAzimuth | CameraElevation | CameraDistance
    | Unrecognized
  {
    /** A name the listener writes straight to one uniform. */
    predicate IsDirect() {
      NoiseScale? || Fov? || CloudSpeed? || CloudType? || LightPreset?
    }

    /** A name the listener applies to the camera state. */
    predicate IsCamera() {
      CameraAzimuth? || CameraElevation? || CameraDistance?
    }
  }

  /** The text the controller sends for each recognised parameter. */
  function Name(p: Param): string
    requires p != Unrecognized
  {
    match p
    case NoiseScale => "noiseScale"
    case Fov => "fov"
    case CloudSpeed => "cloudSpeed"
    case CloudType => "cloudType"
    case LightPreset => "lightPreset"
    case CameraAzimuth => "cameraAzimuth"
    case CameraElevation => "cameraElevation"
    case CameraDistance => "cameraDistance"
  }

  /** The `switch` on the name: string equality against the eight cases. */
  function Parse(s: string): (p: Param)
    ensures p != Unrecognized ==> Name(p) == s
  {
    if s == "noiseScale" then NoiseScale
    else if s == "fov" then Fov
    else if s == "cloudSpeed" then CloudSpeed
    else if s == "cloudType" then CloudType
    else if s == "lightPreset" then LightPreset
    else if s == "cameraAzimuth" then CameraAzimuth
    else if s == "cameraElevation" then CameraElevation
    else if s == "cameraDistance" then CameraDistance
    else Unrecognized
  }

  /** Every recognised name is routed to its own case. */
  lemma {:induction false} ParseName(p: Param)
    requires p != Unrecognized
    ensures Parse(Name(p)) == p
  {
    match p
    case NoiseScale =>
    case Fov =>
    case CloudSpeed =>
    case CloudType =>
    case LightPreset =>
    case CameraAzimuth =>
    case CameraElevation =>
    case CameraDistance =>
  }

  /** The uniform a direct parameter writes. */
  function DirectTarget(p: Param): UniformName
    requires p.IsDirect()
  {
    match p
    case NoiseScale => UNoiseScale
    case Fov => UFov
    case CloudSpeed => UCloudSpeed
    case CloudType => UCloudType
    case LightPreset => ULightPreset
  }

  /** The value a direct parameter writes: uniform1f for the three scalars, uniform1i for the two selectors. */
  function DirectValue(p: Param, value: real): Value
    requires p.IsDirect()
  {
    if p.CloudType? || p.LightPreset? then Scalar1i(value) else Scalar1f(value)
  }

  /** The part of the harness state the listener can change. */
  datatype Snapshot = Snapshot(uniforms: Table, camera: Orbit)

  /**
   * One listener call for the parsed name `p`. It changes only the uniform
   * a direct parameter names, or only one camera field and the two camera
   * uniforms; an unrecognised name changes nothing.
   */
  function Dispatch(math: MathLib, s: Snapshot, p: Param, value: real): (r: Snapshot)
    ensures p == Unrecognized ==> r == s
    ensures p.IsDirect() ==>
      && r.camera == s.camera
      && AgreeExcept(r.uniforms, s.uniforms, {DirectTarget(p)})
      && DirectTarget(p) in r.uniforms && r.uniforms[DirectTarget(p)] == DirectValue(p, value)
    ensures p.IsCamera() ==>
      && r.camera.azimuth == (if p == CameraAzimuth then value else s.camera.azimuth)
      && r.camera.elevation == (if p == CameraElevation then value else s.camera.elevation)
      && r.camera.distance == (if p == CameraDistance then value else s.camera.distance)
      && AgreeExcept(r.uniforms, s.uniforms, {UCameraPos, UCameraTarget})
      && InSync(math, r.uniforms, r.camera)
  {
    match p
    case NoiseScale | Fov | CloudSpeed | CloudType | LightPreset =>
      s.(uniforms := s.uniforms[DirectTarget(p) := DirectValue(p, value)])
    case CameraAzimuth =>
      Retarget(math, s.(camera := s.camera.(azimuth := value)))
    case CameraElevation =>
      Retarget(math, s.(camera := s.camera.(elevation := value)))
    case CameraDistance =>
      Retarget(math, s.(camera := s.camera.(distance := value)))
    case Unrecognized =>
      s
  }

  /** `updateCamera` applied to the camera state held in `s`. */
  function Retarget(math: MathLib, s: Snapshot): Snapshot {
    s.(uniforms := UpdateCamera(math, s.uniforms, s.camera))
  }

  /** The camera uniforms keep showing the camera state, whatever the listener is sent. */
  lemma DispatchKeepsInSync(math: MathLib, s: Snapshot, p: Param, value: real)
    requires InSync(math, s.uniforms, s.camera)
    ensures InSync(math, Dispatch(math, s, p, value).uniforms, Dispatch(math, s, p, value).camera)
  {
    if p.IsDirect() {
      assert DirectTarget(p) != UCameraPos && DirectTarget(p) != UCameraTarget;
    }
  }

  /**
   * Sending ("fov", 2.0) sets the field-of-view uniform to 2.0 and leaves
   * every other uniform, what the program holds apart from u_fov, and the
   * camera alone.
   */
  lemma FovScenario(math: MathLib, registry: set<UniformName>, s: Snapshot)
    ensures var r := Dispatch(math, s, Parse("fov"), 2.0);
      && r.uniforms == s.uniforms[UFov := Scalar1f(2.0)]
      && r.camera == s.camera
      && (UFov in registry ==> Held(registry, r.uniforms) == Held(registry, s.uniforms)[UFov := Scalar1f(2.0)])
      && (UFov !in registry ==> Held(registry, r.uniforms) == Held(registry, s.uniforms))
  {
    HeldWrite(registry, s.uniforms, UFov, Scalar1f(2.0));
  }
}
