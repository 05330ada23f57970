/**
 * The shader's uniform inputs as the harness sees them: a fixed set of
 * names, the values written with uniform1f / uniform1i / uniform3f(v), and
 * the table of the values the script has passed to gl.uniform* for each.
 */
module Uniforms {

  /** A three-component vector as passed to uniform3fv / uniform3f. */
  datatype Vec3 = Vec3(x: real, y: real, z: real)

  /** The ten uniforms whose locations `initUniforms` looks up. */
  datatype UniformName =
    | ITime | IResolution | UNoise | UCameraPos | UCameraTarget
    | UNoiseScale | UFov | UCloudSpeed | UCloudType | ULightPreset

  const AllUniforms: set<UniformName> :=
    {ITime, IResolution, UNoise, UCameraPos, UCameraTarget,
     UNoiseScale, UFov, UCloudSpeed, UCloudType, ULightPreset}

  /** The GLSL identifier each entry of the location table is resolved against. */
  function GlslName(u: UniformName): string {
    match u
    case ITime => "iTime"
    case IResolution => "iResolution"
    case UNoise => "u_noise"
    case UCameraPos => "u_cameraPos"
    case UCameraTarget => "u_cameraTarget"
    case UNoiseScale => "u_noiseScale"
    case UFov => "u_fov"
    case UCloudSpeed => "u_cloudSpeed"
    case UCloudType => "u_cloudType"
    case ULightPreset => "u_lightPreset"
  }

  /**
   * A value written to a uniform, tagged by the call that wrote it.
   * `Scalar1i` keeps the JavaScript number handed to uniform1i; the
   * driver's conversion of that number to a GLint is not modelled.
   */
  datatype Value = Scalar1f(f: real) | Scalar1i(n: real) | Vector3f(v: Vec3)

  /** The values the script has passed to gl.uniform*, per uniform that has been written. */
  type Table = map<UniformName, Value>

  lemma {:induction false} EveryNameIsKnown(u: UniformName)
    ensures u in AllUniforms
  {
    match u
    case ITime =>
    case IResolution =>
    case UNoise =>
    case UCameraPos =>
    case UCameraTarget =>
    case UNoiseScale =>
    case UFov =>
    case UCloudSpeed =>
    case UCloudType =>
    case ULightPreset =>
  }

  /**
   * The location table: getUniformLocation yields a usable location
   * exactly for the names the linked program has as active uniforms,
   * and null for every other.
   */
  function Resolve(active: set<string>): (registry: set<UniformName>)
    ensures forall u :: u in registry <==> GlslName(u) in active
  {
    var r := set u | u in AllUniforms && GlslName(u) in active;
    assert forall u :: GlslName(u) in active ==> u in r by {
      forall u | GlslName(u) in active ensures u in r {
        EveryNameIsKnown(u);
      }
    }
    r
  }

  /**
   * What the linked program holds: the script passes every value to a
   * gl.uniform* call, and WebGL ignores a call whose location is null, so
   * the program sees the script's writes to registered names only.
   */
  function Held(registry: set<UniformName>, t: Table): Table
  {
    map u | u in t && u in registry :: t[u]
  }

  /** A write through a registered location changes one held value; one through a null location changes nothing. */
  lemma HeldWrite(registry: set<UniformName>, t: Table, u: UniformName, v: Value)
    ensures u in registry ==> Held(registry, t[u := v]) == Held(registry, t)[u := v]
    ensures u !in registry ==> Held(registry, t[u := v]) == Held(registry, t)
  {
    var after, before := Held(registry, t[u := v]), Held(registry, t);
    if u in registry {
      assert forall w :: w in after <==> w in before[u := v];
    } else {
      assert forall w :: w in after <==> w in before;
    }
  }

  /** `a` and `b` hold the same uniforms with the same values outside `changed`. */
  ghost predicate AgreeExcept(a: Table, b: Table, changed: set<UniformName>) {
    forall u :: u !in changed ==> (u in a <==> u in b) && (u in a ==> a[u] == b[u])
  }
}
