/**
 * The spherical camera of `updateCamera`: azimuth and elevation in
 * degrees and a distance, turned into an eye position, with a fixed
 * look-at target.
 */
module Camera {
  import opened Uniforms

  /**
   * The parts of JavaScript's Math object the camera uses. Their numerics
   * are not modelled: lemmas that need a trigonometric fact take it as a
   * hypothesis at the point where they use it.
   */
  datatype MathLib = MathLib(sin: real -> real, cos: real -> real, pi: real)

  /** The fields of `cameraState`: angles in degrees, distance from the origin. */
  datatype Orbit = Orbit(azimuth: real, elevation: real, distance: real)

  /** The look-at target, the same on every call. */
  const Target: Vec3 := Vec3(0.0, -0.5, 0.0)

  /** The camera state `main` seeds before its first camera update. */
  const Seed: Orbit := Orbit(45.0, 20.0, 6.0)

  function Radians(math: MathLib, degrees: real): real {
    degrees * math.pi / 180.0
  }

  /** The eye position `updateCamera` computes (elevation measured from the horizontal plane). */
  function Position(math: MathLib, o: Orbit): Vec3 {
    var az := Radians(math, o.azimuth);
    var el := Radians(math, o.elevation);
    Vec3(o.distance * math.cos(el) * math.sin(az),
         o.distance * math.sin(el),
         o.distance * math.cos(el) * math.cos(az))
  }

  /** The two camera uniforms were last written for the camera state `o`. */
  ghost predicate InSync(math: MathLib, t: Table, o: Orbit) {
    && UCameraPos in t && t[UCameraPos] == Vector3f(Position(math, o))
    && UCameraTarget in t && t[UCameraTarget] == Vector3f(Target)
  }

  /** `updateCamera`: writes the eye position for `o` and the constant target. */
  function UpdateCamera(math: MathLib, t: Table, o: Orbit): (r: Table)
    ensures InSync(math, r, o)
  {
    t[UCameraPos := Vector3f(Position(math, o))][UCameraTarget := Vector3f(Target)]
  }

  /** `updateCamera` writes no uniform but the two camera ones. */
  lemma UpdateCameraWritesOnlyCamera(math: MathLib, t: Table, o: Orbit)
    ensures AgreeExcept(UpdateCamera(math, t, o), t, {UCameraPos, UCameraTarget})
  {
  }

  /** The target written does not depend on the camera state or on what the table held. */
  lemma TargetIgnoresState(math: MathLib, t1: Table, t2: Table, o1: Orbit, o2: Orbit)
    ensures UpdateCamera(math, t1, o1)[UCameraTarget] == UpdateCamera(math, t2, o2)[UCameraTarget]
    ensures UpdateCamera(math, t1, o1)[UCameraTarget] == Vector3f(Vec3(0.0, -0.5, 0.0))
  {
  }

  lemma ZeroDistanceIsOrigin(math: MathLib, o: Orbit)
    requires o.distance == 0.0
    ensures Position(math, o) == Vec3(0.0, 0.0, 0.0)
  {
  }

  /** The height of the eye depends on elevation and distance only. */
  lemma HeightIgnoresAzimuth(math: MathLib, o: Orbit, azimuth: real)
    ensures Position(math, o.(azimuth := azimuth)).y == Position(math, o).y
  {
  }

  /** Straight overhead (elevation 90 degrees) the eye is at (0, distance, 0), whatever the azimuth. */
  lemma Overhead(math: MathLib, o: Orbit)
    requires o.elevation == 90.0
    requires math.sin(math.pi / 2.0) == 1.0 && math.cos(math.pi / 2.0) == 0.0
    ensures Position(math, o) == Vec3(0.0, o.distance, 0.0)
  {
    assert Radians(math, o.elevation) == math.pi / 2.0;
  }

  ghost predicate FullTurnPeriodic(math: MathLib, t: real) {
    math.sin(t + 2.0 * math.pi) == math.sin(t) && math.cos(t + 2.0 * math.pi) == math.cos(t)
  }

  /** Adding a full turn to the azimuth leaves the eye where it was. */
  lemma FullTurnAzimuth(math: MathLib, o: Orbit)
    requires FullTurnPeriodic(math, Radians(math, o.azimuth))
    ensures Position(math, o.(azimuth := o.azimuth + 360.0)) == Position(math, o)
  {
    assert Radians(math, o.azimuth + 360.0) == Radians(math, o.azimuth) + 2.0 * math.pi;
  }

  ghost predicate Pythagorean(math: MathLib, t: real) {
    math.sin(t) * math.sin(t) + math.cos(t) * math.cos(t) == 1.0
  }

  function NormSquared(v: Vec3): real {
    v.x * v.x + v.y * v.y + v.z * v.z
  }

  /** With exact sine and cosine the eye lies on the sphere of radius `distance` round the origin. */
  lemma NormIsDistance(math: MathLib, o: Orbit)
    requires Pythagorean(math, Radians(math, o.azimuth))
    requires Pythagorean(math, Radians(math, o.elevation))
    ensures NormSquared(Position(math, o)) == o.distance * o.distance
  {
    var sa, ca := math.sin(Radians(math, o.azimuth)), math.cos(Radians(math, o.azimuth));
    var se, ce := math.sin(Radians(math, o.elevation)), math.cos(Radians(math, o.elevation));
    var d := o.distance;
    var p := Position(math, o);
    assert p.x * p.x + p.z * p.z == (d * ce) * (d * ce) * (sa * sa + ca * ca);
    assert p.x * p.x + p.z * p.z == (d * ce) * (d * ce);
    assert p.y * p.y == (d * se) * (d * se);
    calc {
      NormSquared(p);
      (d * ce) * (d * ce) + (d * se) * (d * se);
      d * d * (ce * ce + se * se);
      d * d;
    }
  }
}
