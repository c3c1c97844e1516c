/**
  Color-vision-deficiency simulation as seen by the color constructors.

  Both simulations are supplied to the color model as opaque functions of type
  `Simulator`. For the Brettel, Viénot and Mollon (1997) two-plane algorithm this
  module also states its discrete structure: the argument range checks, the
  choice of parameter profile by deficiency, the choice of projection plane by
  the sign of the separation-plane projection, and the severity blend. The
  sRGB/linear-RGB gamma codec it calls is supplied as a pair of opaque
  functions, and real arithmetic stands in for double precision.
 */
module Accessibility {
  import opened Wrappers

  /** An 8-bit color channel. */
  type Channel = x: int | 0 <= x <= 255

  /** Three channels, as returned by a simulation. */
  datatype Rgb = Rgb(r: Channel, g: Channel, b: Channel)

  /** The simulated color-vision deficiency (red, green or blue cones). */
  datatype Deficiency = Protan | Deutan | Tritan

  /** The argument an ArgumentOutOfRangeException names. */
  datatype Argument = Red | Green | Blue | Severity

  datatype TransformError = OutOfRange(argument: Argument)

  /** The call shape shared by both simulations: (r, g, b, deficiency, severity). */
  type Simulator = (int, int, int, Deficiency, real) -> Result<Rgb, TransformError>

  // ---------------------------------------------------------------------
  // Brettel 1997: parameters
  // ---------------------------------------------------------------------

  datatype Vec3 = Vec3(x: real, y: real, z: real)

  /** A 3x3 matrix stored by rows. */
  datatype Matrix = Matrix(row0: Vec3, row1: Vec3, row2: Vec3)

  datatype BrettelParameters = BrettelParameters(
    transPlane1: Matrix,
    transPlane2: Matrix,
    separationPlaneNormal: Vec3)

  const PROTAN_PARAMETERS := BrettelParameters(
    Matrix(Vec3(0.14980, 1.19548, -0.34528),
           Vec3(0.10764, 0.84864, 0.04372),
           Vec3(0.00384, -0.00540, 1.00156)),
    Matrix(Vec3(0.14570, 1.16172, -0.30742),
           Vec3(0.10816, 0.85291, 0.03892),
           Vec3(0.00386, -0.00524, 1.00139)),
    Vec3(0.00048, 0.00393, -0.00441))

  const DEUTAN_PARAMETERS := BrettelParameters(
    Matrix(Vec3(0.36477, 0.86381, -0.22858),
           Vec3(0.26294, 0.64245, 0.09462),
           Vec3(-0.02006, 0.02728, 0.99278)),
    Matrix(Vec3(0.37298, 0.88166, -0.25464),
           Vec3(0.25954, 0.63506, 0.10540),
           Vec3(-0.01980, 0.02784, 0.99196)),
    Vec3(-0.00281, -0.00611, 0.00892))

  const TRITAN_PARAMETERS := BrettelParameters(
    Matrix(Vec3(1.01277, 0.13548, -0.14826),
           Vec3(-0.01243, 0.86812, 0.14431),
           Vec3(0.07589, 0.80500, 0.11911)),
    Matrix(Vec3(0.93678, 0.18979, -0.12657),
           Vec3(0.06154, 0.81526, 0.12320),
           Vec3(-0.37562, 1.12767, 0.24796)),
    Vec3(0.03901, -0.02788, -0.01113))

  /** The parameter profile of a deficiency. */
  function Parameters(def: Deficiency): BrettelParameters {
    match def
    case Protan => PROTAN_PARAMETERS
    case Deutan => DEUTAN_PARAMETERS
    case Tritan => TRITAN_PARAMETERS
  }

  /** Each deficiency has its own profile, and each profile two distinct planes. */
  lemma ParametersDistinct(d1: Deficiency, d2: Deficiency)
    ensures Parameters(d1) == Parameters(d2) <==> d1 == d2
    ensures Parameters(d1).transPlane1 != Parameters(d1).transPlane2
  {
  }

  // ---------------------------------------------------------------------
  // Brettel 1997: the linear algebra
  // ---------------------------------------------------------------------

  function Dot(u: Vec3, v: Vec3): real {
    u.x * v.x + u.y * v.y + u.z * v.z
  }

  function Apply(m: Matrix, v: Vec3): Vec3 {
    Vec3(Dot(m.row0, v), Dot(m.row1, v), Dot(m.row2, v))
  }

  /** The plane matrix used for a linear color: the first when the projection is non-negative. */
  function SelectPlane(p: BrettelParameters, linear: Vec3): (m: Matrix)
    ensures Dot(linear, p.separationPlaneNormal) >= 0.0 ==> m == p.transPlane1
    ensures Dot(linear, p.separationPlaneNormal) < 0.0 ==> m == p.transPlane2
  {
    if Dot(linear, p.separationPlaneNormal) >= 0.0 then p.transPlane1 else p.transPlane2
  }

  /** `simulated * severity + original * (1 - severity)`, per channel. */
  function Blend(simulated: Vec3, original: Vec3, severity: real): Vec3 {
    Vec3(simulated.x * severity + original.x * (1.0 - severity),
         simulated.y * severity + original.y * (1.0 - severity),
         simulated.z * severity + original.z * (1.0 - severity))
  }

  /** Severity 0 keeps the original, severity 1 takes the simulated color. */
  lemma BlendEndpoints(simulated: Vec3, original: Vec3)
    ensures Blend(simulated, original, 0.0) == original
    ensures Blend(simulated, original, 1.0) == simulated
  {
  }

  // ---------------------------------------------------------------------
  // Brettel 1997: the transform
  // ---------------------------------------------------------------------

  /**
    The sRGB/linear-RGB conversions the transform calls (ColorTools.SRGBToLinearRGB
    and ColorTools.LinearRGBTosRGB); the second yields a channel in [0, 255].
   */
  datatype Gamma = Gamma(toLinear: int -> real, toSrgb: real -> Channel)

  function Linearize(gamma: Gamma, r: int, g: int, b: int): Vec3 {
    Vec3(gamma.toLinear(r), gamma.toLinear(g), gamma.toLinear(b))
  }

  function ToSrgb(gamma: Gamma, v: Vec3): Rgb {
    Rgb(gamma.toSrgb(v.x), gamma.toSrgb(v.y), gamma.toSrgb(v.z))
  }

  predicate InByteRange(x: int) {
    0 <= x <= 255
  }

  /**
    Brettel1997.Transform. The arguments are checked in the order r, g, b,
    severity, and the first one out of range is reported.
   */
  function Transform(gamma: Gamma, r: int, g: int, b: int, def: Deficiency, severity: real)
    : (res: Result<Rgb, TransformError>)
    ensures res == Err(OutOfRange(Red)) <==> !InByteRange(r)
    ensures res == Err(OutOfRange(Green)) <==> InByteRange(r) && !InByteRange(g)
    ensures res == Err(OutOfRange(Blue)) <==> InByteRange(r) && InByteRange(g) && !InByteRange(b)
    ensures res == Err(OutOfRange(Severity)) <==>
      InByteRange(r) && InByteRange(g) && InByteRange(b) && !(0.0 <= severity <= 1.0)
  {
    if r < 0 || r > 255 then Err(OutOfRange(Red))
    else if g < 0 || g > 255 then Err(OutOfRange(Green))
    else if b < 0 || b > 255 then Err(OutOfRange(Blue))
    else if severity < 0.0 || severity > 1.0 then Err(OutOfRange(Severity))
    else
      var bp := Parameters(def);
      var linears := Linearize(gamma, r, g, b);
      var defPlane := SelectPlane(bp, linears);
      var rgbMatrix := Apply(defPlane, linears);
      Ok(ToSrgb(gamma, Blend(rgbMatrix, linears, severity)))
  }

  /** The two-plane algorithm as a simulator for the color model. */
  function Brettel(gamma: Gamma): Simulator {
    (r, g, b, def, severity) => Transform(gamma, r, g, b, def, severity)
  }

  /** Accepted arguments always produce a result; the failures are exactly the range violations. */
  lemma TransformAccepts(gamma: Gamma, r: int, g: int, b: int, def: Deficiency, severity: real)
    ensures Transform(gamma, r, g, b, def, severity).Ok? <==>
      InByteRange(r) && InByteRange(g) && InByteRange(b) && 0.0 <= severity <= 1.0
  {
  }

  /** Severity 0 only round-trips each channel through the gamma codec. */
  lemma SeverityZeroKeepsColor(gamma: Gamma, r: Channel, g: Channel, b: Channel, def: Deficiency)
    ensures Transform(gamma, r, g, b, def, 0.0) ==
      Ok(Rgb(gamma.toSrgb(gamma.toLinear(r)), gamma.toSrgb(gamma.toLinear(g)), gamma.toSrgb(gamma.toLinear(b))))
  {
    BlendEndpoints(Apply(SelectPlane(Parameters(def), Linearize(gamma, r, g, b)), Linearize(gamma, r, g, b)),
                   Linearize(gamma, r, g, b));
  }

  /**
    Severity 1 gives the fully simulated color: the first plane of the profile
    when the projection on the separation normal is non-negative, else the second.
   */
  lemma SeverityOneIsDichromat(gamma: Gamma, r: Channel, g: Channel, b: Channel, def: Deficiency)
    ensures var linear := Linearize(gamma, r, g, b);
            var p := Parameters(def);
            Transform(gamma, r, g, b, def, 1.0) ==
              Ok(ToSrgb(gamma, Apply(if Dot(linear, p.separationPlaneNormal) >= 0.0
                                     then p.transPlane1 else p.transPlane2, linear)))
  {
    var linear := Linearize(gamma, r, g, b);
    BlendEndpoints(Apply(SelectPlane(Parameters(def), linear), linear), linear);
  }
}
