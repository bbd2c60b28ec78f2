/**
 * Unit conversion of the computed-value stage: lengths to px, angles to
 * radians, times to seconds, frequencies to Hz and resolutions to dots per px.
 */
module StyleUnits {
  import opened StyleValues

  /** The circle constant, as the double closest to it; real arithmetic on it is exact. */
  const PI: real := 3.141592653589793

  /**
   * What a length conversion needs beyond the value: the element's font size
   * (for em and ex), the root element's font size (rem), the advance of the
   * "0" glyph (ch) and the viewport size (vw, vh, vmin, vmax), all in px.
   */
  datatype LengthContext = LengthContext(
    fontSize: real,
    rootFontSize: real,
    zeroAdvance: real,
    viewportWidth: real,
    viewportHeight: real)

  predicate IsLengthUnit(d: StyleDimension) {
    d in {Px, Em, Pt, Mm, Cm, In, Pc, Ex, Ch, Rem, Vw, Vh, Vmin, Vmax}
  }

  predicate IsAngleUnit(d: StyleDimension) { d in {Deg, Grad, Rad, Turn} }
  predicate IsTimeUnit(d: StyleDimension) { d in {S, Ms} }
  predicate IsFrequencyUnit(d: StyleDimension) { d in {Hz, Khz} }
  predicate IsResolutionUnit(d: StyleDimension) { d in {Dpi, Dpcm, Dppx} }

  function Min(a: real, b: real): real { if a <= b then a else b }
  function Max(a: real, b: real): real { if a <= b then b else a }

  /** How many px one unit of `d` is: 96 px per inch, 72 pt per inch, 2.54 cm per inch, 12 pt per pica, 1ex = 0.5em. */
  function PxPerUnit(d: StyleDimension, ctx: LengthContext): (f: real)
    requires IsLengthUnit(d)
    ensures d == Px ==> f == 1.0
    ensures d == In ==> f == 96.0
  {
    match d
    case Px => 1.0
    case In => 96.0
    case Cm => 96.0 / 2.54
    case Mm => 96.0 / 25.4
    case Pt => 96.0 / 72.0
    case Pc => 12.0 * (96.0 / 72.0)
    case Em => ctx.fontSize
    case Ex => 0.5 * ctx.fontSize
    case Ch => ctx.zeroAdvance
    case Rem => ctx.rootFontSize
    case Vw => ctx.viewportWidth / 100.0
    case Vh => ctx.viewportHeight / 100.0
    case Vmin => Min(ctx.viewportWidth, ctx.viewportHeight) / 100.0
    case Vmax => Max(ctx.viewportWidth, ctx.viewportHeight) / 100.0
  }

  /** Converts a length into px; anything that is not a length in a length unit passes through. */
  function ComputeLength(v: StyleGetValue, ctx: LengthContext): (r: StyleGetValue)
    ensures r.Type() == v.Type()
    ensures v.IsLength() && IsLengthUnit(v.Dimension()) ==>
              r.Dimension() == Px && r.Number() == v.Number() * PxPerUnit(v.Dimension(), ctx)
    ensures !(v.IsLength() && IsLengthUnit(v.Dimension())) ==> r == v
    ensures v.IsLength() && v.Dimension() == Px ==> r == v
  {
    if v.IsLength() && IsLengthUnit(v.Dimension())
    then StyleGetValue.FromLength(v.Number() * PxPerUnit(v.Dimension(), ctx), Px)
    else v
  }

  /** How many radians one unit of `d` is. */
  function RadiansPerUnit(d: StyleDimension): (f: real)
    requires IsAngleUnit(d)
    ensures d == Rad ==> f == 1.0
  {
    match d
    case Rad => 1.0
    case Deg => PI / 180.0
    case Grad => PI / 200.0
    case Turn => 2.0 * PI
  }

  /** Converts an angle into radians. */
  function ComputeAngle(v: StyleGetValue): (r: StyleGetValue)
    ensures r.Type() == v.Type()
    ensures v.IsAngle() && IsAngleUnit(v.Dimension()) ==>
              r.Dimension() == Rad && r.Number() == v.Number() * RadiansPerUnit(v.Dimension())
    ensures !(v.IsAngle() && IsAngleUnit(v.Dimension())) ==> r == v
    ensures v.IsAngle() && v.Dimension() == Rad ==> r == v
  {
    if v.IsAngle() && IsAngleUnit(v.Dimension())
    then StyleGetValue.FromAngle(v.Number() * RadiansPerUnit(v.Dimension()), Rad)
    else v
  }

  /** Converts a time into seconds. */
  function ComputeTime(v: StyleGetValue): (r: StyleGetValue)
    ensures r.Type() == v.Type()
    ensures v.IsTime() && IsTimeUnit(v.Dimension()) ==>
              r.Dimension() == S && r.Number() == (if v.Dimension() == Ms then v.Number() / 1000.0 else v.Number())
    ensures !(v.IsTime() && IsTimeUnit(v.Dimension())) ==> r == v
    ensures v.IsTime() && v.Dimension() == S ==> r == v
  {
    if v.IsTime() && v.Dimension() == Ms then StyleGetValue.FromTime(v.Number() / 1000.0, S)
    else v
  }

  /** Converts a frequency into Hz. */
  function ComputeFrequency(v: StyleGetValue): (r: StyleGetValue)
    ensures r.Type() == v.Type()
    ensures v.IsFrequency() && IsFrequencyUnit(v.Dimension()) ==>
              r.Dimension() == Hz && r.Number() == (if v.Dimension() == Khz then v.Number() * 1000.0 else v.Number())
    ensures !(v.IsFrequency() && IsFrequencyUnit(v.Dimension())) ==> r == v
    ensures v.IsFrequency() && v.Dimension() == Hz ==> r == v
  {
    if v.IsFrequency() && v.Dimension() == Khz then StyleGetValue.FromFrequency(v.Number() * 1000.0, Hz)
    else v
  }

  /** How many dots per px one unit of `d` is: 96 px per inch, 96/2.54 px per cm. */
  function DppxPerUnit(d: StyleDimension): (f: real)
    requires IsResolutionUnit(d)
    ensures d == Dppx ==> f == 1.0
  {
    match d
    case Dppx => 1.0
    case Dpi => 1.0 / 96.0
    case Dpcm => 2.54 / 96.0
  }

  /** Converts a resolution into dots per px (the pixel ratio). */
  function ComputeResolution(v: StyleGetValue): (r: StyleGetValue)
    ensures r.Type() == v.Type()
    ensures v.IsResolution() && IsResolutionUnit(v.Dimension()) ==>
              r.Dimension() == Dppx && r.Number() == v.Number() * DppxPerUnit(v.Dimension())
    ensures !(v.IsResolution() && IsResolutionUnit(v.Dimension())) ==> r == v
    ensures v.IsResolution() && v.Dimension() == Dppx ==> r == v
  {
    if v.IsResolution() && IsResolutionUnit(v.Dimension())
    then StyleGetValue.FromResolution(v.Number() * DppxPerUnit(v.Dimension()), Dppx)
    else v
  }

  /**
   * Normalises a specified value to its canonical unit by its kind; keyword,
   * string, url, colour, percentage, number and undefined values pass through.
   */
  function ComputeValue(v: StyleGetValue, ctx: LengthContext): (r: StyleGetValue)
    ensures r.Type() == v.Type()
    ensures !CarriesUnit(v.Type()) ==> r == v
  {
    match v.Type()
    case Length => ComputeLength(v, ctx)
    case Angle => ComputeAngle(v)
    case Time => ComputeTime(v)
    case Frequency => ComputeFrequency(v)
    case Resolution => ComputeResolution(v)
    case _ => v
  }

  /** A converted value's unit is canonical for its kind whenever the input's unit belonged to that kind. */
  predicate InCanonicalUnit(v: StyleGetValue) {
    match v.Type()
    case Length => v.Dimension() == Px
    case Angle => v.Dimension() == Rad
    case Time => v.Dimension() == S
    case Frequency => v.Dimension() == Hz
    case Resolution => v.Dimension() == Dppx
    case _ => true
  }

  /** The unit of `v` belongs to the family its kind expects (a length in a length unit, and so on). */
  predicate UnitMatchesKind(v: StyleGetValue) {
    match v.Type()
    case Length => IsLengthUnit(v.Dimension())
    case Angle => IsAngleUnit(v.Dimension())
    case Time => IsTimeUnit(v.Dimension())
    case Frequency => IsFrequencyUnit(v.Dimension())
    case Resolution => IsResolutionUnit(v.Dimension())
    case _ => true
  }

  /** Conversion lands in the canonical unit whenever the unit matches the kind. */
  lemma ComputeValueCanonical(v: StyleGetValue, ctx: LengthContext)
    requires UnitMatchesKind(v)
    ensures InCanonicalUnit(ComputeValue(v, ctx))
    ensures UnitMatchesKind(ComputeValue(v, ctx))
  {
  }

  /** Values already in their canonical unit are left unchanged. */
  lemma CanonicalIsFixedPoint(v: StyleGetValue, ctx: LengthContext)
    requires InCanonicalUnit(v)
    ensures ComputeValue(v, ctx) == v
  {
  }

  /** Applying the conversion twice equals applying it once. */
  lemma ComputeValueIdempotent(v: StyleGetValue, ctx: LengthContext)
    ensures ComputeValue(ComputeValue(v, ctx), ctx) == ComputeValue(v, ctx)
  {
  }

  lemma ComputeLengthIdempotent(v: StyleGetValue, ctx: LengthContext)
    ensures ComputeLength(ComputeLength(v, ctx), ctx) == ComputeLength(v, ctx)
  {
  }

  /** The ratios of the length units: 1in = 96px = 72pt = 2.54cm = 25.4mm = 6pc, 1ex = 0.5em. */
  lemma LengthRatios(ctx: LengthContext)
    ensures ComputeLength(StyleGetValue.FromLength(1.0, In), ctx) == StyleGetValue.FromLength(96.0)
    ensures ComputeLength(StyleGetValue.FromLength(72.0, Pt), ctx) == StyleGetValue.FromLength(96.0)
    ensures ComputeLength(StyleGetValue.FromLength(2.54, Cm), ctx) == StyleGetValue.FromLength(96.0)
    ensures ComputeLength(StyleGetValue.FromLength(25.4, Mm), ctx) == StyleGetValue.FromLength(96.0)
    ensures ComputeLength(StyleGetValue.FromLength(1.0, Pc), ctx) == ComputeLength(StyleGetValue.FromLength(12.0, Pt), ctx)
    ensures ComputeLength(StyleGetValue.FromLength(2.0, Ex), ctx) == ComputeLength(StyleGetValue.FromLength(1.0, Em), ctx)
  {
  }

  /** An em is the element's font size: 2em at a 20px font size are 40px. */
  lemma EmExample()
    ensures ComputeLength(StyleGetValue.FromLength(2.0, Em), LengthContext(20.0, 16.0, 8.0, 800.0, 600.0))
            == StyleGetValue.FromLength(40.0)
  {
  }

  /** Half a circle in every angle unit is PI radians. */
  lemma AngleRatios()
    ensures ComputeAngle(StyleGetValue.FromAngle(180.0, Deg)) == StyleGetValue.FromAngle(PI)
    ensures ComputeAngle(StyleGetValue.FromAngle(200.0, Grad)) == StyleGetValue.FromAngle(PI)
    ensures ComputeAngle(StyleGetValue.FromAngle(0.5, Turn)) == StyleGetValue.FromAngle(PI)
  {
  }

  /** 1000ms are 1s, 1kHz is 1000Hz, 96dpi and 96/2.54 dpcm are 1dppx. */
  lemma TimeFrequencyResolutionRatios()
    ensures ComputeTime(StyleGetValue.FromTime(1000.0, Ms)) == StyleGetValue.FromTime(1.0)
    ensures ComputeFrequency(StyleGetValue.FromFrequency(1.0, Khz)) == StyleGetValue.FromFrequency(1000.0)
    ensures ComputeResolution(StyleGetValue.FromResolution(96.0, Dpi)) == StyleGetValue.FromResolution(1.0)
    ensures ComputeResolution(StyleGetValue.FromResolution(96.0 / 2.54, Dpcm)) == StyleGetValue.FromResolution(1.0)
  {
  }
}
