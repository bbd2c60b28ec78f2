/**
 * The style value model: value kinds, units, colours, the read view
 * StyleGetValue and the owning StyleSetValue.
 *
 * StyleGetValue is a tag plus a C++ union in the original; reading a union
 * member that the tag does not select is never done by its accessors, so it
 * is modelled as a closed sum type with exactly one constructor per kind.
 * StyleSetValue is a plain struct with five public fields and is modelled as
 * a record with the same five fields.
 */
module StyleValues {

  /** Kind of a style value. */
  datatype StyleValueType =
    | Undefined
    | Keyword
    | Length
    | Percentage
    | Number
    | String
    | Url
    | Color
    | Angle
    | Time
    | Frequency
    | Resolution

  /** Unit of a style value: length, angle, time, frequency and resolution units. */
  datatype StyleDimension =
    | Px | Em | Pt | Mm | Cm | In | Pc | Ex | Ch | Rem | Vw | Vh | Vmin | Vmax
    | Deg | Grad | Rad | Turn
    | S | Ms
    | Hz | Khz
    | Dpi | Dpcm | Dppx

  /** An RGBA colour with real channels (the original uses float). */
  datatype Colorf = Colorf(r: real, g: real, b: real, a: real)

  /** The colour a default-constructed Colorf holds. */
  const DefaultColor: Colorf := Colorf(0.0, 0.0, 0.0, 0.0)

  /** Kinds whose payload is a text: keyword, url and string. */
  predicate CarriesText(t: StyleValueType) {
    t == Keyword || t == Url || t == String
  }

  /** Kinds whose payload holds a number. */
  predicate CarriesNumber(t: StyleValueType) {
    t == Length || t == Percentage || t == Number || t == Angle
    || t == Time || t == Frequency || t == Resolution
  }

  /** Kinds whose payload holds a unit; percentage and number do not. */
  predicate CarriesUnit(t: StyleValueType) {
    t == Length || t == Angle || t == Time || t == Frequency || t == Resolution
  }

  /** Read view of a style value. */
  datatype StyleGetValue =
    | UndefinedValue
    | KeywordValue(storedText: string)
    | StringValue(storedText: string)
    | UrlValue(storedText: string)
    | LengthValue(storedNumber: real, storedUnit: StyleDimension)
    | PercentageValue(storedNumber: real)
    | NumberValue(storedNumber: real)
    | AngleValue(storedNumber: real, storedUnit: StyleDimension)
    | TimeValue(storedNumber: real, storedUnit: StyleDimension)
    | FrequencyValue(storedNumber: real, storedUnit: StyleDimension)
    | ResolutionValue(storedNumber: real, storedUnit: StyleDimension)
    | ColorValue(storedColor: Colorf)
  {
    /** The variant tag. */
    function Type(): StyleValueType {
      match this
      case UndefinedValue => Undefined
      case KeywordValue(_) => Keyword
      case StringValue(_) => String
      case UrlValue(_) => Url
      case LengthValue(_, _) => Length
      case PercentageValue(_) => Percentage
      case NumberValue(_) => StyleValueType.Number
      case AngleValue(_, _) => Angle
      case TimeValue(_, _) => Time
      case FrequencyValue(_, _) => Frequency
      case ResolutionValue(_, _) => Resolution
      case ColorValue(_) => StyleValueType.Color
    }

    /** The text for keyword, url and string values; "" for every other kind. */
    function Text(): (r: string)
      ensures CarriesText(Type()) ==> r == storedText
      ensures !CarriesText(Type()) ==> r == ""
    {
      match this
      case KeywordValue(t) => t
      case StringValue(t) => t
      case UrlValue(t) => t
      case _ => ""
    }

    /** The number for the seven numeric kinds; 0 for every other kind. */
    function Number(): (r: real)
      ensures CarriesNumber(Type()) ==> r == storedNumber
      ensures !CarriesNumber(Type()) ==> r == 0.0
    {
      match this
      case LengthValue(n, _) => n
      case PercentageValue(n) => n
      case NumberValue(n) => n
      case AngleValue(n, _) => n
      case TimeValue(n, _) => n
      case FrequencyValue(n, _) => n
      case ResolutionValue(n, _) => n
      case _ => 0.0
    }

    /** The unit for the five unit-carrying kinds; px otherwise, percentage and number included. */
    function Dimension(): (r: StyleDimension)
      ensures CarriesUnit(Type()) ==> r == storedUnit
      ensures !CarriesUnit(Type()) ==> r == Px
    {
      match this
      case LengthValue(_, d) => d
      case AngleValue(_, d) => d
      case TimeValue(_, d) => d
      case FrequencyValue(_, d) => d
      case ResolutionValue(_, d) => d
      case _ => Px
    }

    /** The colour of a colour value; the default colour otherwise. */
    function Color(): (r: Colorf)
      ensures Type() == StyleValueType.Color ==> r == storedColor
      ensures Type() != StyleValueType.Color ==> r == DefaultColor
    {
      match this
      case ColorValue(c) => c
      case _ => DefaultColor
    }

    predicate IsUndefined() { Type() == Undefined }
    predicate IsKeyword() { Type() == Keyword }
    /** A keyword value whose text equals `keyword`, compared case-sensitively. */
    predicate IsKeywordNamed(keyword: string) { IsKeyword() && Text() == keyword }
    predicate IsLength() { Type() == Length }
    predicate IsAngle() { Type() == Angle }
    predicate IsTime() { Type() == Time }
    predicate IsFrequency() { Type() == Frequency }
    predicate IsResolution() { Type() == Resolution }
    predicate IsPercentage() { Type() == Percentage }
    predicate IsNumber() { Type() == StyleValueType.Number }
    predicate IsString() { Type() == String }
    predicate IsUrl() { Type() == Url }
    predicate IsColor() { Type() == StyleValueType.Color }

    /** A default-constructed value. */
    static function Default(): (v: StyleGetValue)
      ensures v.IsUndefined()
      ensures v.Text() == "" && v.Number() == 0.0 && v.Dimension() == Px && v.Color() == DefaultColor
    {
      UndefinedValue
    }

    static function FromKeyword(keyword: string): (v: StyleGetValue)
      ensures v.IsKeyword() && v.Text() == keyword && v.IsKeywordNamed(keyword)
      ensures v.Number() == 0.0 && v.Dimension() == Px
    {
      KeywordValue(keyword)
    }

    static function FromString(text: string): (v: StyleGetValue)
      ensures v.IsString() && v.Text() == text && !v.IsKeyword()
    {
      StringValue(text)
    }

    static function FromLength(length: real, dimension: StyleDimension := Px): (v: StyleGetValue)
      ensures v.IsLength() && v.Number() == length && v.Dimension() == dimension
      ensures v.Text() == ""
    {
      LengthValue(length, dimension)
    }

    static function FromAngle(angle: real, dimension: StyleDimension := Rad): (v: StyleGetValue)
      ensures v.IsAngle() && v.Number() == angle && v.Dimension() == dimension
    {
      AngleValue(angle, dimension)
    }

    static function FromTime(t: real, dimension: StyleDimension := S): (v: StyleGetValue)
      ensures v.IsTime() && v.Number() == t && v.Dimension() == dimension
    {
      TimeValue(t, dimension)
    }

    static function FromFrequency(freq: real, dimension: StyleDimension := Hz): (v: StyleGetValue)
      ensures v.IsFrequency() && v.Number() == freq && v.Dimension() == dimension
    {
      FrequencyValue(freq, dimension)
    }

    static function FromResolution(resolution: real, dimension: StyleDimension := Dppx): (v: StyleGetValue)
      ensures v.IsResolution() && v.Number() == resolution && v.Dimension() == dimension
    {
      ResolutionValue(resolution, dimension)
    }

    /** A percentage stores no unit, so its dimension reads as px. */
    static function FromPercentage(percentage: real): (v: StyleGetValue)
      ensures v.IsPercentage() && v.Number() == percentage && v.Dimension() == Px
    {
      PercentageValue(percentage)
    }

    static function FromNumber(number: real): (v: StyleGetValue)
      ensures v.IsNumber() && v.Number() == number && v.Dimension() == Px
    {
      NumberValue(number)
    }

    static function FromUrl(url: string): (v: StyleGetValue)
      ensures v.IsUrl() && v.Text() == url && !v.IsKeyword()
    {
      UrlValue(url)
    }

    static function FromColor(color: Colorf): (v: StyleGetValue)
      ensures v.IsColor() && v.Color() == color
      ensures v.Text() == "" && v.Number() == 0.0 && v.Dimension() == Px
    {
      ColorValue(color)
    }
  }

  /** The tag selects exactly the payload that the value holds. */
  lemma TypeSelectsPayload(v: StyleGetValue)
    ensures v.Type() == Undefined <==> v.UndefinedValue?
    ensures CarriesText(v.Type()) <==> v.KeywordValue? || v.StringValue? || v.UrlValue?
    ensures CarriesNumber(v.Type()) <==>
              v.LengthValue? || v.PercentageValue? || v.NumberValue? || v.AngleValue?
              || v.TimeValue? || v.FrequencyValue? || v.ResolutionValue?
    ensures CarriesUnit(v.Type()) <==> v.LengthValue? || v.AngleValue? || v.TimeValue? || v.FrequencyValue? || v.ResolutionValue?
    ensures v.Type() == StyleValueType.Color <==> v.ColorValue?
  {
  }

  /** How many of the twelve kind predicates hold for a read value. */
  function KindsOf(v: StyleGetValue): nat {
    (if v.IsUndefined() then 1 else 0) + (if v.IsKeyword() then 1 else 0) + (if v.IsLength() then 1 else 0)
    + (if v.IsAngle() then 1 else 0) + (if v.IsTime() then 1 else 0) + (if v.IsFrequency() then 1 else 0)
    + (if v.IsResolution() then 1 else 0) + (if v.IsPercentage() then 1 else 0) + (if v.IsNumber() then 1 else 0)
    + (if v.IsString() then 1 else 0) + (if v.IsUrl() then 1 else 0) + (if v.IsColor() then 1 else 0)
  }

  /** Each is_* predicate recognises exactly one variant, so exactly one of them holds for every value. */
  lemma KindPredicatesMatchVariant(v: StyleGetValue)
    ensures v.IsUndefined() <==> v.UndefinedValue?
    ensures v.IsKeyword() <==> v.KeywordValue?
    ensures v.IsLength() <==> v.LengthValue?
    ensures v.IsAngle() <==> v.AngleValue?
    ensures v.IsTime() <==> v.TimeValue?
    ensures v.IsFrequency() <==> v.FrequencyValue?
    ensures v.IsResolution() <==> v.ResolutionValue?
    ensures v.IsPercentage() <==> v.PercentageValue?
    ensures v.IsNumber() <==> v.NumberValue?
    ensures v.IsString() <==> v.StringValue?
    ensures v.IsUrl() <==> v.UrlValue?
    ensures v.IsColor() <==> v.ColorValue?
    ensures KindsOf(v) == 1
  {
  }

  /** is_keyword(k) holds exactly for the value from_keyword(k) builds. */
  lemma KeywordNamedIffFromKeyword(v: StyleGetValue, keyword: string)
    ensures v.IsKeywordNamed(keyword) <==> v == StyleGetValue.FromKeyword(keyword)
  {
  }

  /** is_undefined holds exactly for the default-constructed value. */
  lemma UndefinedIffDefault(v: StyleGetValue)
    ensures v.IsUndefined() <==> v == StyleGetValue.Default()
  {
  }

  /** The tag and the four accessors together determine a read value: no payload is hidden from them. */
  lemma AccessorsDetermineValue(v: StyleGetValue, w: StyleGetValue)
    requires v.Type() == w.Type()
    requires v.Text() == w.Text() && v.Number() == w.Number()
    requires v.Dimension() == w.Dimension() && v.Color() == w.Color()
    ensures v == w
  {
  }

  /** Owning style value: a struct whose five fields are all public. */
  datatype StyleSetValue = StyleSetValue(
    valueType: StyleValueType,
    text: string,
    number: real,
    dimension: StyleDimension,
    color: Colorf)
  {
    predicate IsUndefined() { valueType == Undefined }
    predicate IsKeyword() { valueType == Keyword }
    predicate IsKeywordNamed(keyword: string) { IsKeyword() && text == keyword }
    predicate IsLength() { valueType == Length }
    predicate IsAngle() { valueType == Angle }
    predicate IsTime() { valueType == Time }
    predicate IsFrequency() { valueType == Frequency }
    predicate IsResolution() { valueType == Resolution }
    predicate IsPercentage() { valueType == Percentage }
    predicate IsNumber() { valueType == Number }
    predicate IsString() { valueType == String }
    predicate IsUrl() { valueType == Url }
    predicate IsColor() { valueType == Color }

    /** The field initialisers of the struct. */
    static function Default(): (v: StyleSetValue)
      ensures v.IsUndefined() && v.text == "" && v.number == 0.0
      ensures v.dimension == Px && v.color == DefaultColor
    {
      StyleSetValue(Undefined, "", 0.0, Px, DefaultColor)
    }

    static function FromKeyword(keyword: string): (v: StyleSetValue)
      ensures v.IsKeywordNamed(keyword) && v == Default().(valueType := Keyword, text := keyword)
      ensures v.ToGetValue() == StyleGetValue.FromKeyword(keyword)
    {
      Default().(valueType := Keyword, text := keyword)
    }

    static function FromString(text: string): (v: StyleSetValue)
      ensures v.IsString() && v == Default().(valueType := String, text := text)
      ensures v.ToGetValue() == StyleGetValue.FromString(text)
    {
      Default().(valueType := String, text := text)
    }

    static function FromLength(length: real, dimension: StyleDimension := Px): (v: StyleSetValue)
      ensures v.IsLength() && v == Default().(valueType := Length, number := length, dimension := dimension)
      ensures v.ToGetValue() == StyleGetValue.FromLength(length, dimension)
    {
      Default().(valueType := Length, number := length, dimension := dimension)
    }

    static function FromAngle(angle: real, dimension: StyleDimension := Rad): (v: StyleSetValue)
      ensures v.IsAngle() && v == Default().(valueType := Angle, number := angle, dimension := dimension)
      ensures v.ToGetValue() == StyleGetValue.FromAngle(angle, dimension)
    {
      Default().(valueType := Angle, number := angle, dimension := dimension)
    }

    static function FromTime(t: real, dimension: StyleDimension := S): (v: StyleSetValue)
      ensures v.IsTime() && v == Default().(valueType := Time, number := t, dimension := dimension)
      ensures v.ToGetValue() == StyleGetValue.FromTime(t, dimension)
    {
      Default().(valueType := Time, number := t, dimension := dimension)
    }

    static function FromFrequency(freq: real, dimension: StyleDimension := Hz): (v: StyleSetValue)
      ensures v.IsFrequency() && v == Default().(valueType := Frequency, number := freq, dimension := dimension)
      ensures v.ToGetValue() == StyleGetValue.FromFrequency(freq, dimension)
    {
      Default().(valueType := Frequency, number := freq, dimension := dimension)
    }

    static function FromResolution(resolution: real, dimension: StyleDimension := Dppx): (v: StyleSetValue)
      ensures v.IsResolution() && v == Default().(valueType := Resolution, number := resolution, dimension := dimension)
      ensures v.ToGetValue() == StyleGetValue.FromResolution(resolution, dimension)
    {
      Default().(valueType := Resolution, number := resolution, dimension := dimension)
    }

    /** Leaves the dimension at its default px. */
    static function FromPercentage(percentage: real): (v: StyleSetValue)
      ensures v.IsPercentage() && v == Default().(valueType := Percentage, number := percentage)
      ensures v.ToGetValue() == StyleGetValue.FromPercentage(percentage)
    {
      Default().(valueType := Percentage, number := percentage)
    }

    static function FromNumber(number: real): (v: StyleSetValue)
      ensures v.IsNumber() && v == Default().(valueType := Number, number := number)
      ensures v.ToGetValue() == StyleGetValue.FromNumber(number)
    {
      Default().(valueType := Number, number := number)
    }

    static function FromUrl(url: string): (v: StyleSetValue)
      ensures v.IsUrl() && v == Default().(valueType := Url, text := url)
      ensures v.ToGetValue() == StyleGetValue.FromUrl(url)
    {
      Default().(valueType := Url, text := url)
    }

    static function FromColor(color: Colorf): (v: StyleSetValue)
      ensures v.IsColor() && v == Default().(valueType := Color, color := color)
      ensures v.ToGetValue() == StyleGetValue.FromColor(color)
    {
      Default().(valueType := Color, color := color)
    }

    /**
     * Widens a stored value to a read view, as a property set does when it
     * answers a declared-value query: the tag is kept and the payload that
     * the tag selects is carried over.
     */
    function ToGetValue(): (r: StyleGetValue)
      ensures r.Type() == valueType
      ensures CarriesText(valueType) ==> r.Text() == text
      ensures CarriesNumber(valueType) ==> r.Number() == number
      ensures CarriesUnit(valueType) ==> r.Dimension() == dimension
      ensures valueType == Color ==> r.Color() == color
    {
      match valueType
      case Undefined => UndefinedValue
      case Keyword => KeywordValue(text)
      case String => StringValue(text)
      case Url => UrlValue(text)
      case Length => LengthValue(number, dimension)
      case Percentage => PercentageValue(number)
      case Number => NumberValue(number)
      case Angle => AngleValue(number, dimension)
      case Time => TimeValue(number, dimension)
      case Frequency => FrequencyValue(number, dimension)
      case Resolution => ResolutionValue(number, dimension)
      case Color => ColorValue(color)
    }
  }

  /** How many of the twelve kind predicates hold for a stored value. */
  function SetKindsOf(v: StyleSetValue): nat {
    (if v.IsUndefined() then 1 else 0) + (if v.IsKeyword() then 1 else 0) + (if v.IsLength() then 1 else 0)
    + (if v.IsAngle() then 1 else 0) + (if v.IsTime() then 1 else 0) + (if v.IsFrequency() then 1 else 0)
    + (if v.IsResolution() then 1 else 0) + (if v.IsPercentage() then 1 else 0) + (if v.IsNumber() then 1 else 0)
    + (if v.IsString() then 1 else 0) + (if v.IsUrl() then 1 else 0) + (if v.IsColor() then 1 else 0)
  }

  /**
   * Exactly one kind predicate holds for a stored value, and is_keyword(k)
   * holds exactly for from_keyword(k) once the unused fields are at their initialisers.
   */
  lemma SetKindPredicatesExclusive(v: StyleSetValue, keyword: string)
    ensures SetKindsOf(v) == 1
    ensures v.IsKeywordNamed(keyword) && v.number == 0.0 && v.dimension == Px && v.color == DefaultColor
            <==> v == StyleSetValue.FromKeyword(keyword)
  {
  }

  /** is_keyword(k) agrees between a stored value and its read view. */
  lemma KeywordNamedAgrees(v: StyleSetValue, keyword: string)
    ensures v.IsKeywordNamed(keyword) <==> v.ToGetValue().IsKeywordNamed(keyword)
  {
  }

  /** Every kind predicate agrees between a stored value and its read view. */
  lemma KindPredicatesAgree(v: StyleSetValue)
    ensures v.IsUndefined() == v.ToGetValue().IsUndefined()
    ensures v.IsLength() == v.ToGetValue().IsLength()
    ensures v.IsColor() == v.ToGetValue().IsColor()
    ensures v.IsKeyword() == v.ToGetValue().IsKeyword()
    ensures v.IsPercentage() == v.ToGetValue().IsPercentage()
    ensures v.IsNumber() == v.ToGetValue().IsNumber()
    ensures v.IsString() == v.ToGetValue().IsString()
    ensures v.IsUrl() == v.ToGetValue().IsUrl()
    ensures v.IsAngle() == v.ToGetValue().IsAngle()
    ensures v.IsTime() == v.ToGetValue().IsTime()
    ensures v.IsFrequency() == v.ToGetValue().IsFrequency()
    ensures v.IsResolution() == v.ToGetValue().IsResolution()
  {
  }
}
