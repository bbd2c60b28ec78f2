/**
 * Composite style values: gradient stops, gradients and images. Every field
 * that affects geometry is a StyleSetValue, so it keeps its own unit or keyword.
 */
module StyleImages {
  import opened StyleValues

  /** One colour/offset pair of a gradient. */
  datatype StyleGradientStop = StyleGradientStop(color: StyleSetValue, position: StyleSetValue)
  {
    /** The default constructor: both members undefined. */
    static function Default(): (s: StyleGradientStop)
      ensures s.color.IsUndefined() && s.position.IsUndefined()
      ensures s.color == StyleSetValue.Default() && s.position == StyleSetValue.Default()
    {
      StyleGradientStop(StyleSetValue.Default(), StyleSetValue.Default())
    }
  }

  /** A linear or radial gradient; the order of `stops` is the order along the gradient axis. */
  datatype StyleGradient = StyleGradient(
    gradientType: StyleSetValue,
    linearAngle: StyleSetValue,
    radialShape: StyleSetValue,
    radialSizeX: StyleSetValue,
    radialSizeY: StyleSetValue,
    radialPositionX: StyleSetValue,
    radialPositionY: StyleSetValue,
    stops: seq<StyleGradientStop>)
  {
    /** A default-constructed gradient: every value undefined and no stops. */
    static function Default(): (g: StyleGradient)
      ensures g.gradientType.IsUndefined() && g.linearAngle.IsUndefined() && g.radialShape.IsUndefined()
      ensures g.radialSizeX.IsUndefined() && g.radialSizeY.IsUndefined()
      ensures g.radialPositionX.IsUndefined() && g.radialPositionY.IsUndefined()
      ensures g.stops == []
      ensures g.gradientType == g.linearAngle == g.radialShape == StyleSetValue.Default()
      ensures g.radialSizeX == g.radialSizeY == g.radialPositionX == g.radialPositionY == StyleSetValue.Default()
    {
      var u := StyleSetValue.Default();
      StyleGradient(u, u, u, u, u, u, u, [])
    }
  }

  /**
   * An image value holds both an image reference and a gradient, as the
   * original does; the constructor used decides which of the two is set, and
   * the other keeps its default.
   */
  datatype StyleImage = StyleImage(image: StyleSetValue, gradient: StyleGradient)
  {
    static function Default(): (i: StyleImage)
      ensures i.image.IsUndefined() && i.gradient == StyleGradient.Default()
      ensures i.image == StyleSetValue.Default()
    {
      StyleImage(StyleSetValue.Default(), StyleGradient.Default())
    }

    static function FromImage(image: StyleSetValue): (i: StyleImage)
      ensures i.image == image && i.gradient == StyleGradient.Default()
    {
      StyleImage(image, StyleGradient.Default())
    }

    static function FromGradient(gradient: StyleGradient): (i: StyleImage)
      ensures i.gradient == gradient && i.image.IsUndefined()
      ensures i.image == StyleSetValue.Default()
    {
      StyleImage(StyleSetValue.Default(), gradient)
    }
  }

  /**
   * An image built from a url never looks like a gradient-built one, and a
   * gradient-built image reports no image reference: which constructor was
   * used can be read back from the value.
   */
  lemma ImageConstructorsDistinct(url: string, gradient: StyleGradient)
    ensures StyleImage.FromImage(StyleSetValue.FromUrl(url)) != StyleImage.FromGradient(gradient)
    ensures StyleImage.FromImage(StyleSetValue.FromUrl(url)).image.IsUrl()
    ensures !StyleImage.FromGradient(gradient).image.IsUrl()
  {
  }
}
