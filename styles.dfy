/** The inline style of a layer element, restricted to the properties the
    script reads or writes: `display`, the custom properties `--adjusted-x`
    and `--adjusted-y`, `width`, `height` and `transform`. An unset property
    is `None` (`getPropertyValue` then gives the empty string). */
module Styles {

  import opened Wrappers

  /** `style.display`: unset (`''`), `'none'` or `'block'`. */
  datatype Display = Unset | Hidden | Block

  /** A CSS length: `p%`, or `calc(p% + qpx)`. */
  datatype Length = Percent(pct: real) | PercentPlusPx(pct: real, px: real)

  /** `translate(baseX, baseY) translate(parallaxXpx, parallaxYpx)`. */
  datatype Transform = Transform(baseX: Length, baseY: Length, parallaxX: real, parallaxY: real)

  datatype Style = Style(
    display: Display,
    adjustedX: Option<Length>,
    adjustedY: Option<Length>,
    width: Option<Length>,
    height: Option<Length>,
    transform: Option<Transform>)

  /** Style of an element whose inline style the script has not touched. */
  const Untouched: Style := Style(Unset, None, None, None, None, None)

  /** The centring offset of a layer, in percent of its own size. */
  const Centring: real := -50.0

  /** The fixed upward shift written into `--adjusted-y`, in pixels. */
  const InitialYOffset: real := -50.0

  /** `applyAdjustments(layer, yOffset, xOffset, size)` on the layer's style.
      The script computes `-50 + yOffset` but never writes it: `--adjusted-y`
      always receives `calc(-50% + -50px)`. */
  function Adjusted(s: Style, yOffset: real, xOffset: real, size: real): (r: Style)
    ensures r.width == r.height
    ensures r.display == s.display && r.transform == s.transform
  {
    s.(adjustedX := Some(Percent(Centring + xOffset)),
       adjustedY := Some(PercentPlusPx(Centring, InitialYOffset)),
       width := Some(Percent(size)),
       height := Some(Percent(size)))
  }

  /** `getPropertyValue('--adjusted-x') || '-50%'`. */
  function BaseX(s: Style): Length {
    s.adjustedX.GetOr(Percent(Centring))
  }

  /** `getPropertyValue('--adjusted-y') || '-50%'`. */
  function BaseY(s: Style): Length {
    s.adjustedY.GetOr(Percent(Centring))
  }

  /** The transform the mouse-move handler writes: the layer's base offset
      followed by its parallax shift. */
  function ParallaxTransform(s: Style, parallaxX: real, parallaxY: real): (t: Transform)
    ensures s.adjustedX.None? ==> t.baseX == Percent(-50.0)
    ensures s.adjustedX.Some? ==> t.baseX == s.adjustedX.value
    ensures s.adjustedY.None? ==> t.baseY == Percent(-50.0)
    ensures s.adjustedY.Some? ==> t.baseY == s.adjustedY.value
    ensures t.parallaxX == parallaxX && t.parallaxY == parallaxY
  {
    Transform(BaseX(s), BaseY(s), parallaxX, parallaxY)
  }

  /** What the adjustment writes: `--adjusted-x` is `(-50 + xOffset)%`,
      width and height are both `size%`, `--adjusted-y` is `calc(-50% + -50px)`;
      every other property is kept. */
  lemma AdjustedWrites(s: Style, yOffset: real, xOffset: real, size: real)
    ensures Adjusted(s, yOffset, xOffset, size).adjustedX == Some(Percent(-50.0 + xOffset))
    ensures Adjusted(s, yOffset, xOffset, size).adjustedY == Some(PercentPlusPx(-50.0, -50.0))
    ensures Adjusted(s, yOffset, xOffset, size).width == Some(Percent(size))
    ensures Adjusted(s, yOffset, xOffset, size).height == Some(Percent(size))
    ensures Adjusted(s, yOffset, xOffset, size).display == s.display
    ensures Adjusted(s, yOffset, xOffset, size).transform == s.transform
  {
  }

  /** The Y slider has no effect on the style. */
  lemma YSliderIgnored(s: Style, y1: real, y2: real, xOffset: real, size: real)
    ensures Adjusted(s, y1, xOffset, size) == Adjusted(s, y2, xOffset, size)
  {
  }

  /** Only the last adjustment matters: it overwrites every property an
      earlier one wrote. */
  lemma LastAdjustmentWins(s: Style, y1: real, x1: real, size1: real, y2: real, x2: real, size2: real)
    ensures Adjusted(Adjusted(s, y1, x1, size1), y2, x2, size2) == Adjusted(s, y2, x2, size2)
  {
  }

  /** After an adjustment the parallax no longer falls back: it starts from
      `((-50 + xOffset)%, calc(-50% + -50px))`. */
  lemma AdjustedBase(s: Style, yOffset: real, xOffset: real, size: real, px: real, py: real)
    ensures ParallaxTransform(Adjusted(s, yOffset, xOffset, size), px, py)
            == Transform(Percent(-50.0 + xOffset), PercentPlusPx(-50.0, -50.0), px, py)
  {
  }

  /** A layer never adjusted is translated from `(-50%, -50%)`. */
  lemma UnadjustedBase(s: Style, px: real, py: real)
    requires s.adjustedX.None? && s.adjustedY.None?
    ensures ParallaxTransform(s, px, py) == Transform(Percent(-50.0), Percent(-50.0), px, py)
  {
  }
}
