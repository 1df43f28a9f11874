/**
 * Viewport metrics of the vanilla front end: the width threshold that selects
 * the compact (mobile) layout, the two camera distances derived from the
 * window's aspect ratio, the axis the info panel slides along and the offset
 * the globe is panned to when the camera zooms in.
 */
module Viewport {

  /** Widths up to this many CSS pixels use the compact layout. */
  const MobileMaxWidth: nat := 768

  /** `isMobile()`: the window is at most 768 pixels wide. */
  predicate IsMobile(width: nat)
  {
    width <= MobileMaxWidth
  }

  /** The compact layout covers exactly the widths up to 768: every narrower window is compact too. */
  lemma CompactLayoutBoundary(narrower: nat, wider: nat)
    requires narrower <= wider
    ensures IsMobile(wider) ==> IsMobile(narrower)
    ensures IsMobile(768) && !IsMobile(769)
  {
  }

  function Aspect(width: nat, height: nat): (a: real)
    requires height > 0
    ensures a >= 0.0
    ensures a * height as real == width as real
  {
    width as real / height as real
  }

  /** The aspect ratio is below 1 exactly when the window is taller than it is wide. */
  lemma PortraitIffTaller(width: nat, height: nat)
    requires height > 0
    ensures Aspect(width, height) < 1.0 <==> width < height
  {
    var a, h := Aspect(width, height), height as real;
    if a < 1.0 {
      assert a * h < 1.0 * h;
    } else {
      assert a * h >= 1.0 * h;
    }
  }

  function Max(a: real, b: real): (m: real)
    ensures m >= a && m >= b && (m == a || m == b)
  {
    if a >= b then a else b
  }

  /** The camera's distance from the globe when zoomed out and when zoomed in. */
  datatype ZoomLevels = ZoomLevels(defaultZoom: real, zoomedInZoom: real)

  /** The zoom-out distance before the compact-layout scale: the larger of 2 and 3 minus the aspect ratio. */
  function BaseZoom(width: nat, height: nat): (z: real)
    requires height > 0
    ensures 2.0 <= z <= 3.0
  {
    Max(2.0, 3.0 - Aspect(width, height))
  }

  /**
   * `calculateZoomLevels()`. The zoomed-in distance is always 0.6 of the
   * zoomed-out one, so zooming in always brings the camera closer; the compact
   * layout scales both by 1.2.
   */
  function CalculateZoomLevels(width: nat, height: nat): (z: ZoomLevels)
    requires height > 0
    ensures z.zoomedInZoom == 0.6 * z.defaultZoom
    ensures 0.0 < z.zoomedInZoom < z.defaultZoom
    ensures z.defaultZoom >= 2.0
    ensures z.defaultZoom == (if IsMobile(width) then 1.2 else 1.0) * BaseZoom(width, height)
  {
    var base := BaseZoom(width, height);
    var levels := ZoomLevels(base, base * 0.6);
    if IsMobile(width) then ZoomLevels(levels.defaultZoom * 1.2, levels.zoomedInZoom * 1.2) else levels
  }

  /**
   * Two windows with the same aspect ratio, one compact and one wide, get
   * distances that differ exactly by the compact-layout factor 1.2.
   */
  lemma CompactLayoutScalesBoth(compactWidth: nat, compactHeight: nat, wideWidth: nat, wideHeight: nat)
    requires compactHeight > 0 && wideHeight > 0
    requires IsMobile(compactWidth) && !IsMobile(wideWidth)
    requires Aspect(compactWidth, compactHeight) == Aspect(wideWidth, wideHeight)
    ensures CalculateZoomLevels(compactWidth, compactHeight).defaultZoom
         == 1.2 * CalculateZoomLevels(wideWidth, wideHeight).defaultZoom
    ensures CalculateZoomLevels(compactWidth, compactHeight).zoomedInZoom
         == 1.2 * CalculateZoomLevels(wideWidth, wideHeight).zoomedInZoom
  {
  }

  /** Within one layout, a wider aspect ratio never moves the camera further out. */
  lemma WiderAspectNotFurther(w1: nat, h1: nat, w2: nat, h2: nat)
    requires h1 > 0 && h2 > 0
    requires IsMobile(w1) == IsMobile(w2)
    requires Aspect(w1, h1) <= Aspect(w2, h2)
    ensures CalculateZoomLevels(w2, h2).defaultZoom <= CalculateZoomLevels(w1, h1).defaultZoom
  {
  }

  /** The axis along which the info panel slides: vertical in the compact layout, horizontal otherwise. */
  datatype Axis = Horizontal | Vertical

  function PanelAxis(width: nat): (a: Axis)
    ensures a == Vertical <==> IsMobile(width)
  {
    if IsMobile(width) then Vertical else Horizontal
  }

  /** Where the globe is panned to when the camera zooms in. */
  datatype Offset = Offset(x: real, y: real)

  /**
   * The pan target of `zoomInAndPan`. It decides "mobile" by a portrait aspect
   * ratio, not by the 768-pixel width test used everywhere else: a portrait
   * window pans the globe down, any other window pans it left.
   */
  function ZoomInOffset(width: nat, height: nat): (o: Offset)
    requires height > 0
    ensures o.x <= 0.0 && o.y <= 0.0 && (o.x == 0.0 || o.y == 0.0)
    ensures o.y != 0.0 <==> Aspect(width, height) < 1.0
    ensures o.x != 0.0 <==> Aspect(width, height) >= 1.0
  {
    var portrait := Aspect(width, height) < 1.0;
    Offset(if portrait then 0.0 else -0.25, if portrait then -0.5 else 0.0)
  }

  /**
   * The two notions of "mobile" disagree: an 800 by 1000 window has the wide
   * layout (horizontal panel) yet zooms in with the portrait offset.
   */
  lemma MobileTestsDisagree()
    ensures !IsMobile(800) && PanelAxis(800) == Horizontal
    ensures ZoomInOffset(800, 1000) == Offset(0.0, -0.5)
  {
    PortraitIffTaller(800, 1000);
  }
}
