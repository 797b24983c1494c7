/**
 * Conversion of a field rectangle between screen space (origin top-left,
 * pixels, multiplied by the zoom `scale`) and PDF space (origin bottom-left,
 * points). Only a scale and a vertical flip are applied. Coordinates are
 * exact reals, so the round trips below are equalities.
 */
module CoordinateConverter {
  import opened Wrappers
  import opened JsValues

  /** The rendering surface's current mapping (the optional calibration offsets are never read here). */
  datatype ViewportInfo = ViewportInfo(
    width: real,
    height: real,
    scale: real,
    pdfWidth: real,
    pdfHeight: real,
    offsetX: Option<real>,
    offsetY: Option<real>)

  /** A rectangle in screen pixels, `y` measured down from the page top to the rectangle's top edge. */
  datatype CSSPosition = CSSPosition(x: real, y: real, width: real, height: real)

  /** A rectangle in PDF points, `y` measured up from the page bottom to the rectangle's bottom edge. */
  datatype PDFPosition = PDFPosition(x: real, y: real, width: real, height: real)

  const DefaultWidth: real := 100.0
  const DefaultHeight: real := 30.0
  /** The height of an A4 page in points, used when the viewport reports none. */
  const A4Height: real := 842.0

  /** The fallback rectangle returned instead of dividing by a zero scale. */
  const DefaultPosition: PDFPosition := PDFPosition(0.0, 0.0, DefaultWidth, DefaultHeight)

  /** `viewport.pdfHeight || 842`. */
  function PageHeight(v: ViewportInfo): real {
    OrDefault(v.pdfHeight, A4Height)
  }

  /**
   * `cssToPdf`. With a zero scale it returns the fallback rectangle and
   * divides by nothing. Otherwise rescaling the result by `scale` gives back
   * the screen rectangle (with a zero width or height replaced by 100 or 30),
   * and the top edge measured from the page top is `cssY / scale`, which is
   * the self-check the source logs.
   */
  function CssToPdf(c: CSSPosition, v: ViewportInfo): (p: PDFPosition)
    ensures v.scale == 0.0 ==> p == DefaultPosition
    ensures v.scale != 0.0 ==>
      && p.x * v.scale == c.x
      && p.width * v.scale == OrDefault(c.width, DefaultWidth)
      && p.height * v.scale == OrDefault(c.height, DefaultHeight)
      && (PageHeight(v) - (p.y + p.height)) * v.scale == c.y
    ensures v.scale != 0.0 ==> PageHeight(v) - (p.y + p.height) == c.y / v.scale
  {
    if v.scale == 0.0 then DefaultPosition
    else
      var s := v.scale;
      var width := OrDefault(c.width, DefaultWidth) / s;
      var height := OrDefault(c.height, DefaultHeight) / s;
      var topEdge := c.y / s;
      PDFPosition(c.x / s, PageHeight(v) - (topEdge + height), width, height)
  }

  /**
   * `pdfToCss`. There is no guard on the scale here; a zero width, height or
   * page height falls back to 100, 30 or 842 before scaling. The top of the
   * screen rectangle lies `PageHeight - y - height` points below the page top.
   */
  function PdfToCss(p: PDFPosition, v: ViewportInfo): (c: CSSPosition)
    ensures c.x == p.x * v.scale
    ensures c.width == OrDefault(p.width, DefaultWidth) * v.scale
    ensures c.height == OrDefault(p.height, DefaultHeight) * v.scale
    ensures c.y + c.height == (PageHeight(v) - p.y) * v.scale
  {
    var width := OrDefault(p.width, DefaultWidth) * v.scale;
    var height := OrDefault(p.height, DefaultHeight) * v.scale;
    var topFromPageTop := PageHeight(v) - p.y - OrDefault(p.height, DefaultHeight);
    CSSPosition(p.x * v.scale, topFromPageTop * v.scale, width, height)
  }

  /** PDF -> screen -> PDF is the identity for a nonzero scale and a nonzero size. */
  lemma PdfCssPdfRoundTrip(p: PDFPosition, v: ViewportInfo)
    requires v.scale != 0.0 && p.width != 0.0 && p.height != 0.0
    ensures CssToPdf(PdfToCss(p, v), v) == p
  {
    var c := PdfToCss(p, v);
    var q := CssToPdf(c, v);
    var s := v.scale;
    assert c.width != 0.0 && c.height != 0.0;
    assert q.x * s == p.x * s;
    assert q.width * s == p.width * s;
    assert q.height * s == p.height * s;
  }

  /** Screen -> PDF -> screen is the identity for a nonzero scale and a nonzero size. */
  lemma CssPdfCssRoundTrip(c: CSSPosition, v: ViewportInfo)
    requires v.scale != 0.0 && c.width != 0.0 && c.height != 0.0
    ensures PdfToCss(CssToPdf(c, v), v) == c
  {
    var p := CssToPdf(c, v);
    var s := v.scale;
    assert p.width != 0.0 && p.height != 0.0;
  }

  /** The worked example: at scale 0.5 on an A4 page, {50,700,150,30} shows at {25,56,75,15}. */
  lemma PdfToCssA4Example(v: ViewportInfo)
    requires v.scale == 0.5 && v.pdfHeight == 842.0
    ensures PdfToCss(PDFPosition(50.0, 700.0, 150.0, 30.0), v) == CSSPosition(25.0, 56.0, 75.0, 15.0)
  {
  }

  /** `calculateScale`'s limit: `maxWidth || containerWidth`. */
  function ScaleLimit(containerWidth: real, maxWidth: Option<real>): real {
    if maxWidth.Some? && maxWidth.value != 0.0 then maxWidth.value else containerWidth
  }

  /**
   * `calculateScale`: `min(limit / pdfWidth, 1)`, so the page is never drawn
   * larger than its native size. None stands for the non-finite value a zero
   * `pdfWidth` yields when the limit is not positive (-Infinity or NaN); a
   * positive limit over a zero width is +Infinity, which the cap turns into 1.
   */
  function CalculateScale(containerWidth: real, pdfWidth: real, maxWidth: Option<real>): (r: Option<real>)
    ensures r.Some? ==> r.value <= 1.0
    ensures pdfWidth != 0.0 ==> r.Some?
    ensures pdfWidth != 0.0 && ScaleLimit(containerWidth, maxWidth) / pdfWidth <= 1.0 ==>
      r == Some(ScaleLimit(containerWidth, maxWidth) / pdfWidth)
    ensures pdfWidth != 0.0 && ScaleLimit(containerWidth, maxWidth) / pdfWidth > 1.0 ==> r == Some(1.0)
    ensures pdfWidth == 0.0 ==> (r.Some? <==> ScaleLimit(containerWidth, maxWidth) > 0.0)
    ensures pdfWidth == 0.0 && ScaleLimit(containerWidth, maxWidth) > 0.0 ==> r == Some(1.0)
  {
    var limit := ScaleLimit(containerWidth, maxWidth);
    if pdfWidth == 0.0 then
      if limit > 0.0 then Some(1.0) else None
    else
      Some(Min(limit / pdfWidth, 1.0))
  }
}
