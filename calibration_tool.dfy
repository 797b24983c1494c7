/**
 * The calibration panel (src/components/CalibrationTool.tsx): a click on the
 * page is taken back to PDF space, matched with the nearest of three known
 * text baselines, and the difference between where that baseline was seen and
 * where it was expected becomes the measured offset.
 */
module Calibration {
  import opened Wrappers
  import opened CoordinateConverter
  import opened PdfCalibration

  /** A reference point with the name the panel lists it under. */
  datatype NamedPoint = NamedPoint(name: string, x: real, y: real)

  /** The candidates a click is matched against, in the order the `reduce` visits them. */
  const Candidates: seq<NamedPoint> := [
    NamedPoint("Title", TitlePoint.x, TitlePoint.y),
    NamedPoint("Date", DatePoint.x, DatePoint.y),
    NamedPoint("First Paragraph", FirstParagraphPoint.x, FirstParagraphPoint.y)
  ]

  /** A recorded click: the reference point chosen and where the click landed on screen. */
  datatype Measurement = Measurement(name: string, pdfX: real, pdfY: real, cssX: real, cssY: real)

  /** A click, relative to the page overlay, taken back to PDF space (the page height is used as given). */
  function ClickToPdf(cssX: real, cssY: real, v: ViewportInfo): (p: PdfPoint)
    requires v.scale != 0.0
    ensures p.x * v.scale == cssX
    ensures (v.pdfHeight - p.y) * v.scale == cssY
  {
    PdfPoint(cssX / v.scale, v.pdfHeight - cssY / v.scale)
  }

  /**
   * The square of the Euclidean distance. The square root the panel takes is
   * increasing, so comparing squares picks the same point.
   */
  function SquaredDistance(a: NamedPoint, p: PdfPoint): (d: real)
    ensures d >= 0.0
    ensures a.x == p.x && a.y == p.y ==> d == 0.0
  {
    var dx := a.x - p.x;
    var dy := a.y - p.y;
    Square(dx);
    Square(dy);
    dx * dx + dy * dy
  }

  lemma Square(x: real)
    ensures x * x >= 0.0
  {
    if x < 0.0 {
      var y := -x;
      assert y * y > 0.0;
      assert x * x == y * y;
    }
  }

  /**
   * The `reduce` over the candidates: the index of a nearest one, and the
   * first among equally near ones, since a later candidate replaces the
   * current one only when strictly nearer.
   */
  function NearestIndex(candidates: seq<NamedPoint>, p: PdfPoint): (k: nat)
    requires |candidates| > 0
    ensures k < |candidates|
    ensures forall j :: 0 <= j < |candidates| ==>
      SquaredDistance(candidates[k], p) <= SquaredDistance(candidates[j], p)
    ensures forall j :: 0 <= j < k ==>
      SquaredDistance(candidates[k], p) < SquaredDistance(candidates[j], p)
  {
    if |candidates| == 1 then 0
    else
      var last := |candidates| - 1;
      var prev := NearestIndex(candidates[..last], p);
      assert candidates[..last][prev] == candidates[prev];
      if SquaredDistance(candidates[last], p) < SquaredDistance(candidates[prev], p) then last else prev
  }

  /** The calibration viewport the panel's formulas read. */
  function CalibrationView(v: ViewportInfo): CalibrationViewport {
    CalibrationViewport(v.scale, v.pdfWidth, v.pdfHeight)
  }

  /** The measurement a click at (`cssX`, `cssY`) records: a nearest candidate and the click itself. */
  function MeasurementAt(cssX: real, cssY: real, v: ViewportInfo): (m: Measurement)
    requires v.scale != 0.0
    ensures m.cssX == cssX && m.cssY == cssY
    ensures NamedPoint(m.name, m.pdfX, m.pdfY) in Candidates
    ensures forall j :: 0 <= j < |Candidates| ==>
      SquaredDistance(NamedPoint(m.name, m.pdfX, m.pdfY), ClickToPdf(cssX, cssY, v))
      <= SquaredDistance(Candidates[j], ClickToPdf(cssX, cssY, v))
  {
    var closest := Candidates[NearestIndex(Candidates, ClickToPdf(cssX, cssY, v))];
    Measurement(closest.name, closest.x, closest.y, cssX, cssY)
  }

  /** The offset a measurement shows: where it was seen minus where its reference point is expected. */
  function MeasuredOffset(m: Measurement, v: ViewportInfo): (o: Offset)
    ensures m.cssX == m.pdfX * v.scale + o.offsetX
    ensures m.cssY == (v.pdfHeight - m.pdfY) * v.scale + o.offsetY
  {
    PointOffset(CalibrationPoint(m.pdfX, m.pdfY, m.cssX, m.cssY), CalibrationView(v))
  }

  /** A click exactly where a candidate is expected on screen picks that candidate and measures no offset. */
  lemma ClickOnCandidate(k: nat, v: ViewportInfo)
    requires k < |Candidates| && v.scale != 0.0
    ensures var c := Candidates[k];
      var cssX := c.x * v.scale;
      var cssY := (v.pdfHeight - c.y) * v.scale;
      && NearestIndex(Candidates, ClickToPdf(cssX, cssY, v)) == k
      && MeasuredOffset(MeasurementAt(cssX, cssY, v), v) == Offset(0.0, 0.0)
  {
    var c := Candidates[k];
    var p := ClickToPdf(c.x * v.scale, (v.pdfHeight - c.y) * v.scale, v);
    ClickToPdfInverts(c.x, c.y, v);
    var r := NearestIndex(Candidates, p);
    assert SquaredDistance(Candidates[r], p) <= SquaredDistance(Candidates[k], p);
    assert Candidates[r].y == c.y;
  }

  lemma ClickToPdfInverts(x: real, y: real, v: ViewportInfo)
    requires v.scale != 0.0
    ensures ClickToPdf(x * v.scale, (v.pdfHeight - y) * v.scale, v) == PdfPoint(x, y)
  {
    var p := ClickToPdf(x * v.scale, (v.pdfHeight - y) * v.scale, v);
    assert p.x == x by {
      CancelScale(p.x, x, v.scale);
    }
    assert v.pdfHeight - p.y == v.pdfHeight - y by {
      CancelScale(v.pdfHeight - p.y, v.pdfHeight - y, v.scale);
    }
  }

  lemma CancelScale(a: real, b: real, s: real)
    requires s != 0.0 && a * s == b * s
    ensures a == b
  {
    assert (a - b) * s == 0.0;
  }

  /** The offset set by the first measurement is what `calculateOffset` makes of that one measurement. */
  lemma FirstMeasurementAgreesWithCalculateOffset(m: Measurement, v: ViewportInfo)
    ensures MeasuredOffset(m, v) == CalculateOffset([CalibrationPoint(m.pdfX, m.pdfY, m.cssX, m.cssY)], CalibrationView(v))
  {
    SinglePointOffset(CalibrationPoint(m.pdfX, m.pdfY, m.cssX, m.cssY), CalibrationView(v));
  }

  /** `parseFloat(text) || 0`: None stands for text that does not parse, whose NaN falls back to 0 too. */
  function ParsedOrZero(input: Option<real>): (r: real)
    ensures input.Some? ==> r == input.value
    ensures input.None? ==> r == 0.0
  {
    match input
    case None => 0.0
    case Some(x) => x
  }

  /** The panel's state. */
  class CalibrationTool {
    var offsetX: real
    var offsetY: real
    var isOpen: bool
    var measurementMode: bool
    var measurements: seq<Measurement>

    constructor()
      ensures offsetX == 0.0 && offsetY == 0.0
      ensures !isOpen && !measurementMode && measurements == []
    {
      offsetX := 0.0;
      offsetY := 0.0;
      isOpen := false;
      measurementMode := false;
      measurements := [];
    }

    /** The "Calibrate" button. */
    method Open()
      modifies this
      ensures isOpen
      ensures offsetX == old(offsetX) && offsetY == old(offsetY)
      ensures measurementMode == old(measurementMode) && measurements == old(measurements)
    {
      isOpen := true;
    }

    /** The "Measure" button. */
    method StartMeasuring()
      modifies this
      ensures measurementMode
      ensures offsetX == old(offsetX) && offsetY == old(offsetY)
      ensures isOpen == old(isOpen) && measurements == old(measurements)
    {
      measurementMode := true;
    }

    /** Typing in the "Offset X" box. */
    method SetOffsetX(input: Option<real>)
      modifies this
      ensures offsetX == ParsedOrZero(input)
      ensures offsetY == old(offsetY) && isOpen == old(isOpen)
      ensures measurementMode == old(measurementMode) && measurements == old(measurements)
    {
      offsetX := ParsedOrZero(input);
    }

    /** Typing in the "Offset Y" box. */
    method SetOffsetY(input: Option<real>)
      modifies this
      ensures offsetY == ParsedOrZero(input)
      ensures offsetX == old(offsetX) && isOpen == old(isOpen)
      ensures measurementMode == old(measurementMode) && measurements == old(measurements)
    {
      offsetY := ParsedOrZero(input);
    }

    /** `handleApply`: hands the current offsets to the page and closes the panel. */
    method Apply() returns (appliedX: real, appliedY: real)
      modifies this
      ensures appliedX == old(offsetX) && appliedY == old(offsetY)
      ensures !isOpen
      ensures offsetX == old(offsetX) && offsetY == old(offsetY)
      ensures measurementMode == old(measurementMode) && measurements == old(measurements)
    {
      appliedX, appliedY := offsetX, offsetY;
      isOpen := false;
    }

    /** The "Reset" button: no offsets, no measurements, panel closed. */
    method Reset()
      modifies this
      ensures offsetX == 0.0 && offsetY == 0.0 && measurements == [] && !isOpen
      ensures measurementMode == old(measurementMode)
    {
      offsetX := 0.0;
      offsetY := 0.0;
      measurements := [];
      isOpen := false;
    }

    /**
     * `handleMeasureClick`. `click` is the click relative to the page
     * overlay, None when no overlay encloses the target. Ignored unless
     * measuring with a viewport and an overlay; otherwise one measurement
     * is appended, the offsets are set from it only when it is the first,
     * and measuring stops.
     */
    method MeasureClick(viewport: Option<ViewportInfo>, click: Option<(real, real)>)
      requires measurementMode && viewport.Some? && click.Some? ==> viewport.value.scale != 0.0
      modifies this
      ensures !old(measurementMode) || viewport.None? || click.None? ==>
        && measurements == old(measurements) && measurementMode == old(measurementMode)
        && offsetX == old(offsetX) && offsetY == old(offsetY)
      ensures old(measurementMode) && viewport.Some? && click.Some? ==>
        var m := MeasurementAt(click.value.0, click.value.1, viewport.value);
        && measurements == old(measurements) + [m]
        && !measurementMode
        && (old(measurements) == [] ==> Offset(offsetX, offsetY) == MeasuredOffset(m, viewport.value))
        && (old(measurements) != [] ==> offsetX == old(offsetX) && offsetY == old(offsetY))
      ensures isOpen == old(isOpen)
    {
      if !measurementMode || viewport.None? {
        return;
      }
      if click.None? {
        return;
      }
      var v := viewport.value;
      var cssX := click.value.0;
      var cssY := click.value.1;
      var closest := Candidates[NearestIndex(Candidates, ClickToPdf(cssX, cssY, v))];
      var calcOffsetX := cssX - closest.x * v.scale;
      var calcOffsetY := cssY - (v.pdfHeight - closest.y) * v.scale;
      var wasEmpty := |measurements| == 0;
      measurements := measurements + [Measurement(closest.name, closest.x, closest.y, cssX, cssY)];
      if wasEmpty {
        offsetX := calcOffsetX;
        offsetY := calcOffsetY;
      }
      measurementMode := false;
    }
  }

  /**
   * Measuring a click exactly on the title, from a fresh panel, records the
   * title and leaves the offsets at zero; the next click, wherever it lands,
   * no longer moves them.
   */
  method MeasureTitleThenAnother(v: ViewportInfo, cssX: real, cssY: real) returns (tool: CalibrationTool)
    requires v.scale != 0.0
    ensures fresh(tool)
    ensures |tool.measurements| == 2 && tool.measurements[0].name == "Title"
    ensures tool.offsetX == 0.0 && tool.offsetY == 0.0
  {
    var titleX := TitlePoint.x * v.scale;
    var titleY := (v.pdfHeight - TitlePoint.y) * v.scale;
    ClickOnCandidate(0, v);
    var first := MeasurementAt(titleX, titleY, v);
    assert first.name == "Title";
    assert MeasuredOffset(first, v) == Offset(0.0, 0.0);
    tool := new CalibrationTool();
    tool.StartMeasuring();
    tool.MeasureClick(Some(v), Some((titleX, titleY)));
    assert tool.measurements == [first];
    tool.StartMeasuring();
    tool.MeasureClick(Some(v), Some((cssX, cssY)));
  }
}
