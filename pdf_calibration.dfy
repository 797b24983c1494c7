/**
 * Calibration maths (src/lib/pdfCalibration.ts): the offset between where
 * a known PDF point is expected on screen and where it was seen, averaged
 * over a list of such points, and the table of text baselines of the sample
 * contract that serve as known points.
 */
module PdfCalibration {

  /** A known PDF point (`y` up from the page bottom) and where it appeared on screen (`y` down from the top). */
  datatype CalibrationPoint = CalibrationPoint(pdfX: real, pdfY: real, cssX: real, cssY: real)

  /** The part of the viewport the calculation reads; the page height is used as given, with no fallback. */
  datatype CalibrationViewport = CalibrationViewport(scale: real, pdfWidth: real, pdfHeight: real)

  datatype Offset = Offset(offsetX: real, offsetY: real)

  /** Where a PDF point is expected on screen. */
  function ExpectedCss(pdfX: real, pdfY: real, v: CalibrationViewport): (r: (real, real))
    ensures r.0 == pdfX * v.scale
    ensures r.1 + pdfY * v.scale == v.pdfHeight * v.scale
  {
    (pdfX * v.scale, (v.pdfHeight - pdfY) * v.scale)
  }

  /** How far one point was seen from where it was expected: zero exactly when it sits there. */
  function PointOffset(p: CalibrationPoint, v: CalibrationViewport): (o: Offset)
    ensures (o.offsetX, o.offsetY) == (0.0, 0.0) <==> (p.cssX, p.cssY) == ExpectedCss(p.pdfX, p.pdfY, v)
    ensures p.cssX == ExpectedCss(p.pdfX, p.pdfY, v).0 + o.offsetX
    ensures p.cssY == ExpectedCss(p.pdfX, p.pdfY, v).1 + o.offsetY
  {
    var expected := ExpectedCss(p.pdfX, p.pdfY, v);
    Offset(p.cssX - expected.0, p.cssY - expected.1)
  }

  /** The per-point offsets, in list order (the `map`). */
  function Offsets(points: seq<CalibrationPoint>, v: CalibrationViewport): (r: seq<Offset>)
    ensures |r| == |points|
    ensures forall i :: 0 <= i < |points| ==> r[i] == PointOffset(points[i], v)
  {
    seq(|points|, i requires 0 <= i < |points| => PointOffset(points[i], v))
  }

  /** `reduce((sum, o) => sum + o.offsetX, 0)`, folding from the left. */
  function SumX(offsets: seq<Offset>): real {
    if |offsets| == 0 then 0.0 else SumX(offsets[..|offsets| - 1]) + offsets[|offsets| - 1].offsetX
  }

  function SumY(offsets: seq<Offset>): real {
    if |offsets| == 0 then 0.0 else SumY(offsets[..|offsets| - 1]) + offsets[|offsets| - 1].offsetY
  }

  /**
   * `calculateOffset`: (0, 0) for an empty list, otherwise the arithmetic
   * mean of the per-point offsets, that is the offset whose `n`-fold is the
   * sum of the `n` offsets.
   */
  function CalculateOffset(points: seq<CalibrationPoint>, v: CalibrationViewport): (r: Offset)
    ensures |points| == 0 ==> r == Offset(0.0, 0.0)
    ensures |points| > 0 ==>
      && r.offsetX * |points| as real == SumX(Offsets(points, v))
      && r.offsetY * |points| as real == SumY(Offsets(points, v))
  {
    if |points| == 0 then Offset(0.0, 0.0)
    else
      var offsets := Offsets(points, v);
      var n := |offsets| as real;
      Offset(SumX(offsets) / n, SumY(offsets) / n)
  }

  lemma {:induction false} SumOfConstant(offsets: seq<Offset>, o: Offset)
    requires forall i :: 0 <= i < |offsets| ==> offsets[i] == o
    ensures SumX(offsets) == |offsets| as real * o.offsetX
    ensures SumY(offsets) == |offsets| as real * o.offsetY
  {
    if |offsets| > 0 {
      SumOfConstant(offsets[..|offsets| - 1], o);
    }
  }

  lemma {:induction false} SumXBounds(offsets: seq<Offset>, lo: real, hi: real)
    requires forall i :: 0 <= i < |offsets| ==> lo <= offsets[i].offsetX <= hi
    ensures |offsets| as real * lo <= SumX(offsets) <= |offsets| as real * hi
  {
    if |offsets| > 0 {
      var k := |offsets| - 1;
      SumXBounds(offsets[..k], lo, hi);
      ScaleStep(k as real, lo);
      ScaleStep(k as real, hi);
    }
  }

  lemma {:induction false} SumYBounds(offsets: seq<Offset>, lo: real, hi: real)
    requires forall i :: 0 <= i < |offsets| ==> lo <= offsets[i].offsetY <= hi
    ensures |offsets| as real * lo <= SumY(offsets) <= |offsets| as real * hi
  {
    if |offsets| > 0 {
      var k := |offsets| - 1;
      SumYBounds(offsets[..k], lo, hi);
      ScaleStep(k as real, lo);
      ScaleStep(k as real, hi);
    }
  }

  lemma ScaleStep(m: real, a: real)
    ensures (m + 1.0) * a == m * a + a
  {
  }

  /** A mean `r` of `n` values (`r * n == sum`) lies between any bounds of the sum scaled by `n`. */
  lemma MeanBound(sum: real, n: real, r: real, lo: real, hi: real)
    requires n > 0.0 && r * n == sum && n * lo <= sum <= n * hi
    ensures lo <= r <= hi
  {
    assert (r - lo) * n >= 0.0;
    assert (hi - r) * n >= 0.0;
  }

  /** When every point is off by the same amount, that amount is the result. */
  lemma ConstantOffsetIsFound(points: seq<CalibrationPoint>, v: CalibrationViewport, o: Offset)
    requires |points| > 0
    requires forall i :: 0 <= i < |points| ==> PointOffset(points[i], v) == o
    ensures CalculateOffset(points, v) == o
  {
    SumOfConstant(Offsets(points, v), o);
  }

  /** A single point yields its own offset. */
  lemma SinglePointOffset(p: CalibrationPoint, v: CalibrationViewport)
    ensures CalculateOffset([p], v) == PointOffset(p, v)
  {
    ConstantOffsetIsFound([p], v, PointOffset(p, v));
  }

  /** Points that all sit exactly where expected yield no offset. */
  lemma ExactPointsGiveZero(points: seq<CalibrationPoint>, v: CalibrationViewport)
    requires forall i :: 0 <= i < |points| ==>
      (points[i].cssX, points[i].cssY) == ExpectedCss(points[i].pdfX, points[i].pdfY, v)
    ensures CalculateOffset(points, v) == Offset(0.0, 0.0)
  {
    if |points| > 0 {
      ConstantOffsetIsFound(points, v, Offset(0.0, 0.0));
    }
  }

  /** The mean lies between the smallest and the largest of the per-point offsets, axis by axis. */
  lemma MeanWithinRange(points: seq<CalibrationPoint>, v: CalibrationViewport, lo: Offset, hi: Offset)
    requires |points| > 0
    requires forall i :: 0 <= i < |points| ==>
      lo.offsetX <= PointOffset(points[i], v).offsetX <= hi.offsetX
      && lo.offsetY <= PointOffset(points[i], v).offsetY <= hi.offsetY
    ensures lo.offsetX <= CalculateOffset(points, v).offsetX <= hi.offsetX
    ensures lo.offsetY <= CalculateOffset(points, v).offsetY <= hi.offsetY
  {
    var offsets := Offsets(points, v);
    var r := CalculateOffset(points, v);
    assert lo.offsetX <= r.offsetX <= hi.offsetX by {
      SumXBounds(offsets, lo.offsetX, hi.offsetX);
      MeanBound(SumX(offsets), |points| as real, r.offsetX, lo.offsetX, hi.offsetX);
    }
    assert lo.offsetY <= r.offsetY <= hi.offsetY by {
      SumYBounds(offsets, lo.offsetY, hi.offsetY);
      MeanBound(SumY(offsets), |points| as real, r.offsetY, lo.offsetY, hi.offsetY);
    }
  }

  /** A point of the sample contract, `y` up from the page bottom. */
  datatype PdfPoint = PdfPoint(x: real, y: real)

  /** `PDF_REFERENCE_POINTS`. */
  const TitlePoint: PdfPoint := PdfPoint(50.0, 750.0)
  const DatePoint: PdfPoint := PdfPoint(50.0, 720.0)
  const FirstParagraphPoint: PdfPoint := PdfPoint(50.0, 680.0)
  const SignatureLabelPoint: PdfPoint := PdfPoint(50.0, 200.0)
  const DateLabelPoint: PdfPoint := PdfPoint(50.0, 170.0)

  /** The sample contract's page, 595 by 842 points (A4). */
  const SamplePageWidth: real := 595.0
  const SamplePageHeight: real := 842.0

  /** Number of body lines the sample contract draws, one every 20 points down from 680. */
  const SampleBodyLines: nat := 23

  /**
   * The baselines of every text the sample contract draws
   * (src/lib/generateSamplePDF.ts): its title, its date line, the body
   * lines, and the two labels of the signing block.
   */
  function SampleTextBaselines(): (r: seq<PdfPoint>)
    ensures |r| == SampleBodyLines + 4
    ensures forall i :: 0 <= i < |r| ==> r[i].x == 50.0
    ensures r[0].y == 750.0 && r[1].y == 720.0
    ensures forall i :: 2 <= i < SampleBodyLines + 2 ==> r[i].y == 680.0 - 20.0 * (i - 2) as real
    ensures r[SampleBodyLines + 2].y == 200.0 && r[SampleBodyLines + 3].y == 170.0
  {
    [PdfPoint(50.0, 750.0), PdfPoint(50.0, 720.0)]
    + seq(SampleBodyLines, i requires 0 <= i < SampleBodyLines => PdfPoint(50.0, 680.0 - 20.0 * i as real))
    + [PdfPoint(50.0, 200.0), PdfPoint(50.0, 170.0)]
  }

  /** Each reference point is the baseline of a text the sample contract draws, on its page. */
  lemma ReferencePointsOnSample()
    ensures TitlePoint == SampleTextBaselines()[0]
    ensures DatePoint == SampleTextBaselines()[1]
    ensures FirstParagraphPoint == SampleTextBaselines()[2]
    ensures SignatureLabelPoint == SampleTextBaselines()[SampleBodyLines + 2]
    ensures DateLabelPoint == SampleTextBaselines()[SampleBodyLines + 3]
    ensures forall i :: 0 <= i < |SampleTextBaselines()| ==>
      0.0 <= SampleTextBaselines()[i].x <= SamplePageWidth && 0.0 <= SampleTextBaselines()[i].y <= SamplePageHeight
  {
    var r := SampleTextBaselines();
    forall i | 0 <= i < |r|
      ensures 0.0 <= r[i].y <= SamplePageHeight
    {
      if 2 <= i < SampleBodyLines + 2 {
        assert r[i].y == 680.0 - 20.0 * (i - 2) as real;
      }
    }
  }
}
