/**
 * Geometry and payload handling that both field injectors share: the clamp
 * into the page, the data-URL split, and the server's aspect fit.
 */
module Placement {
  import opened Wrappers
  import opened JsValues
  import opened PdfLib

  /**
   * `Math.max(0, Math.min(v, pageSize - size))`: the field's origin moved so
   * that the field lies on the page where it fits, and never below zero.
   */
  function Clamp(v: real, size: real, pageSize: real): (r: real)
    ensures r >= 0.0
    ensures r <= v || r == 0.0
    ensures 0.0 <= v <= pageSize - size ==> r == v
    ensures size <= pageSize ==> r + size <= pageSize
    ensures v > pageSize - size && pageSize - size >= 0.0 ==> r == pageSize - size
    ensures v < 0.0 || pageSize - size < 0.0 ==> r == 0.0
  {
    Max(0.0, Min(v, pageSize - size))
  }

  lemma ClampIdempotent(v: real, size: real, pageSize: real)
    ensures Clamp(Clamp(v, size, pageSize), size, pageSize) == Clamp(v, size, pageSize)
  {
  }

  /** The first index of `c` in `s`. */
  function IndexOf(s: string, c: char): (r: Option<nat>)
    ensures r.None? <==> c !in s
    ensures r.Some? ==> r.value < |s| && s[r.value] == c && c !in s[..r.value]
  {
    if |s| == 0 then None
    else if s[0] == c then Some(0)
    else
      match IndexOf(s[1..], c)
      case None => None
      case Some(i) =>
        assert s[..i + 1] == [s[0]] + s[1..][..i];
        Some(i + 1)
  }

  /**
   * `s.split(",")[1]`: the text between the first comma and the next one (or
   * the end); None, which JavaScript calls `undefined`, when there is no comma.
   */
  function SecondPiece(s: string): (r: Option<string>)
    ensures r.None? <==> ',' !in s
    ensures r.Some? ==> ',' !in r.value
  {
    match IndexOf(s, ',')
    case None => None
    case Some(i) =>
      var rest := s[i + 1..];
      match IndexOf(rest, ',')
      case None => Some(rest)
      case Some(j) => Some(rest[..j])
  }

  /** For a data URL `header,payload` with no other comma, the second piece is the payload. */
  lemma {:induction false} SecondPieceOfDataUrl(header: string, payload: string)
    requires ',' !in header && ',' !in payload
    ensures SecondPiece(header + [','] + payload) == Some(payload)
  {
    var s := header + [','] + payload;
    IndexOfAfterPrefix(header, [','] + payload, ',');
    assert s == header + ([','] + payload);
    assert s[|header|] == ',';
    assert s[|header| + 1..] == payload;
  }

  lemma {:induction false} IndexOfAfterPrefix(prefix: string, rest: string, c: char)
    requires c !in prefix && |rest| > 0 && rest[0] == c
    ensures IndexOf(prefix + rest, c) == Some(|prefix|)
  {
    if |prefix| > 0 {
      assert (prefix + rest)[1..] == prefix[1..] + rest;
      IndexOfAfterPrefix(prefix[1..], rest, c);
    } else {
      assert prefix + rest == rest;
    }
  }

  /**
   * Whether the image is relatively wider than the box:
   * `imageAspectRatio > width / height` in IEEE arithmetic. A zero height
   * makes the box ratio +Infinity for a positive width, -Infinity for a
   * negative one and NaN for a zero one, and only -Infinity compares below
   * a finite ratio.
   */
  predicate WiderThanBox(size: ImageSize, width: real, height: real) {
    if height == 0.0 then width < 0.0
    else size.width / size.height > width / height
  }

  /** The fitted size and offset of an image drawn inside a box. */
  datatype Fit = Fit(xOffset: real, yOffset: real, width: real, height: real)

  /**
   * The server's aspect fit: a relatively wider image spans the box width,
   * any other spans the box height, and the result is centred in the box.
   */
  function AspectFit(size: ImageSize, width: real, height: real): Fit {
    var aspect := size.width / size.height;
    var fitted :=
      if WiderThanBox(size, width, height) then (width, width / aspect)
      else (height * aspect, height);
    Fit((width - fitted.0) / 2.0, (height - fitted.1) / 2.0, fitted.0, fitted.1)
  }

  /**
   * In a box of positive size the fit keeps the image's aspect ratio, stays
   * inside the box, fills it along one side and leaves equal margins on
   * opposite sides.
   */
  lemma AspectFitInBox(size: ImageSize, width: real, height: real)
    requires width > 0.0 && height > 0.0
    ensures var f := AspectFit(size, width, height);
      && f.width * size.height == f.height * size.width
      && 0.0 < f.width <= width && 0.0 < f.height <= height
      && (f.width == width || f.height == height)
      && f.xOffset >= 0.0 && f.yOffset >= 0.0
      && f.xOffset == width - (f.xOffset + f.width)
      && f.yOffset == height - (f.yOffset + f.height)
  {
    var f := AspectFit(size, width, height);
    var aspect := size.width / size.height;
    assert aspect * size.height == size.width;
    if WiderThanBox(size, width, height) {
      assert aspect > width / height;
      FitWide(aspect, width, height);
      assert f.width == width && f.height == width / aspect;
      assert f.height * aspect == width;
      assert f.height * size.width == f.height * (aspect * size.height);
    } else {
      assert aspect <= width / height;
      FitTall(aspect, width, height);
      assert f.height == height && f.width == height * aspect;
    }
  }

  lemma FitWide(aspect: real, width: real, height: real)
    requires aspect > 0.0 && width > 0.0 && height > 0.0 && aspect > width / height
    ensures 0.0 < width / aspect < height
  {
    assert width / height * height == width;
    assert aspect * height > width / height * height;
    assert width / aspect * aspect == width;
    assert aspect * height > width;
  }

  lemma FitTall(aspect: real, width: real, height: real)
    requires aspect > 0.0 && width > 0.0 && height > 0.0 && aspect <= width / height
    ensures 0.0 < height * aspect <= width
  {
    assert width / height * height == width;
  }
}
