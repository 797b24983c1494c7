/**
 * The signing service's field injector (`injectFieldsToPDF` of
 * server/injectFields.js): every field, in list order, is drawn on the first
 * page at its clamped position. Text and dates get a 4-point inset, images
 * and signatures are aspect-fitted and centred, and a payload that does not
 * decode costs only its image, never the border or the later fields. A text,
 * date or label the standard font cannot encode makes `drawText` throw, which
 * nothing catches: the whole injection fails.
 */
module ServerInjector {
  import opened Wrappers
  import opened JsValues
  import opened FormFields
  import opened PdfLib
  import opened Placement

  const FontSize: real := 10.0
  const BorderWidth: real := 2.0
  /** `borderInsideOffset`: the distance of the text from the box's left edge. */
  const TextInset: real := 4.0
  const RadioOffset: real := 10.0
  const RadioRadius: real := 5.0
  const LabelOffset: real := 20.0

  /**
   * The image behind a signature or image payload: a data URL is cut to the
   * text after its first comma (no comma leaves `undefined`, which
   * `Buffer.from` rejects), anything else is taken whole as base64; then PNG
   * is tried before JPG.
   */
  function Decode(data: string, lib: Library): Option<ImageSize> {
    var payload := if "data:image" <= data then SecondPiece(data) else Some(data);
    match payload
    case None => None
    case Some(b) => PngThenJpg(b, lib)
  }

  function PngThenJpg(b: string, lib: Library): Option<ImageSize> {
    if lib.embedPng(b).Some? then lib.embedPng(b) else lib.embedJpg(b)
  }

  function Border(px: real, py: real, f: FormField): DrawOp {
    RectOp(px, py, f.width, f.height, BorderWidth)
  }

  /** The image op for a decoded image fitted and centred in the field's box. */
  function FittedImage(size: ImageSize, px: real, py: real, f: FormField): DrawOp {
    var fit := AspectFit(size, f.width, f.height);
    ImageOp(px + fit.xOffset, py + fit.yOffset, fit.width, fit.height)
  }

  /**
   * The one string a field hands to `drawText`, in both injectors: the value
   * of a text or date field and the label of a radio, when non-empty.
   */
  function DrawnText(f: FormField): Option<string> {
    match ParseFieldType(f.fieldType)
    case Some(Text) => if Truthy(f.value) then f.value else None
    case Some(Date) => if Truthy(f.value) then f.value else None
    case Some(Radio) => if Truthy(f.labelText) then f.labelText else None
    case _ => None
  }

  /** The field draws a string the standard font cannot encode. */
  predicate DrawsUnencodable(f: FormField, lib: Library) {
    DrawnText(f).Some? && !lib.encodes(DrawnText(f).value)
  }

  function TextFieldOps(f: FormField, px: real, py: real, lib: Library): Result<seq<DrawOp>, InjectError> {
    if Truthy(f.value) && !lib.encodes(f.value.value) then Err(TextNotEncodable)
    else
      Ok((if Truthy(f.value)
          then [TextOp(f.value.value, px + TextInset, py + f.height / 2.0 - FontSize / 2.0 + 1.0, FontSize)]
          else [])
         + [Border(px, py, f)])
  }

  function ImageFieldOps(data: Option<string>, f: FormField, px: real, py: real, lib: Library): seq<DrawOp> {
    (if Truthy(data) && Decode(data.value, lib).Some?
     then [FittedImage(Decode(data.value, lib).value, px, py, f)]
     else [])
    + [Border(px, py, f)]
  }

  function RadioFieldOps(f: FormField, px: real, py: real, lib: Library): Result<seq<DrawOp>, InjectError> {
    var cx := px + RadioOffset;
    var cy := py + f.height / 2.0;
    if Truthy(f.labelText) && !lib.encodes(f.labelText.value) then Err(TextNotEncodable)
    else
      Ok([CircleOp(cx, cy, RadioRadius, false)]
         + (if f.value == Some("checked") || f.value == Some("true") then [CircleOp(cx, cy, RadioRadius - 2.0, true)] else [])
         + (if Truthy(f.labelText) then [TextOp(f.labelText.value, px + LabelOffset, py + f.height / 2.0 - FontSize / 2.0, FontSize)] else []))
  }

  /** What one field adds to a page of the given size, or why the injection fails. */
  function FieldOps(f: FormField, pageWidth: real, pageHeight: real, lib: Library): Result<seq<DrawOp>, InjectError> {
    var px := Clamp(f.x, f.width, pageWidth);
    var py := Clamp(f.y, f.height, pageHeight);
    match ParseFieldType(f.fieldType)
    case None => Ok([])
    case Some(Text) => TextFieldOps(f, px, py, lib)
    case Some(Date) => TextFieldOps(f, px, py, lib)
    case Some(Signature) => Ok(ImageFieldOps(f.signatureData, f, px, py, lib))
    case Some(Image) => Ok(ImageFieldOps(f.imageData, f, px, py, lib))
    case Some(Radio) => RadioFieldOps(f, px, py, lib)
  }

  /** What a list of fields adds to a page, each field's ops in list order, or the first field's failure. */
  function Trace(fields: seq<FormField>, pageWidth: real, pageHeight: real, lib: Library): Result<seq<DrawOp>, InjectError> {
    TryConcatMap(fields, f => FieldOps(f, pageWidth, pageHeight, lib))
  }

  /** The saved document: the first page with the fields' trace drawn over its content, or the failure. */
  function Injected(doc: Pdf, fields: seq<FormField>, lib: Library): Result<Pdf, InjectError>
    requires |doc.pages| > 0
  {
    var first := doc.pages[0];
    match Trace(fields, first.width, first.height, lib)
    case Err(e) => Err(e)
    case Ok(ops) => Ok(WithFirstPage(doc, first.(ops := first.ops + ops)))
  }

  /** Draws one field, as the body of the `for` loop does; `failure` is the exception that escapes it. */
  method DrawField(page: Page, f: FormField, lib: Library) returns (failure: Option<InjectError>)
    modifies page
    ensures FieldOps(f, page.width, page.height, lib).Ok? ==>
      failure.None? && page.ops == old(page.ops) + FieldOps(f, page.width, page.height, lib).value
    ensures FieldOps(f, page.width, page.height, lib).Err? ==>
      failure == Some(FieldOps(f, page.width, page.height, lib).error)
  {
    failure := None;
    var pdfX := Clamp(f.x, f.width, page.width);
    var pdfY := Clamp(f.y, f.height, page.height);
    match ParseFieldType(f.fieldType)
    case None =>
    case Some(Text) =>
      failure := DrawTextField(page, f, pdfX, pdfY, lib);
    case Some(Date) =>
      failure := DrawTextField(page, f, pdfX, pdfY, lib);
    case Some(Signature) =>
      DrawImageField(page, f.signatureData, f, pdfX, pdfY, lib);
    case Some(Image) =>
      DrawImageField(page, f.imageData, f, pdfX, pdfY, lib);
    case Some(Radio) =>
      var centerX := pdfX + RadioOffset;
      var centerY := pdfY + f.height / 2.0;
      page.Draw(CircleOp(centerX, centerY, RadioRadius, false));
      if f.value == Some("checked") || f.value == Some("true") {
        page.Draw(CircleOp(centerX, centerY, RadioRadius - 2.0, true));
      }
      if Truthy(f.labelText) {
        if !lib.encodes(f.labelText.value) {
          return Some(TextNotEncodable);
        }
        page.Draw(TextOp(f.labelText.value, pdfX + LabelOffset, pdfY + f.height / 2.0 - FontSize / 2.0, FontSize));
      }
  }

  method DrawTextField(page: Page, f: FormField, pdfX: real, pdfY: real, lib: Library) returns (failure: Option<InjectError>)
    modifies page
    ensures TextFieldOps(f, pdfX, pdfY, lib).Ok? ==>
      failure.None? && page.ops == old(page.ops) + TextFieldOps(f, pdfX, pdfY, lib).value
    ensures TextFieldOps(f, pdfX, pdfY, lib).Err? ==> failure == Some(TextNotEncodable)
  {
    failure := None;
    if Truthy(f.value) {
      if !lib.encodes(f.value.value) {
        return Some(TextNotEncodable);
      }
      page.Draw(TextOp(f.value.value, pdfX + TextInset, pdfY + f.height / 2.0 - FontSize / 2.0 + 1.0, FontSize));
    }
    page.Draw(RectOp(pdfX, pdfY, f.width, f.height, BorderWidth));
  }

  /** The try/catch around decoding: a failure is absorbed and only the border is drawn. */
  method DrawImageField(page: Page, data: Option<string>, f: FormField, pdfX: real, pdfY: real, lib: Library)
    modifies page
    ensures page.ops == old(page.ops) + ImageFieldOps(data, f, pdfX, pdfY, lib)
  {
    if Truthy(data) {
      var embedded := Decode(data.value, lib);
      if embedded.Some? {
        var fit := AspectFit(embedded.value, f.width, f.height);
        page.Draw(ImageOp(pdfX + fit.xOffset, pdfY + fit.yOffset, fit.width, fit.height));
      }
    }
    page.Draw(RectOp(pdfX, pdfY, f.width, f.height, BorderWidth));
  }

  /**
   * `injectFieldsToPDF(pdfBytes, fields)`: fails when the document does not
   * load, has no page, or a field draws a string the font cannot encode;
   * otherwise the saved bytes are those of the document with every field's
   * ops appended to the first page in list order. The input bytes are a value
   * and are not changed.
   */
  method InjectFieldsToPdf(pdfBytes: Bytes, fields: seq<FormField>, lib: Library) returns (r: Result<Bytes, InjectError>)
    ensures lib.load(pdfBytes).None? ==> r == Err(LoadFailed)
    ensures lib.load(pdfBytes).Some? && |lib.load(pdfBytes).value.pages| == 0 ==> r == Err(NoPage)
    ensures lib.load(pdfBytes).Some? && |lib.load(pdfBytes).value.pages| > 0 ==>
      r == match Injected(lib.load(pdfBytes).value, fields, lib)
           case Err(e) => Err(e)
           case Ok(doc) => Ok(lib.save(doc))
  {
    var loaded := lib.load(pdfBytes);
    if loaded.None? {
      return Err(LoadFailed);
    }
    var doc := loaded.value;
    if |doc.pages| == 0 {
      return Err(NoPage);
    }
    var page := new Page(doc.pages[0]);
    for i := 0 to |fields|
      invariant page.width == doc.pages[0].width && page.height == doc.pages[0].height
      invariant Trace(fields[..i], page.width, page.height, lib).Ok?
      invariant page.ops == doc.pages[0].ops + Trace(fields[..i], page.width, page.height, lib).value
    {
      TraceSnoc(fields, i, page.width, page.height, lib);
      var failure := DrawField(page, fields[i], lib);
      if failure.Some? {
        TraceFailsFrom(fields, i + 1, page.width, page.height, lib);
        assert fields[..|fields|] == fields;
        return Err(failure.value);
      }
    }
    assert fields[..|fields|] == fields;
    r := Ok(lib.save(WithFirstPage(doc, page.Content())));
  }

  // Properties of the trace.

  /** The trace of two lists is the trace of the first followed by that of the second, or the first failure. */
  lemma TraceAppend(a: seq<FormField>, b: seq<FormField>, pageWidth: real, pageHeight: real, lib: Library)
    ensures Trace(a + b, pageWidth, pageHeight, lib) == Then(Trace(a, pageWidth, pageHeight, lib), Trace(b, pageWidth, pageHeight, lib))
  {
    TryConcatMapAppend(a, b, f => FieldOps(f, pageWidth, pageHeight, lib));
  }

  lemma TraceSnoc(fields: seq<FormField>, i: nat, pageWidth: real, pageHeight: real, lib: Library)
    requires i < |fields|
    ensures Trace(fields[..i + 1], pageWidth, pageHeight, lib)
         == Then(Trace(fields[..i], pageWidth, pageHeight, lib), FieldOps(fields[i], pageWidth, pageHeight, lib))
  {
    TryConcatMapSnoc(fields, i, f => FieldOps(f, pageWidth, pageHeight, lib));
  }

  /** Once a prefix of the list fails, the whole list fails with the same error. */
  lemma TraceFailsFrom(fields: seq<FormField>, i: nat, pageWidth: real, pageHeight: real, lib: Library)
    requires i <= |fields| && Trace(fields[..i], pageWidth, pageHeight, lib).Err?
    ensures Trace(fields, pageWidth, pageHeight, lib) == Trace(fields[..i], pageWidth, pageHeight, lib)
  {
    TryConcatMapPrefixFails(fields, i, f => FieldOps(f, pageWidth, pageHeight, lib));
  }

  /** Z-order: a later field's ops come after an earlier field's in the page's trace. */
  lemma TraceOfTwo(a: FormField, b: FormField, pageWidth: real, pageHeight: real, lib: Library)
    ensures Trace([a, b], pageWidth, pageHeight, lib) == Then(FieldOps(a, pageWidth, pageHeight, lib), FieldOps(b, pageWidth, pageHeight, lib))
  {
    var g := f => FieldOps(f, pageWidth, pageHeight, lib);
    TryConcatMapSnoc([a, b], 0, g);
    TryConcatMapSnoc([a, b], 1, g);
    assert [a, b][..0] == [];
    assert [a, b][..2] == [a, b];
    if g(a).Ok? {
      assert [] + g(a).value == g(a).value;
    }
  }

  /** A field fails exactly when it draws a string the font cannot encode, and then with that error. */
  lemma FailsOnlyOnUnencodableText(f: FormField, pageWidth: real, pageHeight: real, lib: Library)
    ensures FieldOps(f, pageWidth, pageHeight, lib).Err? <==> DrawsUnencodable(f, lib)
    ensures DrawsUnencodable(f, lib) ==> FieldOps(f, pageWidth, pageHeight, lib) == Err(TextNotEncodable)
  {
  }

  /**
   * The whole injection fails exactly when some field draws a string the
   * font cannot encode, and then with that error; images never stop it.
   */
  lemma {:induction false} TraceFailsExactlyOnText(fields: seq<FormField>, pageWidth: real, pageHeight: real, lib: Library)
    ensures Trace(fields, pageWidth, pageHeight, lib).Err?
        <==> exists k :: 0 <= k < |fields| && DrawsUnencodable(fields[k], lib)
    ensures Trace(fields, pageWidth, pageHeight, lib).Err? ==> Trace(fields, pageWidth, pageHeight, lib).error == TextNotEncodable
    decreases |fields|
  {
    if fields != [] {
      var n := |fields| - 1;
      var init := fields[..n];
      TraceFailsExactlyOnText(init, pageWidth, pageHeight, lib);
      TraceSnoc(fields, n, pageWidth, pageHeight, lib);
      assert fields[..n + 1] == fields;
      FailsOnlyOnUnencodableText(fields[n], pageWidth, pageHeight, lib);
      var before := Trace(init, pageWidth, pageHeight, lib);
      var last := FieldOps(fields[n], pageWidth, pageHeight, lib);
      assert Trace(fields, pageWidth, pageHeight, lib) == Then(before, last);
      assert (exists k :: 0 <= k < |fields| && DrawsUnencodable(fields[k], lib))
         <==> (exists k :: 0 <= k < n && DrawsUnencodable(init[k], lib)) || DrawsUnencodable(fields[n], lib)
      by {
        forall k | 0 <= k < n
          ensures init[k] == fields[k]
        {
        }
      }
    }
  }

  /** A field whose tag names none of the five kinds draws nothing. */
  lemma UnknownTypeDrawsNothing(f: FormField, pageWidth: real, pageHeight: real, lib: Library)
    requires ParseFieldType(f.fieldType).None?
    ensures FieldOps(f, pageWidth, pageHeight, lib) == Ok([])
  {
  }

  /**
   * Text and date fields: a value the font cannot encode fails; otherwise the
   * value, when non-empty, at 4 points from the left edge and 4 points below
   * the box's middle, in size 10; then, always, a 2-point border around the
   * clamped box.
   */
  lemma TextFieldDrawing(f: FormField, pageWidth: real, pageHeight: real, lib: Library)
    requires ParseFieldType(f.fieldType) == Some(Text) || ParseFieldType(f.fieldType) == Some(Date)
    ensures var px := Clamp(f.x, f.width, pageWidth);
      var py := Clamp(f.y, f.height, pageHeight);
      FieldOps(f, pageWidth, pageHeight, lib)
      == if Truthy(f.value) && !lib.encodes(f.value.value) then Err(TextNotEncodable)
         else Ok((if Truthy(f.value) then [TextOp(f.value.value, px + 4.0, py + f.height / 2.0 - 4.0, 10.0)] else [])
                 + [RectOp(px, py, f.width, f.height, 2.0)])
  {
  }

  /**
   * Signature and image fields: never a failure; the border is always the last op; before it
   * there is exactly one image when the payload is present and decodes, and
   * none otherwise. In a box of positive size the image keeps the decoded
   * aspect ratio, lies inside the box, spans it along one side and is
   * centred.
   */
  lemma ImageFieldDrawing(f: FormField, pageWidth: real, pageHeight: real, lib: Library)
    requires ParseFieldType(f.fieldType) == Some(Signature) || ParseFieldType(f.fieldType) == Some(Image)
    ensures var px := Clamp(f.x, f.width, pageWidth);
      var py := Clamp(f.y, f.height, pageHeight);
      var data := if ParseFieldType(f.fieldType) == Some(Signature) then f.signatureData else f.imageData;
      var ops := FieldOps(f, pageWidth, pageHeight, lib).value;
      && FieldOps(f, pageWidth, pageHeight, lib).Ok?
      && ops[|ops| - 1] == RectOp(px, py, f.width, f.height, 2.0)
      && (|ops| == 2 <==> Truthy(data) && Decode(data.value, lib).Some?)
      && (|ops| == 1 <==> !(Truthy(data) && Decode(data.value, lib).Some?))
      && (|ops| == 2 && f.width > 0.0 && f.height > 0.0 ==>
            var size := Decode(data.value, lib).value;
            var img := ops[0];
            && img.ImageOp?
            && img.width * size.height == img.height * size.width
            && px <= img.x && img.x + img.width <= px + f.width
            && py <= img.y && img.y + img.height <= py + f.height
            && (img.width == f.width || img.height == f.height)
            && img.x - px == (px + f.width) - (img.x + img.width)
            && img.y - py == (py + f.height) - (img.y + img.height))
  {
    var data := if ParseFieldType(f.fieldType) == Some(Signature) then f.signatureData else f.imageData;
    if Truthy(data) && Decode(data.value, lib).Some? && f.width > 0.0 && f.height > 0.0 {
      AspectFitInBox(Decode(data.value, lib).value, f.width, f.height);
    }
  }

  /** A data URL's header is cut away up to its comma before decoding, PNG first. */
  lemma DecodeStripsDataUrl(header: string, payload: string, lib: Library)
    requires "data:image" <= header && ',' !in header && ',' !in payload
    ensures Decode(header + [','] + payload, lib) == PngThenJpg(payload, lib)
  {
    SecondPieceOfDataUrl(header, payload);
    assert (header + [','] + payload)[..|"data:image"|] == header[..|"data:image"|];
  }

  /** A payload that is not a data URL is decoded whole. */
  lemma DecodePlainBase64(data: string, lib: Library)
    requires !("data:image" <= data)
    ensures Decode(data, lib) == PngThenJpg(data, lib)
  {
  }

  /**
   * Radio fields: a label the font cannot encode fails; otherwise an outline
   * circle of radius 5 at 10 points from the left edge and mid-height, then a
   * disc of radius 3 on it exactly when the value is "checked" or "true",
   * then the label, when non-empty, 20 points from the left edge, and never
   * a border.
   */
  lemma RadioFieldDrawing(f: FormField, pageWidth: real, pageHeight: real, lib: Library)
    requires ParseFieldType(f.fieldType) == Some(Radio)
    ensures var px := Clamp(f.x, f.width, pageWidth);
      var py := Clamp(f.y, f.height, pageHeight);
      var r := FieldOps(f, pageWidth, pageHeight, lib);
      var checked := f.value == Some("checked") || f.value == Some("true");
      var labelled := Truthy(f.labelText);
      && (r.Err? <==> labelled && !lib.encodes(f.labelText.value))
      && (r.Err? ==> r.error == TextNotEncodable)
      && (r.Ok? ==>
            var ops := r.value;
            && |ops| == 1 + (if checked then 1 else 0) + (if labelled then 1 else 0)
            && ops[0] == CircleOp(px + 10.0, py + f.height / 2.0, 5.0, false)
            && (checked ==> ops[1] == CircleOp(px + 10.0, py + f.height / 2.0, 3.0, true))
            && (CircleOp(px + 10.0, py + f.height / 2.0, 3.0, true) in ops <==> checked)
            && (labelled ==> ops[|ops| - 1] == TextOp(f.labelText.value, px + 20.0, py + f.height / 2.0 - 5.0, 10.0))
            && (!labelled ==> forall op :: op in ops ==> !op.TextOp?)
            && (forall op :: op in ops ==> !op.RectOp?))
  {
  }
}
