/**
 * The editor's own exporter (`injectFieldsToPDF` of
 * src/lib/injectFieldsToPDF.ts): the same clamp and list order as the
 * server's, but text sits 1 point from the left edge and 5 points below the
 * middle, images and signatures are stretched over the whole box, a radio is
 * filled only for "checked", and the two offset arguments are never read.
 * As on the server, a string the standard font cannot encode fails the export.
 */
module ClientInjector {
  import opened Wrappers
  import opened JsValues
  import opened FormFields
  import opened PdfLib
  import opened Placement
  import ServerInjector

  const FontSize: real := 10.0
  const BorderWidth: real := 2.0
  /** `borderWidth / 2`: the text starts inside the border. */
  const TextInset: real := 1.0
  const RadioOffset: real := 10.0
  const RadioRadius: real := 5.0
  const LabelOffset: real := 20.0

  /** `atob(b)` returns instead of throwing; `atob(undefined)` always throws. */
  predicate AtobAccepts(b: Option<string>, lib: Library) {
    b.Some? && lib.atobAccepts(b.value)
  }

  /**
   * The decoder an image payload is routed to by its data-URL prefix (PNG,
   * JPEG or, for anything else, PNG), applied to the bytes after the first
   * comma; None when there is no comma, when `atob` rejects the text or when
   * the decoder does.
   */
  function DecodeImage(data: string, lib: Library): Option<ImageSize> {
    var b := SecondPiece(data);
    if !AtobAccepts(b, lib) then None
    else if "data:image/png" <= data then lib.embedPng(b.value)
    else if "data:image/jpeg" <= data || "data:image/jpg" <= data then lib.embedJpg(b.value)
    else lib.embedPng(b.value)
  }

  function Border(px: real, py: real, f: FormField): DrawOp {
    RectOp(px, py, f.width, f.height, BorderWidth)
  }

  /** An image stretched over the whole box. */
  function FilledImage(px: real, py: real, f: FormField): DrawOp {
    ImageOp(px, py, f.width, f.height)
  }

  function TextFieldOps(f: FormField, px: real, py: real, lib: Library): Result<seq<DrawOp>, InjectError> {
    if Truthy(f.value) && !lib.encodes(f.value.value) then Err(TextNotEncodable)
    else
      Ok((if Truthy(f.value)
          then [TextOp(f.value.value, px + TextInset, py + f.height / 2.0 - FontSize / 2.0, FontSize)]
          else [])
         + [Border(px, py, f)])
  }

  /**
   * A signature: `embedPng` on the string itself; when that fails and the
   * string is a data URL, `embedPng` on the bytes `atob` makes of the text
   * after the comma. That `atob` runs in the `catch` block, outside any
   * handler, so when it throws the whole export fails.
   */
  function SignatureFieldOps(f: FormField, px: real, py: real, lib: Library): Result<seq<DrawOp>, InjectError> {
    var border := [Border(px, py, f)];
    if !Truthy(f.signatureData) then Ok(border)
    else
      var s := f.signatureData.value;
      if lib.embedPngText(s).Some? then Ok([FilledImage(px, py, f)] + border)
      else if !("data:image" <= s) then Ok(border)
      else
        var b := SecondPiece(s);
        if !AtobAccepts(b, lib) then Err(SignatureNotBase64)
        else if lib.embedPng(b.value).Some? then Ok([FilledImage(px, py, f)] + border)
        else Ok(border)
  }

  function ImageFieldOps(f: FormField, px: real, py: real, lib: Library): seq<DrawOp> {
    (if Truthy(f.imageData) && DecodeImage(f.imageData.value, lib).Some? then [FilledImage(px, py, f)] else [])
    + [Border(px, py, f)]
  }

  function RadioFieldOps(f: FormField, px: real, py: real, lib: Library): Result<seq<DrawOp>, InjectError> {
    var cx := px + RadioOffset;
    var cy := py + f.height / 2.0;
    if Truthy(f.labelText) && !lib.encodes(f.labelText.value) then Err(TextNotEncodable)
    else
      Ok([CircleOp(cx, cy, RadioRadius, false)]
         + (if f.value == Some("checked") then [CircleOp(cx, cy, RadioRadius - 2.0, true)] else [])
         + (if Truthy(f.labelText) then [TextOp(f.labelText.value, px + LabelOffset, py + f.height / 2.0 - FontSize / 2.0, FontSize)] else []))
  }

  /** What one field adds to a page of the given size, or why the export fails. */
  function FieldOps(f: FormField, pageWidth: real, pageHeight: real, lib: Library): Result<seq<DrawOp>, InjectError> {
    var px := Clamp(f.x, f.width, pageWidth);
    var py := Clamp(f.y, f.height, pageHeight);
    match ParseFieldType(f.fieldType)
    case None => Ok([])
    case Some(Text) => TextFieldOps(f, px, py, lib)
    case Some(Date) => TextFieldOps(f, px, py, lib)
    case Some(Signature) => SignatureFieldOps(f, px, py, lib)
    case Some(Image) => Ok(ImageFieldOps(f, px, py, lib))
    case Some(Radio) => RadioFieldOps(f, px, py, lib)
  }

  /** What a list of fields adds to a page, in list order, or the first field's failure. */
  function Trace(fields: seq<FormField>, pageWidth: real, pageHeight: real, lib: Library): Result<seq<DrawOp>, InjectError> {
    TryConcatMap(fields, f => FieldOps(f, pageWidth, pageHeight, lib))
  }

  lemma TraceSnoc(fields: seq<FormField>, i: nat, pageWidth: real, pageHeight: real, lib: Library)
    requires i < |fields|
    ensures Trace(fields[..i + 1], pageWidth, pageHeight, lib)
         == Then(Trace(fields[..i], pageWidth, pageHeight, lib), FieldOps(fields[i], pageWidth, pageHeight, lib))
  {
    TryConcatMapSnoc(fields, i, f => FieldOps(f, pageWidth, pageHeight, lib));
  }

  /** The saved document, or the failure of a field. */
  function Injected(doc: Pdf, fields: seq<FormField>, lib: Library): Result<Pdf, InjectError>
    requires |doc.pages| > 0
  {
    var first := doc.pages[0];
    match Trace(fields, first.width, first.height, lib)
    case Err(e) => Err(e)
    case Ok(ops) => Ok(WithFirstPage(doc, first.(ops := first.ops + ops)))
  }

  /** Draws one field, as the body of the `for` loop does; `failure` is the exception that escapes it. */
  method DrawField(page: Page, f: FormField, lib: Library) returns (failure: Option<InjectError>)
    modifies page
    ensures FieldOps(f, page.width, page.height, lib).Ok? ==>
      failure.None? && page.ops == old(page.ops) + FieldOps(f, page.width, page.height, lib).value
    ensures FieldOps(f, page.width, page.height, lib).Err? ==>
      failure == Some(FieldOps(f, page.width, page.height, lib).error)
  {
    failure := None;
    var pdfX := Clamp(f.x, f.width, page.width);
    var pdfY := Clamp(f.y, f.height, page.height);
    match ParseFieldType(f.fieldType)
    case None =>
    case Some(Text) =>
      failure := DrawTextField(page, f, pdfX, pdfY, lib);
    case Some(Date) =>
      failure := DrawTextField(page, f, pdfX, pdfY, lib);
    case Some(Signature) =>
      failure := DrawSignatureField(page, f, pdfX, pdfY, lib);
    case Some(Image) =>
      if Truthy(f.imageData) {
        var image := DecodeImage(f.imageData.value, lib);
        if image.Some? {
          page.Draw(ImageOp(pdfX, pdfY, f.width, f.height));
        }
      }
      page.Draw(RectOp(pdfX, pdfY, f.width, f.height, BorderWidth));
    case Some(Radio) =>
      var centerX := pdfX + RadioOffset;
      var centerY := pdfY + f.height / 2.0;
      page.Draw(CircleOp(centerX, centerY, RadioRadius, false));
      if f.value == Some("checked") {
        page.Draw(CircleOp(centerX, centerY, RadioRadius - 2.0, true));
      }
      if Truthy(f.labelText) {
        if !lib.encodes(f.labelText.value) {
          return Some(TextNotEncodable);
        }
        page.Draw(TextOp(f.labelText.value, pdfX + LabelOffset, pdfY + f.height / 2.0 - FontSize / 2.0, FontSize));
      }
  }

  method DrawTextField(page: Page, f: FormField, pdfX: real, pdfY: real, lib: Library) returns (failure: Option<InjectError>)
    modifies page
    ensures TextFieldOps(f, pdfX, pdfY, lib).Ok? ==>
      failure.None? && page.ops == old(page.ops) + TextFieldOps(f, pdfX, pdfY, lib).value
    ensures TextFieldOps(f, pdfX, pdfY, lib).Err? ==> failure == Some(TextNotEncodable)
  {
    failure := None;
    if Truthy(f.value) {
      if !lib.encodes(f.value.value) {
        return Some(TextNotEncodable);
      }
      page.Draw(TextOp(f.value.value, pdfX + TextInset, pdfY + f.height / 2.0 - FontSize / 2.0, FontSize));
    }
    page.Draw(RectOp(pdfX, pdfY, f.width, f.height, BorderWidth));
  }

  method DrawSignatureField(page: Page, f: FormField, pdfX: real, pdfY: real, lib: Library) returns (failure: Option<InjectError>)
    modifies page
    ensures SignatureFieldOps(f, pdfX, pdfY, lib).Ok? ==>
      failure.None? && page.ops == old(page.ops) + SignatureFieldOps(f, pdfX, pdfY, lib).value
    ensures SignatureFieldOps(f, pdfX, pdfY, lib).Err? ==>
      failure == Some(SignatureFieldOps(f, pdfX, pdfY, lib).error)
  {
    failure := None;
    if Truthy(f.signatureData) {
      var s := f.signatureData.value;
      if lib.embedPngText(s).Some? {
        page.Draw(ImageOp(pdfX, pdfY, f.width, f.height));
      } else if "data:image" <= s {
        var base64Data := SecondPiece(s);
        if !AtobAccepts(base64Data, lib) {
          return Some(SignatureNotBase64);
        }
        if lib.embedPng(base64Data.value).Some? {
          page.Draw(ImageOp(pdfX, pdfY, f.width, f.height));
        }
      }
    }
    page.Draw(RectOp(pdfX, pdfY, f.width, f.height, BorderWidth));
  }

  /**
   * `injectFieldsToPDF(pdfBytes, fields, offsetX, offsetY)`: the saved bytes
   * of the document with every field drawn on its first page in list order,
   * or the failure that stopped it. The offsets appear nowhere in the result.
   */
  method InjectFieldsToPdf(pdfBytes: Bytes, fields: seq<FormField>, offsetX: real, offsetY: real, lib: Library)
    returns (r: Result<Bytes, InjectError>)
    ensures lib.load(pdfBytes).None? ==> r == Err(LoadFailed)
    ensures lib.load(pdfBytes).Some? && |lib.load(pdfBytes).value.pages| == 0 ==> r == Err(NoPage)
    ensures lib.load(pdfBytes).Some? && |lib.load(pdfBytes).value.pages| > 0 ==>
      r == match Injected(lib.load(pdfBytes).value, fields, lib)
           case Err(e) => Err(e)
           case Ok(doc) => Ok(lib.save(doc))
  {
    var loaded := lib.load(pdfBytes);
    if loaded.None? {
      return Err(LoadFailed);
    }
    var doc := loaded.value;
    if |doc.pages| == 0 {
      return Err(NoPage);
    }
    var page := new Page(doc.pages[0]);
    for i := 0 to |fields|
      invariant page.width == doc.pages[0].width && page.height == doc.pages[0].height
      invariant Trace(fields[..i], page.width, page.height, lib).Ok?
      invariant page.ops == doc.pages[0].ops + Trace(fields[..i], page.width, page.height, lib).value
    {
      TraceSnoc(fields, i, page.width, page.height, lib);
      var failure := DrawField(page, fields[i], lib);
      if failure.Some? {
        TraceFailsFrom(fields, i + 1, page.width, page.height, lib);
        assert fields[..|fields|] == fields;
        return Err(failure.value);
      }
    }
    assert fields[..|fields|] == fields;
    r := Ok(lib.save(WithFirstPage(doc, page.Content())));
  }

  /** Two exports of the same document and fields with different offsets give the same answer. */
  method OffsetsIgnored(pdfBytes: Bytes, fields: seq<FormField>, offsetX1: real, offsetY1: real,
                        offsetX2: real, offsetY2: real, lib: Library)
    returns (first: Result<Bytes, InjectError>, second: Result<Bytes, InjectError>)
    ensures first == second
  {
    first := InjectFieldsToPdf(pdfBytes, fields, offsetX1, offsetY1, lib);
    second := InjectFieldsToPdf(pdfBytes, fields, offsetX2, offsetY2, lib);
  }

  /** Once a prefix of the list fails, the whole list fails with the same error. */
  lemma TraceFailsFrom(fields: seq<FormField>, i: nat, pageWidth: real, pageHeight: real, lib: Library)
    requires i <= |fields| && Trace(fields[..i], pageWidth, pageHeight, lib).Err?
    ensures Trace(fields, pageWidth, pageHeight, lib) == Trace(fields[..i], pageWidth, pageHeight, lib)
  {
    TryConcatMapPrefixFails(fields, i, f => FieldOps(f, pageWidth, pageHeight, lib));
  }

  // Properties of the per-field drawing.

  /** A field whose tag names none of the five kinds draws nothing and cannot fail. */
  lemma UnknownTypeDrawsNothing(f: FormField, pageWidth: real, pageHeight: real, lib: Library)
    requires ParseFieldType(f.fieldType).None?
    ensures FieldOps(f, pageWidth, pageHeight, lib) == Ok([])
  {
  }

  /**
   * Text and date fields: a value the font cannot encode fails; otherwise the
   * value, when non-empty, 1 point from the left edge and 5 points below the
   * box's middle; then, always, the 2-point border.
   */
  lemma TextFieldDrawing(f: FormField, pageWidth: real, pageHeight: real, lib: Library)
    requires ParseFieldType(f.fieldType) == Some(Text) || ParseFieldType(f.fieldType) == Some(Date)
    ensures var px := Clamp(f.x, f.width, pageWidth);
      var py := Clamp(f.y, f.height, pageHeight);
      FieldOps(f, pageWidth, pageHeight, lib)
      == if Truthy(f.value) && !lib.encodes(f.value.value) then Err(TextNotEncodable)
         else Ok((if Truthy(f.value) then [TextOp(f.value.value, px + 1.0, py + f.height / 2.0 - 5.0, 10.0)] else [])
                 + [RectOp(px, py, f.width, f.height, 2.0)])
  {
  }

  /**
   * Image fields: never a failure; the border is the last op, and before it
   * one image covering exactly the clamped box when the payload is present
   * and decodes, none otherwise.
   */
  lemma ImageFieldDrawing(f: FormField, pageWidth: real, pageHeight: real, lib: Library)
    requires ParseFieldType(f.fieldType) == Some(Image)
    ensures var px := Clamp(f.x, f.width, pageWidth);
      var py := Clamp(f.y, f.height, pageHeight);
      var decoded := Truthy(f.imageData) && DecodeImage(f.imageData.value, lib).Some?;
      FieldOps(f, pageWidth, pageHeight, lib)
      == Ok((if decoded then [ImageOp(px, py, f.width, f.height)] else []) + [RectOp(px, py, f.width, f.height, 2.0)])
  {
  }

  /** A `data:image/png` URL goes to the PNG decoder with the text after its comma. */
  lemma PngDataUrlRouting(header: string, payload: string, lib: Library)
    requires "data:image/png" <= header && ',' !in header && ',' !in payload && lib.atobAccepts(payload)
    ensures DecodeImage(header + [','] + payload, lib) == lib.embedPng(payload)
  {
    SecondPieceOfDataUrl(header, payload);
    PrefixExtends("data:image/png", header, [','] + payload);
  }

  /** A `data:image/jpeg` or `data:image/jpg` URL goes to the JPG decoder. */
  lemma JpegDataUrlRouting(header: string, payload: string, lib: Library)
    requires "data:image/jpeg" <= header || "data:image/jpg" <= header
    requires ',' !in header && ',' !in payload && lib.atobAccepts(payload)
    ensures DecodeImage(header + [','] + payload, lib) == lib.embedJpg(payload)
  {
    SecondPieceOfDataUrl(header, payload);
    var s := header + [','] + payload;
    assert s == header + ([','] + payload);
    if "data:image/jpeg" <= header {
      PrefixExtends("data:image/jpeg", header, [','] + payload);
      assert s[11] == 'j';
      assert !("data:image/png" <= s);
    } else {
      PrefixExtends("data:image/jpg", header, [','] + payload);
      assert s[11] == 'j';
      assert !("data:image/png" <= s);
    }
  }

  /** Any other string with a comma falls back to the PNG decoder. */
  lemma OtherDataUrlRouting(header: string, payload: string, lib: Library)
    requires !("data:image/png" <= header + [','] + payload)
    requires !("data:image/jpeg" <= header + [','] + payload) && !("data:image/jpg" <= header + [','] + payload)
    requires ',' !in header && ',' !in payload && lib.atobAccepts(payload)
    ensures DecodeImage(header + [','] + payload, lib) == lib.embedPng(payload)
  {
    SecondPieceOfDataUrl(header, payload);
  }

  /** Text without a comma, such as bare base64, is never drawn: `atob(undefined)` throws. */
  lemma ImageWithoutCommaNotDrawn(data: string, lib: Library)
    requires ',' !in data
    ensures DecodeImage(data, lib).None?
  {
  }

  lemma PrefixExtends(p: string, s: string, t: string)
    requires p <= s
    ensures p <= s + t
  {
    assert (s + t)[..|p|] == s[..|p|];
  }

  /**
   * Signature fields: a string the library decodes directly fills the box;
   * otherwise a data URL's text after the comma is tried as PNG, a text
   * `atob` rejects fails the field, and anything else leaves only the border.
   */
  lemma SignatureFieldDrawing(f: FormField, pageWidth: real, pageHeight: real, lib: Library)
    requires ParseFieldType(f.fieldType) == Some(Signature) && Truthy(f.signatureData)
    ensures var px := Clamp(f.x, f.width, pageWidth);
      var py := Clamp(f.y, f.height, pageHeight);
      var s := f.signatureData.value;
      var image := ImageOp(px, py, f.width, f.height);
      var border := RectOp(px, py, f.width, f.height, 2.0);
      var ops := FieldOps(f, pageWidth, pageHeight, lib);
      && (lib.embedPngText(s).Some? ==> ops == Ok([image, border]))
      && (lib.embedPngText(s).None? && !("data:image" <= s) ==> ops == Ok([border]))
      && (lib.embedPngText(s).None? && "data:image" <= s ==>
            (ops.Err? <==> !AtobAccepts(SecondPiece(s), lib))
            && (AtobAccepts(SecondPiece(s), lib) ==>
                  ops == if lib.embedPng(SecondPiece(s).value).Some? then Ok([image, border]) else Ok([border])))
  {
    var px := Clamp(f.x, f.width, pageWidth);
    var py := Clamp(f.y, f.height, pageHeight);
    assert [FilledImage(px, py, f)] + [Border(px, py, f)]
        == [ImageOp(px, py, f.width, f.height), RectOp(px, py, f.width, f.height, 2.0)];
  }

  /**
   * A signature data URL that the library does not decode as given and whose
   * text after the comma `atob` rejects.
   */
  predicate SignatureFallbackRejected(f: FormField, lib: Library) {
    && ParseFieldType(f.fieldType) == Some(Signature)
    && Truthy(f.signatureData)
    && lib.embedPngText(f.signatureData.value).None?
    && "data:image" <= f.signatureData.value
    && !AtobAccepts(SecondPiece(f.signatureData.value), lib)
  }

  /**
   * A field fails exactly when it draws a string the font cannot encode (the
   * same strings as on the server) or is a signature whose fallback `atob`
   * throws; images, unknown tags and signatures without data never fail.
   */
  lemma HowFieldsFail(f: FormField, pageWidth: real, pageHeight: real, lib: Library)
    ensures FieldOps(f, pageWidth, pageHeight, lib).Err?
        <==> ServerInjector.DrawsUnencodable(f, lib) || SignatureFallbackRejected(f, lib)
    ensures ServerInjector.DrawsUnencodable(f, lib) ==> FieldOps(f, pageWidth, pageHeight, lib) == Err(TextNotEncodable)
    ensures SignatureFallbackRejected(f, lib) ==> FieldOps(f, pageWidth, pageHeight, lib) == Err(SignatureNotBase64)
  {
  }

  /**
   * A signature data URL that neither decodes as given nor passes `atob`
   * after its comma fails the whole export, whatever the other fields are.
   */
  lemma BadSignatureFailsExport(fields: seq<FormField>, k: nat, pageWidth: real, pageHeight: real, lib: Library)
    requires k < |fields| && ParseFieldType(fields[k].fieldType) == Some(Signature)
    requires Truthy(fields[k].signatureData) && "data:image" <= fields[k].signatureData.value
    requires lib.embedPngText(fields[k].signatureData.value).None?
    requires !AtobAccepts(SecondPiece(fields[k].signatureData.value), lib)
    ensures Trace(fields, pageWidth, pageHeight, lib).Err?
  {
    TryConcatMapFails(fields, k, f => FieldOps(f, pageWidth, pageHeight, lib));
  }

  /** A text, date or label the font cannot encode fails the whole export, whatever the other fields are. */
  lemma UnencodableTextFailsExport(fields: seq<FormField>, k: nat, pageWidth: real, pageHeight: real, lib: Library)
    requires k < |fields| && ServerInjector.DrawsUnencodable(fields[k], lib)
    ensures Trace(fields, pageWidth, pageHeight, lib).Err?
  {
    HowFieldsFail(fields[k], pageWidth, pageHeight, lib);
    TryConcatMapFails(fields, k, f => FieldOps(f, pageWidth, pageHeight, lib));
  }

  /**
   * Radio fields: a label the font cannot encode fails; otherwise the outline
   * circle of radius 5, then a disc of radius 3 exactly when the value is
   * "checked", then the label when non-empty, and never a border.
   */
  lemma RadioFieldDrawing(f: FormField, pageWidth: real, pageHeight: real, lib: Library)
    requires ParseFieldType(f.fieldType) == Some(Radio)
    ensures var px := Clamp(f.x, f.width, pageWidth);
      var py := Clamp(f.y, f.height, pageHeight);
      var r := FieldOps(f, pageWidth, pageHeight, lib);
      var checked := f.value == Some("checked");
      var labelled := Truthy(f.labelText);
      && (r.Err? <==> labelled && !lib.encodes(f.labelText.value))
      && (r.Err? ==> r.error == TextNotEncodable)
      && (r.Ok? ==>
            var ops := r.value;
            && |ops| == 1 + (if checked then 1 else 0) + (if labelled then 1 else 0)
            && ops[0] == CircleOp(px + 10.0, py + f.height / 2.0, 5.0, false)
            && (checked ==> ops[1] == CircleOp(px + 10.0, py + f.height / 2.0, 3.0, true))
            && (CircleOp(px + 10.0, py + f.height / 2.0, 3.0, true) in ops <==> checked)
            && (labelled ==> ops[|ops| - 1] == TextOp(f.labelText.value, px + 20.0, py + f.height / 2.0 - 5.0, 10.0))
            && (!labelled ==> forall op :: op in ops ==> !op.TextOp?)
            && (forall op :: op in ops ==> !op.RectOp?))
  {
  }

  /**
   * A radio whose value is "true" is filled by the server's injector but not
   * by this one; the two fail alike, on an unencodable label.
   */
  lemma RadioTrueFilledOnlyOnServer(f: FormField, pageWidth: real, pageHeight: real, lib: Library)
    requires ParseFieldType(f.fieldType) == Some(Radio) && f.value == Some("true")
    ensures ServerInjector.FieldOps(f, pageWidth, pageHeight, lib).Ok? == FieldOps(f, pageWidth, pageHeight, lib).Ok?
    ensures var disc := CircleOp(Clamp(f.x, f.width, pageWidth) + 10.0, Clamp(f.y, f.height, pageHeight) + f.height / 2.0, 3.0, true);
      FieldOps(f, pageWidth, pageHeight, lib).Ok? ==>
        && disc in ServerInjector.FieldOps(f, pageWidth, pageHeight, lib).value
        && disc !in FieldOps(f, pageWidth, pageHeight, lib).value
  {
  }
}
