/**
 * The editor page (src/app/page.tsx): the list of placed fields, the
 * selected field and the current viewport, and the handlers that add,
 * move, delete and re-project fields and export them into the document.
 * Each field keeps its native rectangle (PDF points) next to its on-screen
 * rectangle; the native one is what is exported.
 */
module HomePage {
  import opened Wrappers
  import opened JsValues
  import opened FormFields
  import opened CoordinateConverter
  import opened PdfLib
  import ClientInjector

  /** The size, in screen pixels, of a newly placed field. */
  const NewFieldWidth: real := 150.0
  const NewFieldHeight: real := 30.0

  /** The native rectangle of a field. */
  function NativeRect(f: FormField): PDFPosition {
    PDFPosition(f.x, f.y, f.width, f.height)
  }

  /** The on-screen rectangle of a field. */
  function CssRect(s: FormFieldState): CSSPosition {
    CSSPosition(s.cssX, s.cssY, s.cssWidth, s.cssHeight)
  }

  /**
   * One field of `handleViewportChange`: the on-screen rectangle recomputed
   * from the native one (a zero width or height read as 100 or 30, a zero
   * result coordinate as 0, a zero result size as 100 or 30); the field
   * itself is kept.
   */
  function Reproject(s: FormFieldState, v: ViewportInfo): (r: FormFieldState)
    ensures r.field == s.field
    ensures r.cssX == s.field.x * v.scale
    ensures r.cssY == OrDefault((PageHeight(v) - s.field.y - OrDefault(s.field.height, DefaultHeight)) * v.scale, 0.0)
    ensures r.cssWidth == OrDefault(OrDefault(s.field.width, DefaultWidth) * v.scale, DefaultWidth)
    ensures r.cssHeight == OrDefault(OrDefault(s.field.height, DefaultHeight) * v.scale, DefaultHeight)
  {
    var f := s.field;
    var pdfPos := PDFPosition(OrDefault(f.x, 0.0), OrDefault(f.y, 0.0), OrDefault(f.width, DefaultWidth), OrDefault(f.height, DefaultHeight));
    var cssPos := PdfToCss(pdfPos, v);
    s.(cssX := OrDefault(cssPos.x, 0.0), cssY := OrDefault(cssPos.y, 0.0),
       cssWidth := OrDefault(cssPos.width, DefaultWidth), cssHeight := OrDefault(cssPos.height, DefaultHeight))
  }

  /**
   * With a non-zero scale and a non-zero native size, the re-projected
   * screen rectangle converts back to exactly the native rectangle: the two
   * rectangles of every field agree after a viewport change.
   */
  lemma ReprojectAgrees(s: FormFieldState, v: ViewportInfo)
    requires v.scale != 0.0 && s.field.width != 0.0 && s.field.height != 0.0
    ensures CssRect(Reproject(s, v)) == PdfToCss(NativeRect(s.field), v)
    ensures CssToPdf(CssRect(Reproject(s, v)), v) == NativeRect(s.field)
  {
    var p := NativeRect(s.field);
    assert p.width * v.scale != 0.0;
    assert p.height * v.scale != 0.0;
    PdfCssPdfRoundTrip(p, v);
  }

  /** Every field of the list re-projected, in order. */
  function ReprojectAll(fields: seq<FormFieldState>, v: ViewportInfo): (r: seq<FormFieldState>)
    ensures |r| == |fields|
    ensures forall i :: 0 <= i < |fields| ==> r[i] == Reproject(fields[i], v)
  {
    seq(|fields|, i requires 0 <= i < |fields| => Reproject(fields[i], v))
  }

  /**
   * `handleFieldSelect`'s new field: centred on the page, 150 by 30 screen
   * pixels, its native size that divided by the scale.
   */
  function PaletteField(t: FieldType, id: string, v: ViewportInfo): (r: FormFieldState)
    requires v.scale != 0.0
    ensures r.field.id == id && r.field.fieldType == TypeName(t)
    ensures r.field.width * v.scale == NewFieldWidth && r.field.height * v.scale == NewFieldHeight
    ensures r.field.x + r.field.width / 2.0 == v.pdfWidth / 2.0
    ensures r.field.y + r.field.height / 2.0 == v.pdfHeight / 2.0
    ensures r.cssWidth == NewFieldWidth && r.cssHeight == NewFieldHeight
    ensures CssRect(r) == PdfToCss(NativeRect(r.field), v)
    ensures r.field.value.None? && r.field.signatureData.None? && r.field.imageData.None?
  {
    var width := NewFieldWidth / v.scale;
    var height := NewFieldHeight / v.scale;
    var pdfX := v.pdfWidth / 2.0 - NewFieldWidth / v.scale / 2.0;
    var pdfY := v.pdfHeight / 2.0 - NewFieldHeight / v.scale / 2.0;
    var cssPos := PdfToCss(PDFPosition(pdfX, pdfY, width, height), v);
    assert width * v.scale == NewFieldWidth;
    assert height * v.scale == NewFieldHeight;
    FormFieldState(BlankField(id, TypeName(t), pdfX, pdfY, width, height), cssPos.x, cssPos.y, cssPos.width, cssPos.height)
  }

  /**
   * `handleDrop`'s new field: its screen rectangle, 150 by 30, centred on
   * the drop point but kept right of and below the overlay's corner; its
   * native rectangle that rectangle converted (a zero coordinate read as 0,
   * a zero size as 150 by 30).
   */
  function DroppedField(tag: string, mouseX: real, mouseY: real, id: string, v: ViewportInfo): (r: FormFieldState)
    ensures r.field.id == id && r.field.fieldType == tag
    ensures r.cssX >= 0.0 && r.cssY >= 0.0
    ensures r.cssWidth == NewFieldWidth && r.cssHeight == NewFieldHeight
    ensures mouseX >= NewFieldWidth / 2.0 ==> r.cssX + NewFieldWidth / 2.0 == mouseX
    ensures mouseY >= NewFieldHeight / 2.0 ==> r.cssY + NewFieldHeight / 2.0 == mouseY
    ensures mouseX < NewFieldWidth / 2.0 ==> r.cssX == 0.0
    ensures mouseY < NewFieldHeight / 2.0 ==> r.cssY == 0.0
    ensures NativeRect(r.field) == CssToPdf(CssRect(r), v)
  {
    var cssPos := CSSPosition(Max(0.0, mouseX - NewFieldWidth / 2.0), Max(0.0, mouseY - NewFieldHeight / 2.0), NewFieldWidth, NewFieldHeight);
    var pdfPos := CssToPdf(cssPos, v);
    var f := BlankField(id, tag, OrDefault(pdfPos.x, 0.0), OrDefault(pdfPos.y, 0.0),
                        OrDefault(pdfPos.width, NewFieldWidth), OrDefault(pdfPos.height, NewFieldHeight));
    FormFieldState(f, cssPos.x, cssPos.y, cssPos.width, cssPos.height)
  }

  /** A dropped field's two rectangles agree: converting the native one gives back the screen one. */
  lemma DroppedFieldAgrees(tag: string, mouseX: real, mouseY: real, id: string, v: ViewportInfo)
    requires v.scale != 0.0
    ensures var r := DroppedField(tag, mouseX, mouseY, id, v);
      PdfToCss(NativeRect(r.field), v) == CssRect(r)
  {
    var r := DroppedField(tag, mouseX, mouseY, id, v);
    CssPdfCssRoundTrip(CssRect(r), v);
  }

  /** The updated field with its native rectangle taken from `pdfPos`. */
  function WithNative(s: FormFieldState, pdfPos: PDFPosition): FormFieldState {
    s.(field := s.field.(x := pdfPos.x, y := pdfPos.y, width := pdfPos.width, height := pdfPos.height))
  }

  /** The `map` of `handleFieldUpdate`: every field with the updated field's id is replaced, the others are kept. */
  function ApplyUpdate(fields: seq<FormFieldState>, updated: FormFieldState, pdfPos: PDFPosition): (r: seq<FormFieldState>)
    ensures |r| == |fields|
    ensures forall i :: 0 <= i < |fields| && fields[i].field.id == updated.field.id ==> r[i] == WithNative(updated, pdfPos)
    ensures forall i :: 0 <= i < |fields| && fields[i].field.id != updated.field.id ==> r[i] == fields[i]
  {
    seq(|fields|, i requires 0 <= i < |fields| =>
      if fields[i].field.id == updated.field.id then WithNative(updated, pdfPos) else fields[i])
  }

  /**
   * An update whose native rectangle is derived from its screen rectangle:
   * the stored field's two rectangles agree.
   */
  lemma UpdatedFieldAgrees(updated: FormFieldState, v: ViewportInfo)
    requires v.scale != 0.0 && updated.cssWidth != 0.0 && updated.cssHeight != 0.0
    ensures var s := WithNative(updated, CssToPdf(CssRect(updated), v));
      PdfToCss(NativeRect(s.field), v) == CssRect(s)
  {
    CssPdfCssRoundTrip(CssRect(updated), v);
  }

  /** The `filter` of `handleFieldDelete`: the fields whose id differs, in their order. */
  function RemoveId(fields: seq<FormFieldState>, id: string): (r: seq<FormFieldState>)
    ensures |r| <= |fields|
    ensures forall i :: 0 <= i < |r| ==> r[i].field.id != id && r[i] in fields
    ensures forall i :: 0 <= i < |fields| && fields[i].field.id != id ==> fields[i] in r
  {
    if |fields| == 0 then []
    else (if fields[0].field.id == id then [] else [fields[0]]) + RemoveId(fields[1..], id)
  }

  /** Removing from a concatenation removes from each part, so the kept fields stay in order. */
  lemma {:induction false} RemoveIdAppend(a: seq<FormFieldState>, b: seq<FormFieldState>, id: string)
    ensures RemoveId(a + b, id) == RemoveId(a, id) + RemoveId(b, id)
  {
    if |a| > 0 {
      assert (a + b)[1..] == a[1..] + b;
      RemoveIdAppend(a[1..], b, id);
    } else {
      assert a + b == b;
    }
  }

  /** A list with no field of that id is kept whole. */
  lemma {:induction false} RemoveAbsentId(fields: seq<FormFieldState>, id: string)
    requires forall i :: 0 <= i < |fields| ==> fields[i].field.id != id
    ensures RemoveId(fields, id) == fields
  {
    if |fields| > 0 {
      RemoveAbsentId(fields[1..], id);
    }
  }

  /** Removing an id from a list that ends with a new field of another id keeps that field last. */
  lemma RemoveIdKeepsLast(fields: seq<FormFieldState>, last: FormFieldState, id: string)
    requires last.field.id != id
    ensures RemoveId(fields + [last], id) == RemoveId(fields, id) + [last]
  {
    RemoveIdAppend(fields, [last], id);
    assert RemoveId([last], id) == [last] + RemoveId([], id);
  }

  /** The field list as `handleDownloadPDF` hands it over: native fields only, in list order. */
  function ExportFields(fields: seq<FormFieldState>): (r: seq<FormField>)
    ensures |r| == |fields|
    ensures forall i :: 0 <= i < |fields| ==> r[i] == fields[i].field
  {
    seq(|fields|, i requires 0 <= i < |fields| => fields[i].field)
  }

  /** Why a download produces no document. */
  datatype DownloadError = PdfNotLoaded | NoFields | InjectFailed(cause: InjectError)

  /** The page's state. */
  class Home {
    var fields: seq<FormFieldState>
    var selectedFieldId: Option<string>
    var viewport: Option<ViewportInfo>
    /** The document's address once it has been generated. */
    var pdfFile: Option<string>

    constructor()
      ensures fields == [] && selectedFieldId.None? && viewport.None? && pdfFile.None?
    {
      fields := [];
      selectedFieldId := None;
      viewport := None;
      pdfFile := None;
    }

    /** The document has been generated and is reachable at `url`. */
    method SetPdfFile(url: string)
      modifies this
      ensures pdfFile == Some(url)
      ensures fields == old(fields) && selectedFieldId == old(selectedFieldId) && viewport == old(viewport)
    {
      pdfFile := Some(url);
    }

    /** `onSelect` of a field: the selection becomes that id. */
    method Select(id: string)
      modifies this
      ensures selectedFieldId == Some(id)
      ensures fields == old(fields) && viewport == old(viewport) && pdfFile == old(pdfFile)
    {
      selectedFieldId := Some(id);
    }

    /** `handleViewportChange`: the new viewport is kept and every field re-projected into it. */
    method ViewportChange(v: ViewportInfo)
      modifies this
      ensures viewport == Some(v)
      ensures fields == ReprojectAll(old(fields), v)
      ensures selectedFieldId == old(selectedFieldId) && pdfFile == old(pdfFile)
    {
      viewport := Some(v);
      fields := ReprojectAll(fields, v);
    }

    /** `handleFieldSelect`: without a viewport nothing happens; otherwise a centred field is appended and selected. */
    method FieldSelect(t: FieldType, id: string)
      requires viewport.Some? ==> viewport.value.scale != 0.0
      modifies this
      ensures viewport == old(viewport) && pdfFile == old(pdfFile)
      ensures viewport.None? ==> fields == old(fields) && selectedFieldId == old(selectedFieldId)
      ensures viewport.Some? ==> fields == old(fields) + [PaletteField(t, id, viewport.value)] && selectedFieldId == Some(id)
    {
      if viewport.None? {
        return;
      }
      var newField := PaletteField(t, id, viewport.value);
      fields := fields + [newField];
      selectedFieldId := Some(id);
    }

    /**
     * `handleDrop`, given the drag's type tag, the cursor and the overlay's
     * corner in client coordinates. An empty tag or no viewport: nothing
     * happens; otherwise a field centred on the drop point is appended and
     * selected.
     */
    method Drop(tag: string, clientX: real, clientY: real, overlayLeft: real, overlayTop: real, id: string)
      modifies this
      ensures tag == "" || viewport.None? ==> fields == old(fields) && selectedFieldId == old(selectedFieldId)
      ensures tag != "" && viewport.Some? ==>
        && fields == old(fields) + [DroppedField(tag, clientX - overlayLeft, clientY - overlayTop, id, viewport.value)]
        && selectedFieldId == Some(id)
      ensures viewport == old(viewport) && pdfFile == old(pdfFile)
    {
      if tag == "" || viewport.None? {
        return;
      }
      var mouseX := clientX - overlayLeft;
      var mouseY := clientY - overlayTop;
      var newField := DroppedField(tag, mouseX, mouseY, id, viewport.value);
      fields := fields + [newField];
      selectedFieldId := Some(id);
    }

    /**
     * `handleFieldUpdate`: without a viewport nothing happens; otherwise
     * every field with the update's id becomes the update, its native
     * rectangle converted from its screen rectangle.
     */
    method FieldUpdate(updated: FormFieldState)
      modifies this
      ensures viewport.None? ==> fields == old(fields)
      ensures viewport.Some? ==> fields == ApplyUpdate(old(fields), updated, CssToPdf(CssRect(updated), viewport.value))
      ensures selectedFieldId == old(selectedFieldId) && viewport == old(viewport) && pdfFile == old(pdfFile)
    {
      if viewport.None? {
        return;
      }
      var pdfPos := CssToPdf(CssRect(updated), viewport.value);
      fields := ApplyUpdate(fields, updated, pdfPos);
    }

    /** `handleFieldDelete`: the fields with that id are removed and, if it was selected, the selection is cleared. */
    method FieldDelete(id: string)
      modifies this
      ensures fields == RemoveId(old(fields), id)
      ensures old(selectedFieldId) == Some(id) ==> selectedFieldId.None?
      ensures old(selectedFieldId) != Some(id) ==> selectedFieldId == old(selectedFieldId)
      ensures viewport == old(viewport) && pdfFile == old(pdfFile)
    {
      fields := RemoveId(fields, id);
      if selectedFieldId == Some(id) {
        selectedFieldId := None;
      }
    }

    /**
     * `handleDownloadPDF`, given the bytes fetched from the document's
     * address: refused without a document address (none, or empty) or without fields; otherwise the
     * exported fields are injected with both offsets 0.
     */
    method DownloadPdf(pdfBytes: Bytes, lib: Library) returns (r: Result<Bytes, DownloadError>)
      ensures !Truthy(pdfFile) ==> r == Err(PdfNotLoaded)
      ensures Truthy(pdfFile) && |fields| == 0 ==> r == Err(NoFields)
      ensures Truthy(pdfFile) && |fields| > 0 ==> r == Exported(pdfBytes, ExportFields(fields), lib)
    {
      if !Truthy(pdfFile) {
        return Err(PdfNotLoaded);
      }
      if |fields| == 0 {
        return Err(NoFields);
      }
      var injected := ClientInjector.InjectFieldsToPdf(pdfBytes, ExportFields(fields), 0.0, 0.0, lib);
      r := match injected
        case Err(e) => Err(InjectFailed(e))
        case Ok(bytes) => Ok(bytes);
    }
  }

  /** What the editor's exporter makes of the document and the fields. */
  function Exported(pdfBytes: Bytes, fields: seq<FormField>, lib: Library): (r: Result<Bytes, DownloadError>)
    ensures lib.load(pdfBytes).None? ==> r == Err(InjectFailed(LoadFailed))
    ensures lib.load(pdfBytes).Some? && |lib.load(pdfBytes).value.pages| == 0 ==> r == Err(InjectFailed(NoPage))
  {
    match lib.load(pdfBytes)
    case None => Err(InjectFailed(LoadFailed))
    case Some(doc) =>
      if |doc.pages| == 0 then Err(InjectFailed(NoPage))
      else match ClientInjector.Injected(doc, fields, lib)
        case Err(e) => Err(InjectFailed(e))
        case Ok(d) => Ok(lib.save(d))
  }

  /**
   * On a fresh page with a viewport, adding a field from the palette and
   * then deleting another id leaves exactly the new field, still selected.
   */
  method AddThenDelete(t: FieldType, newId: string, otherId: string, v: ViewportInfo) returns (home: Home)
    requires v.scale != 0.0 && newId != otherId
    ensures fresh(home)
    ensures home.fields == [PaletteField(t, newId, v)]
    ensures home.selectedFieldId == Some(newId)
  {
    home := new Home();
    home.ViewportChange(v);
    home.FieldSelect(t, newId);
    assert home.fields == [] + [PaletteField(t, newId, v)];
    RemoveIdKeepsLast([], PaletteField(t, newId, v), otherId);
    home.FieldDelete(otherId);
  }
}
