/**
 * The form-field records shared by the editor, the exporters and the signing
 * service. Coordinates of a FormField are PDF points (origin bottom-left);
 * the css* numbers of a FormFieldState are screen pixels at the current zoom
 * (origin top-left).
 */
module FormFields {
  import opened Wrappers

  /** The five kinds of field the palette offers and the injectors draw. */
  datatype FieldType = Text | Signature | Image | Date | Radio

  /** The tag a field of this kind carries on the wire. */
  function TypeName(t: FieldType): string {
    match t
    case Text => "text"
    case Signature => "signature"
    case Image => "image"
    case Date => "date"
    case Radio => "radio"
  }

  /**
   * The case of the injectors' `switch (type)` that a tag selects; None for a
   * tag that matches no case (such a field is skipped).
   */
  function ParseFieldType(s: string): (r: Option<FieldType>)
    ensures r.Some? ==> TypeName(r.value) == s
    ensures r.None? ==> forall t: FieldType :: TypeName(t) != s
  {
    if s == "text" then Some(Text)
    else if s == "signature" then Some(Signature)
    else if s == "image" then Some(Image)
    else if s == "date" then Some(Date)
    else if s == "radio" then Some(Radio)
    else None
  }

  /** Every kind's own tag selects that kind's case. */
  lemma TypeNameParses(t: FieldType)
    ensures ParseFieldType(TypeName(t)) == Some(t)
  {
  }

  /**
   * A positioned field in PDF points. `fieldType` is the string tag the
   * JavaScript object carries: the TypeScript type admits only the five
   * names, but the server receives the tag as untyped JSON and a drop event
   * casts whatever string the drag carried.
   */
  datatype FormField = FormField(
    id: string,
    fieldType: string,
    x: real,
    y: real,
    width: real,
    height: real,
    value: Option<string>,
    labelText: Option<string>, // `label` in the source (a reserved word here)
    options: Option<seq<string>>,
    imageData: Option<string>,
    signatureData: Option<string>)

  /** A field as the editor holds it: the native field plus its on-screen rectangle. */
  datatype FormFieldState = FormFieldState(
    field: FormField,
    cssX: real,
    cssY: real,
    cssWidth: real,
    cssHeight: real)

  /** A field of the given kind at the given native rectangle with no content yet. */
  function BlankField(id: string, fieldType: string, x: real, y: real, width: real, height: real): FormField {
    FormField(id, fieldType, x, y, width, height, None, None, None, None, None)
  }
}
