/**
 * One field on the editor's overlay (src/components/FormField.tsx): the
 * move-and-resize interaction, a small state machine over whether a drag or
 * a resize is in progress and where it started, and the content edits the
 * field hands back to the page.
 */
module FormFieldComponent {
  import opened Wrappers
  import opened JsValues
  import opened FormFields

  /** The smallest size a resize can leave, in screen pixels. */
  const MinWidth: real := 50.0
  const MinHeight: real := 30.0

  /** The cursor and the size at the moment a resize began. */
  datatype ResizeStart = ResizeStart(x: real, y: real, width: real, height: real)

  /** The field moved so that its top-left corner is as near (`newX`, `newY`) as the overlay's top-left allows. */
  function Dragged(f: FormFieldState, newX: real, newY: real): (r: FormFieldState)
    ensures r.cssX >= 0.0 && r.cssY >= 0.0
    ensures newX >= 0.0 ==> r.cssX == newX
    ensures newX < 0.0 ==> r.cssX == 0.0
    ensures newY >= 0.0 ==> r.cssY == newY
    ensures newY < 0.0 ==> r.cssY == 0.0
    ensures r == f.(cssX := r.cssX, cssY := r.cssY)
  {
    f.(cssX := Max(0.0, newX), cssY := Max(0.0, newY))
  }

  /** The field resized towards `newWidth` by `newHeight`, never below 50 by 30. */
  function Resized(f: FormFieldState, newWidth: real, newHeight: real): (r: FormFieldState)
    ensures r.cssWidth >= MinWidth && r.cssHeight >= MinHeight
    ensures newWidth >= MinWidth ==> r.cssWidth == newWidth
    ensures newWidth < MinWidth ==> r.cssWidth == MinWidth
    ensures newHeight >= MinHeight ==> r.cssHeight == newHeight
    ensures newHeight < MinHeight ==> r.cssHeight == MinHeight
    ensures r == f.(cssWidth := r.cssWidth, cssHeight := r.cssHeight)
  {
    f.(cssWidth := Max(MinWidth, newWidth), cssHeight := Max(MinHeight, newHeight))
  }

  /** Dragging a field to where it already is, inside the overlay, changes nothing. */
  lemma DraggedInPlace(f: FormFieldState)
    requires f.cssX >= 0.0 && f.cssY >= 0.0
    ensures Dragged(f, f.cssX, f.cssY) == f
  {
  }

  /** A second clamp of the same position changes nothing. */
  lemma DraggedIdempotent(f: FormFieldState, newX: real, newY: real)
    ensures var g := Dragged(f, newX, newY); Dragged(g, g.cssX, g.cssY) == g
  {
  }

  /** A second clamp of the same size changes nothing. */
  lemma ResizedIdempotent(f: FormFieldState, newWidth: real, newHeight: real)
    ensures var g := Resized(f, newWidth, newHeight); Resized(g, g.cssWidth, g.cssHeight) == g
  {
  }

  /** The state the component keeps between mouse events. */
  class FieldInteraction {
    var isDragging: bool
    var isResizing: bool
    /** The cursor's position relative to the field's corner when the drag began. */
    var dragStart: (real, real)
    var resizeStart: ResizeStart

    constructor()
      ensures !isDragging && !isResizing
      ensures dragStart == (0.0, 0.0) && resizeStart == ResizeStart(0.0, 0.0, 0.0, 0.0)
    {
      isDragging := false;
      isResizing := false;
      dragStart := (0.0, 0.0);
      resizeStart := ResizeStart(0.0, 0.0, 0.0, 0.0);
    }

    /** `handleMouseDown` on the field's body: selects it and starts a drag; returns the id handed to `onSelect`. */
    method MouseDown(f: FormFieldState, clientX: real, clientY: real) returns (selected: string)
      modifies this
      ensures selected == f.field.id
      ensures isDragging && dragStart == (clientX - f.cssX, clientY - f.cssY)
      ensures isResizing == old(isResizing) && resizeStart == old(resizeStart)
    {
      selected := f.field.id;
      isDragging := true;
      dragStart := (clientX - f.cssX, clientY - f.cssY);
    }

    /** `handleResizeMouseDown` on the corner handle: starts a resize and, stopping propagation, selects nothing. */
    method ResizeMouseDown(f: FormFieldState, clientX: real, clientY: real)
      modifies this
      ensures isResizing && resizeStart == ResizeStart(clientX, clientY, f.cssWidth, f.cssHeight)
      ensures isDragging == old(isDragging) && dragStart == old(dragStart)
    {
      isResizing := true;
      resizeStart := ResizeStart(clientX, clientY, f.cssWidth, f.cssHeight);
    }

    /**
     * `handleMouseMove`: the update handed to `onUpdate`, None when no
     * listener is attached. A drag in progress wins over a resize.
     */
    method MouseMove(f: FormFieldState, clientX: real, clientY: real) returns (update: Option<FormFieldState>)
      ensures isDragging ==> update == Some(Dragged(f, clientX - dragStart.0, clientY - dragStart.1))
      ensures !isDragging && isResizing ==>
        update == Some(Resized(f, resizeStart.width + (clientX - resizeStart.x), resizeStart.height + (clientY - resizeStart.y)))
      ensures !isDragging && !isResizing ==> update.None?
    {
      if isDragging {
        var newX := clientX - dragStart.0;
        var newY := clientY - dragStart.1;
        update := Some(f.(cssX := Max(0.0, newX), cssY := Max(0.0, newY)));
      } else if isResizing {
        var deltaX := clientX - resizeStart.x;
        var deltaY := clientY - resizeStart.y;
        update := Some(f.(cssWidth := Max(MinWidth, resizeStart.width + deltaX), cssHeight := Max(MinHeight, resizeStart.height + deltaY)));
      } else {
        update := None;
      }
    }

    /** `handleMouseUp`: ends both a drag and a resize. */
    method MouseUp()
      modifies this
      ensures !isDragging && !isResizing
      ensures dragStart == old(dragStart) && resizeStart == old(resizeStart)
    {
      isDragging := false;
      isResizing := false;
    }
  }

  /**
   * Press on a field and move the cursor by (`dx`, `dy`): the field follows
   * the cursor, clamped to the overlay; with no motion it stays put.
   */
  method DragFollowsCursor(f: FormFieldState, clientX: real, clientY: real, dx: real, dy: real)
    returns (update: Option<FormFieldState>)
    ensures update == Some(Dragged(f, f.cssX + dx, f.cssY + dy))
    ensures dx == 0.0 && dy == 0.0 && f.cssX >= 0.0 && f.cssY >= 0.0 ==> update == Some(f)
  {
    var ui := new FieldInteraction();
    var _ := ui.MouseDown(f, clientX, clientY);
    update := ui.MouseMove(f, clientX + dx, clientY + dy);
  }

  /** Grab the corner and move the cursor by (`dx`, `dy`): the size grows by the motion, never below 50 by 30. */
  method ResizeFollowsCursor(f: FormFieldState, clientX: real, clientY: real, dx: real, dy: real)
    returns (update: Option<FormFieldState>)
    ensures update == Some(Resized(f, f.cssWidth + dx, f.cssHeight + dy))
  {
    var ui := new FieldInteraction();
    ui.ResizeMouseDown(f, clientX, clientY);
    update := ui.MouseMove(f, clientX + dx, clientY + dy);
  }

  /**
   * With a resize and a drag both in progress, a move drags; after mouse-up
   * a move is not handled at all.
   */
  method DragWinsThenRelease(f: FormFieldState, clientX: real, clientY: real, dx: real, dy: real)
    returns (during: Option<FormFieldState>, after: Option<FormFieldState>)
    ensures during.Some? && during.value.cssWidth == f.cssWidth && during.value.cssHeight == f.cssHeight
    ensures during == Some(Dragged(f, f.cssX + dx, f.cssY + dy))
    ensures after.None?
  {
    var ui := new FieldInteraction();
    ui.ResizeMouseDown(f, clientX, clientY);
    var _ := ui.MouseDown(f, clientX, clientY);
    during := ui.MouseMove(f, clientX + dx, clientY + dy);
    ui.MouseUp();
    after := ui.MouseMove(f, clientX + dx, clientY + dy);
  }

  /** `handleInputChange`: the typed text becomes the field's value and nothing else changes. */
  function InputChange(f: FormFieldState, value: string): (r: FormFieldState)
    ensures r.field.value == Some(value)
    ensures r.(field := r.field.(value := f.field.value)) == f
  {
    f.(field := f.field.(value := Some(value)))
  }

  /** The file reader's result: the picked image, as a data URL, becomes the field's image. */
  function ImageLoaded(f: FormFieldState, dataUrl: string): (r: FormFieldState)
    ensures r.field.imageData == Some(dataUrl)
    ensures r.(field := r.field.(imageData := f.field.imageData)) == f
  {
    f.(field := f.field.(imageData := Some(dataUrl)))
  }

  /**
   * `handleSignatureSave`. `drawing` is the pad's PNG data URL, None when
   * there is no pad or nothing was drawn on it; then no update is sent.
   * Otherwise the drawing is stored and the value becomes "signed".
   */
  function SignatureSave(f: FormFieldState, drawing: Option<string>): (r: Option<FormFieldState>)
    ensures r.Some? <==> drawing.Some?
    ensures r.Some? ==>
      && r.value.field.signatureData == drawing
      && r.value.field.value == Some("signed")
      && r.value.(field := r.value.field.(signatureData := f.field.signatureData, value := f.field.value)) == f
  {
    match drawing
    case None => None
    case Some(dataUrl) => Some(f.(field := f.field.(signatureData := Some(dataUrl), value := Some("signed"))))
  }

  /** `handleSignatureClear`: the stored drawing is dropped and nothing else changes. */
  function SignatureClear(f: FormFieldState): (r: FormFieldState)
    ensures r.field.signatureData.None?
    ensures r.(field := r.field.(signatureData := f.field.signatureData)) == f
  {
    f.(field := f.field.(signatureData := None))
  }

  /** Clearing after a save drops the drawing but leaves the value "signed". */
  lemma ClearAfterSaveKeepsSigned(f: FormFieldState, dataUrl: string)
    ensures var cleared := SignatureClear(SignatureSave(f, Some(dataUrl)).value);
      cleared.field.signatureData.None? && cleared.field.value == Some("signed")
  {
  }
}
