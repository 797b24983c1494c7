# A Dafny model of the boloforms signature engine

The signature engine puts form fields on a PDF page. There are five kinds of field: text, date, signature, image and radio. The user places them in a browser editor, over a rendering of the page, and the fields are then drawn into the document. That happens in one of two places:

- the editor's own exporter;
- a signing service, which also records SHA-256 hashes of the unsigned and signed documents so that tampering can be detected later.

This project models the parts that decide where a field ends up and what is drawn for it:

- **Coordinate conversion** (`coordinate_converter.dfy`). A field's rectangle converts from screen pixels (origin top-left, multiplied by the zoom `scale`) to PDF points (origin bottom-left) and back. The converter has fallbacks for a zero size, a zero page height and a zero scale. The page-fit scale is capped at 1.
- **The two field injectors**, sharing a library model (`pdf_lib.dfy`) and the shared geometry (`placement.dfy`).
  - Each injector clamps every field into the first page and draws text, borders, images and radio circles in list order.
  - The server's injector (`server_injector.dfy`) insets text, aspect-fits images and absorbs every decoding failure.
  - The editor's injector (`client_injector.dfy`) stretches images over the box, routes images by data-URL prefix and ignores its offset arguments. A signature whose fallback `atob` throws aborts the whole export.
  - In both, a text, date or radio label that the embedded standard Helvetica font (WinAnsi encoding) cannot encode makes `drawText` throw. Nothing catches that, so the whole injection fails. Which strings encode is a function handed in.
  - A pdf-lib page is a `Page` object whose draw calls append to its list of operations.
  - Loading, saving and image decoding are functions handed in.
- **Calibration.**
  - `pdf_calibration.dfy` holds the mean offset of a list of calibration points and the reference baselines of the sample contract.
  - `calibration_tool.dfy` holds the calibration panel as a class. A click is matched to the nearest of three reference points; the first measurement sets the offsets; Apply and Reset behave as their buttons do.
- **The editor page** (`home_page.dfy`), as a class holding the field list, the selection, the viewport and the document address.
  - Handlers: viewport change (re-projection), palette click, drop, update, delete, and download.
  - Each field carries its native rectangle next to its screen rectangle. The model proves that the handlers keep the two consistent.
- **One field on the overlay** (`form_field_component.dfy`): the drag/resize state machine as a class, and the content edits the field hands back to the page.
- **The signing service** (`sign_server.dfy`), with the database and the file system as maps:
  - `/sign-pdf` request validation, including the legacy single-signature form;
  - the source of the unsigned document, the injection, the hashes and the record upsert;
  - the `/verify-pdf` integrity decision.

The two injectors and the code around them differ in ways the model keeps exactly as written:

- **Signature images.** The server's injector aspect-fits and centres signatures and images in their box. The editor's exporter draws them stretched over the whole box, and its comments call that the exact position.
- **A failing signature payload.** On the server, a payload that does not decode costs only its image. The border and the later fields are still drawn (`ServerInjector.ImageFieldDrawing`). In the editor's exporter, the signature fallback calls `atob` inside a `catch` block but outside any handler, so when it throws the whole export fails (`ClientInjector.BadSignatureFailsExport`).
- **Text baselines.** The editor's exporter comments its text position as the exact vertical centre, `py + h/2 - 5`, at 1 point from the left edge. The server's baseline is 1 point higher, `py + h/2 - 4`, at 4 points from the left edge.
- **Radio values.** The server fills a radio for `"checked"` or `"true"`; the client only for `"checked"` (`ClientInjector.RadioTrueFilledOnlyOnServer`).
- **Legacy coordinates.** The service's error message asks for x, y, width and height, but `!coordinates.x` also refuses a legacy coordinate of 0 as invalid (`SignServer.LegacyZeroCoordinateRefused`).
- **The original document.** The service reads `originalPdfPath` when a request has no bytes and when the original is verified, but nothing in it ever writes that path. So a record created by signing cannot be verified as "original", and it cannot be re-signed without fresh bytes (`SignServer.NewRecordHasNoOriginal`).
- **The calibration panel.** `CalibrationTool` is not mounted by the editor page, and `handleMeasureClick` is not attached to any element. The panel is modelled as written, as a stand-alone component.

## Model

| member | source | states |
|---|---|---|
| `FormFields.ParseFieldType` | server/injectFields.js:43-271 | the `switch (type)` case a tag selects: a kind whose wire name is the tag, or none when no kind has that name |
| `FormFields.TypeNameParses` | src/types/formFields.ts:5 | each of the five kinds' own tag selects that kind's case |
| `CoordinateConverter.CssToPdf` | src/lib/coordinateConverter.ts:40-117 | zero scale gives the fallback {0,0,100,30}; otherwise rescaling the result by `scale` gives back x, width and height (with 0 read as 100 or 30), and the distance of the top edge from the page top, rescaled, is the screen `y` (page height 842 when none is reported) |
| `CoordinateConverter.PdfToCss` | src/lib/coordinateConverter.ts:126-156 | x, width and height are multiplied by the scale (zero size read as 100 by 30), and the screen rectangle's bottom lies `(pageHeight - y) * scale` below the page top |
| `CoordinateConverter.PdfCssPdfRoundTrip` | src/lib/coordinateConverter.ts:40-156 | PDF to screen to PDF is the identity for a non-zero scale and size |
| `CoordinateConverter.CssPdfCssRoundTrip` | src/lib/coordinateConverter.ts:40-156 | screen to PDF to screen is the identity for a non-zero scale and size |
| `CoordinateConverter.PdfToCssA4Example` | src/lib/coordinateConverter.ts:126-156 | at scale 0.5 on an A4 page, {50,700,150,30} is shown at {25,56,75,15} |
| `CoordinateConverter.CalculateScale` | src/lib/coordinateConverter.ts:161-168 | `min(limit / pdfWidth, 1)` with the limit `maxWidth`, or the container width when `maxWidth` is absent or 0: never above 1; equal to the ratio when that is at most 1; a zero page width gives 1 for a positive limit and no finite value otherwise |
| `PdfLib.Page.constructor` | server/injectFields.js:15-24 | the first page as loaded: its size and its existing content |
| `PdfLib.Page.Draw` | server/injectFields.js:52-68 | a draw call appends exactly one operation to the page and changes nothing else |
| `PdfLib.Then` | server/injectFields.js:29-272 | two draw steps in sequence: an exception in the first skips the second; otherwise an exception in the second, or both steps' operations in order |
| `PdfLib.TryConcatMapAppend` | server/injectFields.js:29-272 | the operations drawn for two lists of fields are those of the first followed by those of the second, or the first exception |
| `PdfLib.TryConcatMapPrefixFails` | src/lib/injectFieldsToPDF.ts:41-290 | once drawing a prefix of the fields raises, the whole loop fails with that exception |
| `PdfLib.TryConcatMapFails` | src/lib/injectFieldsToPDF.ts:41-290 | when drawing one field raises, the whole loop fails |
| `PdfLib.TryConcatMapSucceeds` | src/lib/injectFieldsToPDF.ts:41-290 | when no field raises, the loop yields every field's operations in list order |
| `PdfLib.WithFirstPage` | server/injectFields.js:274-275 | the saved document is the loaded one with only its first page's content replaced |
| `Placement.Clamp` | server/injectFields.js:33-34 | `max(0, min(v, page - size))`: never negative, never above `v` unless 0; unchanged when the field already fits; the far edge stays on the page when the field is no larger than the page |
| `Placement.ClampIdempotent` | src/lib/injectFieldsToPDF.ts:50-51 | clamping an already clamped origin changes nothing |
| `Placement.IndexOf` | server/injectFields.js:107 | the first occurrence of a character, or none exactly when it does not occur |
| `Placement.SecondPiece` | server/injectFields.js:107 | `split(",")[1]`: undefined exactly when there is no comma, and never containing a comma |
| `Placement.SecondPieceOfDataUrl` | server/injectFields.js:106-108 | for `header,payload` with no other comma the second piece is the payload |
| `Placement.AspectFitInBox` | server/injectFields.js:126-152 | in a box of positive size the fitted image keeps the image's aspect ratio, stays inside the box, spans it along one side and is centred |
| `ServerInjector.DrawField` | server/injectFields.js:29-272 | one loop iteration appends exactly that field's operations to the page, or stops with the exception `drawText` raises |
| `ServerInjector.DrawTextField` | server/injectFields.js:44-98 | a text or date field: a value the font cannot encode raises; otherwise the value when non-empty, then always the border |
| `ServerInjector.DrawImageField` | server/injectFields.js:100-233 | a signature or image field: the fitted image only when the payload is present and decodes, then always the border; a decoding failure is absorbed |
| `ServerInjector.InjectFieldsToPdf` | server/injectFields.js:14-276 | fails when the document does not load, has no page, or a field draws a string the font cannot encode; otherwise the saved bytes are those of the document with every field's operations appended to the first page in list order |
| `ServerInjector.TraceAppend` | server/injectFields.js:29-272 | fields are drawn in list order: the trace of a concatenation is the concatenation of the traces, or the first exception |
| `ServerInjector.TraceFailsFrom` | server/injectFields.js:29-272 | once a prefix of the fields raises, the injection fails with that exception |
| `ServerInjector.TraceOfTwo` | server/injectFields.js:29-272 | a later field's operations come after an earlier field's (z-order), and an exception in the earlier one skips the later one |
| `ServerInjector.FailsOnlyOnUnencodableText` | server/injectFields.js:43-271 | one field raises exactly when the string it hands to `drawText` (text or date value, radio label) cannot be encoded, and then with that error; images and unknown tags never raise |
| `ServerInjector.TraceFailsExactlyOnText` | server/injectFields.js:29-272 | the whole injection fails exactly when some field draws an unencodable string, and then with that error |
| `ServerInjector.UnknownTypeDrawsNothing` | server/injectFields.js:43-271 | a field whose tag names no kind draws nothing |
| `ServerInjector.TextFieldDrawing` | server/injectFields.js:44-98 | text and date: a value the font cannot encode raises; otherwise the value in size 10 at 4 points from the left edge and 4 below the middle when non-empty, then a 2-point border around the clamped box |
| `ServerInjector.ImageFieldDrawing` | server/injectFields.js:100-233 | signature and image: never an exception; the border is last, preceded by one image exactly when the payload is present and decodes; that image keeps the aspect ratio, lies inside the box, spans one side and is centred |
| `ServerInjector.DecodeStripsDataUrl` | server/injectFields.js:106-124 | a data URL is decoded from the text after its comma, PNG tried before JPG |
| `ServerInjector.DecodePlainBase64` | server/injectFields.js:109-124 | a payload that is not a data URL is decoded whole, PNG tried before JPG |
| `ServerInjector.RadioFieldDrawing` | server/injectFields.js:235-270 | radio: a label the font cannot encode raises; otherwise exactly one, two or three operations: the outline circle of radius 5 at 10 points in and mid-height first, a disc of radius 3 second exactly when the value is "checked" or "true", the label 20 points in last when non-empty, never a border |
| `ClientInjector.DrawField` | src/lib/injectFieldsToPDF.ts:41-290 | one loop iteration appends exactly that field's operations, or stops with the error that escapes it |
| `ClientInjector.DrawTextField` | src/lib/injectFieldsToPDF.ts:90-162 | a text or date field: a value the font cannot encode raises; otherwise the value when non-empty, then always the border |
| `ClientInjector.DrawSignatureField` | src/lib/injectFieldsToPDF.ts:164-208 | a signature: the stretched image when the string or its decoded tail is a PNG; an escaping error when `atob` rejects the tail; the border otherwise |
| `ClientInjector.InjectFieldsToPdf` | src/lib/injectFieldsToPDF.ts:8-294 | fails when the document does not load, has no page, or a field fails; otherwise the saved bytes are those of the document with every field's operations on its first page in list order |
| `ClientInjector.OffsetsIgnored` | src/lib/injectFieldsToPDF.ts:8-13 | two exports that differ only in the offset arguments give the same answer |
| `ClientInjector.TraceFailsFrom` | src/lib/injectFieldsToPDF.ts:41-290 | once a prefix of the fields fails, the export fails with that error |
| `ClientInjector.UnencodableTextFailsExport` | src/lib/injectFieldsToPDF.ts:90-289 | a text, date or label the font cannot encode fails the whole export, whatever the other fields are |
| `ClientInjector.UnknownTypeDrawsNothing` | src/lib/injectFieldsToPDF.ts:90-289 | a field whose tag names no kind draws nothing and cannot fail |
| `ClientInjector.TextFieldDrawing` | src/lib/injectFieldsToPDF.ts:91-162 | text and date: a value the font cannot encode fails; otherwise the value at 1 point from the left edge and 5 below the middle when non-empty, then the 2-point border |
| `ClientInjector.ImageFieldDrawing` | src/lib/injectFieldsToPDF.ts:210-256 | image: never a failure; the border last, preceded by one image covering exactly the clamped box when the payload is present and decodes |
| `ClientInjector.PngDataUrlRouting` | src/lib/injectFieldsToPDF.ts:216-221 | a `data:image/png` URL goes to the PNG decoder with the text after its comma |
| `ClientInjector.JpegDataUrlRouting` | src/lib/injectFieldsToPDF.ts:222-227 | a `data:image/jpeg` or `data:image/jpg` URL goes to the JPG decoder |
| `ClientInjector.OtherDataUrlRouting` | src/lib/injectFieldsToPDF.ts:228-235 | any other text with a comma falls back to the PNG decoder |
| `ClientInjector.ImageWithoutCommaNotDrawn` | src/lib/injectFieldsToPDF.ts:213-245 | text with no comma, such as bare base64, is never drawn: `atob(undefined)` throws and the error is absorbed |
| `ClientInjector.SignatureFieldDrawing` | src/lib/injectFieldsToPDF.ts:164-208 | signature: direct PNG fills the box; otherwise a non-data-URL leaves the border; a data URL fails exactly when `atob` rejects its tail, and else is drawn exactly when the tail is a PNG |
| `ClientInjector.HowFieldsFail` | src/lib/injectFieldsToPDF.ts:90-289 | a field fails exactly when it draws a string the font cannot encode (the same strings as on the server), with that error, or is a signature data URL that does not decode as given and whose fallback `atob` throws, with the `atob` error; images, unknown tags and signatures without data never fail |
| `ClientInjector.BadSignatureFailsExport` | src/lib/injectFieldsToPDF.ts:180-184 | one signature data URL that does not decode directly and whose tail `atob` rejects fails the whole export, whatever the other fields are |
| `ClientInjector.RadioFieldDrawing` | src/lib/injectFieldsToPDF.ts:258-288 | radio: a label the font cannot encode fails; otherwise exactly one, two or three operations: the outline circle of radius 5 first, a disc of radius 3 second exactly when the value is "checked", the label last when non-empty, never a border |
| `ClientInjector.RadioTrueFilledOnlyOnServer` | src/lib/injectFieldsToPDF.ts:270 | a radio whose value is "true" is filled by the server's injector and not by the editor's; both fail alike, on an unencodable label |
| `PdfCalibration.ExpectedCss` | src/lib/pdfCalibration.ts:27-28 | a PDF point appears at `x * scale` across and `(pageHeight - y) * scale` down |
| `PdfCalibration.PointOffset` | src/lib/pdfCalibration.ts:25-35 | observed position = expected position + offset, and the offset is zero exactly when the point sits where expected |
| `PdfCalibration.Offsets` | src/lib/pdfCalibration.ts:25-35 | one offset per calibration point, in order |
| `PdfCalibration.CalculateOffset` | src/lib/pdfCalibration.ts:16-42 | (0,0) for no points; otherwise the arithmetic mean: `n` times the result is the sum of the `n` offsets, axis by axis |
| `PdfCalibration.SumOfConstant` | src/lib/pdfCalibration.ts:38-39 | the sum of `n` equal offsets is `n` times that offset |
| `PdfCalibration.SumXBounds` | src/lib/pdfCalibration.ts:38 | the horizontal sum lies between `n` times any lower and upper bound of the offsets |
| `PdfCalibration.SumYBounds` | src/lib/pdfCalibration.ts:39 | the vertical sum lies between `n` times any lower and upper bound of the offsets |
| `PdfCalibration.ConstantOffsetIsFound` | src/lib/pdfCalibration.ts:16-42 | when every point is off by the same amount, that amount is the result |
| `PdfCalibration.SinglePointOffset` | src/lib/pdfCalibration.ts:16-42 | one point yields its own offset |
| `PdfCalibration.ExactPointsGiveZero` | src/lib/pdfCalibration.ts:16-42 | points that all sit where expected yield no offset |
| `PdfCalibration.MeanWithinRange` | src/lib/pdfCalibration.ts:16-42 | the mean lies between the smallest and the largest offset on each axis |
| `PdfCalibration.SampleTextBaselines` | src/lib/generateSamplePDF.ts:16-95 | the sample contract draws 27 texts, all at x = 50: the title at y = 750, the date at 720, 23 body lines from 680 down in steps of 20, and the two labels at 200 and 170 |
| `PdfCalibration.ReferencePointsOnSample` | src/lib/pdfCalibration.ts:48-54 | each of the five reference points is the baseline of a text the sample contract draws, and all of them lie on its 595 by 842 page |
| `Calibration.ClickToPdf` | src/components/CalibrationTool.tsx:38-39 | the click taken back to PDF space: rescaling its `x`, and its distance below the page top, gives the click |
| `Calibration.SquaredDistance` | src/components/CalibrationTool.tsx:49-50 | the comparison key of the Euclidean distance: never negative, and zero at the point itself |
| `Calibration.NearestIndex` | src/components/CalibrationTool.tsx:48-52 | the `reduce` picks a candidate no farther than any other, and every earlier candidate is strictly farther (ties go to the first) |
| `Calibration.MeasurementAt` | src/components/CalibrationTool.tsx:41-67 | the recorded measurement is a candidate nearest to the click, together with the click itself |
| `Calibration.MeasuredOffset` | src/components/CalibrationTool.tsx:55-59 | the click = the candidate's expected position + the measured offset |
| `Calibration.ClickOnCandidate` | src/components/CalibrationTool.tsx:26-76 | a click exactly where a candidate is expected picks that candidate and measures no offset |
| `Calibration.FirstMeasurementAgreesWithCalculateOffset` | src/components/CalibrationTool.tsx:55-72 | the offset the first measurement sets is what `calculateOffset` makes of that single point |
| `Calibration.ParsedOrZero` | src/components/CalibrationTool.tsx:100 | the typed text parsed as a number, or 0 when it does not parse (or parses to 0) |
| `Calibration.CalibrationTool.constructor` | src/components/CalibrationTool.tsx:13-17 | no offsets, panel closed, not measuring, no measurements |
| `Calibration.CalibrationTool.Open` | src/components/CalibrationTool.tsx:82 | the panel opens and nothing else changes |
| `Calibration.CalibrationTool.StartMeasuring` | src/components/CalibrationTool.tsx:141 | measuring starts and nothing else changes |
| `Calibration.CalibrationTool.SetOffsetX` | src/components/CalibrationTool.tsx:100 | the horizontal offset becomes the typed number or 0, nothing else changes |
| `Calibration.CalibrationTool.SetOffsetY` | src/components/CalibrationTool.tsx:111 | the vertical offset becomes the typed number or 0, nothing else changes |
| `Calibration.CalibrationTool.Apply` | src/components/CalibrationTool.tsx:21-24 | the current offsets are handed on and the panel closes; nothing else changes |
| `Calibration.CalibrationTool.Reset` | src/components/CalibrationTool.tsx:153-158 | offsets zero, measurements cleared, panel closed |
| `Calibration.CalibrationTool.MeasureClick` | src/components/CalibrationTool.tsx:26-76 | ignored unless measuring with a viewport and an overlay; otherwise the nearest candidate's measurement is appended, the offsets are set from it only when it is the first, and measuring stops |
| `Calibration.MeasureTitleThenAnother` | src/components/CalibrationTool.tsx:61-75 | a click on the title from a fresh panel records "Title" with zero offsets, and a second click leaves the offsets unchanged |
| `FormFieldComponent.Dragged` | src/components/FormField.tsx:87-94 | the dragged position is the requested one clamped to be non-negative on each axis; only the screen position changes |
| `FormFieldComponent.Resized` | src/components/FormField.tsx:95-102 | the resized size is the requested one, never below 50 by 30; only the screen size changes |
| `FormFieldComponent.FieldInteraction.constructor` | src/components/FormField.tsx:22-25 | neither dragging nor resizing, both starts at zero |
| `FormFieldComponent.FieldInteraction.MouseDown` | src/components/FormField.tsx:64-72 | selects the field, starts a drag and remembers the cursor's offset from the field's corner |
| `FormFieldComponent.FieldInteraction.ResizeMouseDown` | src/components/FormField.tsx:74-83 | starts a resize, remembering the cursor and the current size; no selection |
| `FormFieldComponent.FieldInteraction.MouseMove` | src/components/FormField.tsx:85-119 | a drag wins over a resize; a resize adds the cursor's motion to the starting size; with neither there is no update |
| `FormFieldComponent.FieldInteraction.MouseUp` | src/components/FormField.tsx:106-109 | ends both a drag and a resize |
| `FormFieldComponent.DragFollowsCursor` | src/components/FormField.tsx:64-104 | press then move by (dx, dy): the field moves by the same amount, clamped; no motion leaves it where it was |
| `FormFieldComponent.ResizeFollowsCursor` | src/components/FormField.tsx:74-104 | grab the corner and move by (dx, dy): the size grows by the motion, never below 50 by 30 |
| `FormFieldComponent.DragWinsThenRelease` | src/components/FormField.tsx:85-119 | with both in progress a move drags and keeps the size; after mouse-up a move sends nothing |
| `FormFieldComponent.InputChange` | src/components/FormField.tsx:121-123 | the typed text becomes the value and nothing else changes |
| `FormFieldComponent.ImageLoaded` | src/components/FormField.tsx:125-137 | the picked file's data URL becomes the image and nothing else changes |
| `FormFieldComponent.SignatureSave` | src/components/FormField.tsx:139-144 | an update exactly when there is a drawing; it stores the drawing and sets the value "signed", nothing else |
| `FormFieldComponent.SignatureClear` | src/components/FormField.tsx:146-149 | the drawing is dropped and nothing else changes |
| `FormFieldComponent.ClearAfterSaveKeepsSigned` | src/components/FormField.tsx:139-149 | clearing after a save drops the drawing but keeps the value "signed" |
| `HomePage.Reproject` | src/app/page.tsx:79-98 | the field is kept and its screen rectangle recomputed from the native one, with the source's fallbacks |
| `HomePage.ReprojectAgrees` | src/app/page.tsx:74-101 | for a non-zero scale and size the re-projected screen rectangle converts back to exactly the native rectangle |
| `HomePage.ReprojectAll` | src/app/page.tsx:78-100 | every field re-projected, in order |
| `HomePage.PaletteField` | src/app/page.tsx:103-137 | a centred field, 150 by 30 on screen, whose native size is that divided by the scale, and whose screen rectangle is its native one converted |
| `HomePage.DroppedField` | src/app/page.tsx:139-237 | 150 by 30 on screen, centred on the drop point, with each coordinate 0 when centring would put it left of or above the overlay; its native rectangle is its screen one converted, at every scale |
| `HomePage.DroppedFieldAgrees` | src/app/page.tsx:202-228 | a dropped field's native rectangle converts back to its screen rectangle |
| `HomePage.ApplyUpdate` | src/app/page.tsx:273-285 | every field with the updated id is replaced by the update with its converted native rectangle; the others are kept |
| `HomePage.UpdatedFieldAgrees` | src/app/page.tsx:259-291 | after an update the stored field's two rectangles agree |
| `HomePage.RemoveId` | src/app/page.tsx:294 | the kept fields are exactly those of another id, taken from the list |
| `HomePage.RemoveIdAppend` | src/app/page.tsx:294 | the filter distributes over concatenation, so the kept fields stay in order |
| `HomePage.RemoveAbsentId` | src/app/page.tsx:294 | deleting an id no field has keeps the list whole |
| `HomePage.RemoveIdKeepsLast` | src/app/page.tsx:294 | deleting another id keeps a newly added last field last |
| `HomePage.ExportFields` | src/app/page.tsx:307-319 | the exported list is the native fields, in order |
| `HomePage.Exported` | src/app/page.tsx:321-326 | a document that does not load or has no page is an export failure |
| `HomePage.Home.constructor` | src/app/page.tsx:22-25 | no fields, no selection, no viewport, no document |
| `HomePage.Home.SetPdfFile` | src/app/page.tsx:45-50 | the document address is set and nothing else changes |
| `HomePage.Home.Select` | src/app/page.tsx:414 | the selection becomes the id and nothing else changes |
| `HomePage.Home.ViewportChange` | src/app/page.tsx:74-101 | the viewport is kept and every field is re-projected into it |
| `HomePage.Home.FieldSelect` | src/app/page.tsx:103-137 | without a viewport nothing happens; otherwise the centred field is appended and selected |
| `HomePage.Home.Drop` | src/app/page.tsx:139-237 | an empty tag or no viewport changes nothing; otherwise the field at the drop point is appended and selected |
| `HomePage.Home.FieldUpdate` | src/app/page.tsx:259-291 | without a viewport nothing happens; otherwise the fields of that id become the update with its converted native rectangle |
| `HomePage.Home.FieldDelete` | src/app/page.tsx:293-298 | the fields of that id are removed, and the selection is cleared exactly when it was that id |
| `HomePage.Home.DownloadPdf` | src/app/page.tsx:300-341 | refused without a document address or without fields; otherwise the native fields are exported through the editor's exporter with offsets 0 |
| `HomePage.AddThenDelete` | src/app/page.tsx:103-298 | adding a field and deleting another id leaves exactly the new field, still selected |
| `SignServer.FieldsToInject` | server/index.js:118-183 | missing id first; a given `fields` must be a non-empty array and wins; with no `fields`, an image and coordinates give the one legacy signature field when all four coordinates are non-zero numbers and the invalid-coordinates error otherwise; lacking either gives the final error with its list |
| `SignServer.MissingListShape` | server/index.js:165-182 | the final error's list never names `pdfId` and names exactly one thing: coordinates exactly when an image was given |
| `SignServer.LegacyZeroCoordinateRefused` | server/index.js:150-154 | a legacy coordinate of 0 is refused as invalid |
| `SignServer.ResolveOriginal` | server/index.js:189-205 | request bytes win; otherwise the stored original, 404 without a record or path, a read failure when the file is missing |
| `SignServer.Upserted` | server/index.js:225-235 | the record gains the signed path and both hashes; an existing record keeps its original path, a new one has none |
| `SignServer.SignOutcome` | server/index.js:104-260 | a validation error is answered as such; a success writes only the signed file, whose bytes are the injection of the resolved original, and only the id's record, whose original hash is the hash of that original and whose signed hash is the hash of the file written |
| `SignServer.UnencodableFieldFailsSigning` | server/index.js:212-260 | a field the font cannot encode fails the signing with a 500 once the document loads |
| `SignServer.SignPdf` | server/index.js:104-260 | the handler's steps give exactly the outcome above |
| `SignServer.VerifyPdf` | server/index.js:295-331 | kind "signed" by default; 404 without a record or a path for that kind; an answer whenever that file exists; intact exactly when the file's current hash equals the stored one |
| `SignServer.SignThenVerify` | server/index.js:212-331 | a document just signed and left untouched verifies as intact by default |
| `SignServer.TamperedSignedFileFails` | server/index.js:315-320 | replacing the signed file with bytes of another hash is reported as tampering |
| `SignServer.NewRecordHasNoOriginal` | server/index.js:196-235 | a record created by signing has no original path, so verifying its original and re-signing it without bytes both answer 404 |

## Left out

- Network, browser and file-system I/O are left out. This covers HTTP framing, CORS, static serving, `fetch`, Blob URLs, the download link, alerts, the logging and the thrown-and-caught wrappers that only log. The database and the file system are maps. A write or a database update that fails is not modelled.
- Base64 decoding, `atob` and SHA-256 are functions handed in. The library's load, save and image decoders are oracles as well, and so is the question whether the standard font can encode a string (the WinAnsi table is not modelled).
- Floating point is not modelled: coordinates are exact reals. NaN, infinities and IEEE rounding are left out, except that the aspect comparison and the scale cap reproduce what a zero divisor gives.
- `Date.now()` ids and file names are parameters (`id`, `signedPath`). Two fields with the same id are handled as the source handles them: an update or a delete acts on every field with that id.
- Calibration.SquaredDistance: states only that it is never negative and is zero at the point itself, not that zero means the same point. The panel's square root is left out, since a monotone function picks the same nearest point.
- Calibration.ClickToPdf: requires a non-zero scale; the source divides by the scale and would produce infinities.
- Calibration.MeasurementAt: requires a non-zero scale, for the same division.
- Calibration.CalibrationTool.MeasureClick: requires a non-zero scale when a click is measured, for the same division.
- HomePage.PaletteField: requires a non-zero scale; the source divides the default size by it.
- HomePage.Home.FieldSelect: requires a non-zero scale when a viewport is set, for the same division.
- HomePage.Home.ViewportChange: the `typeof scale !== "number"` guard cannot fail on a typed viewport and is not modelled.
- SignServer.VerifyPdf: a `verifyType` sent as JSON `null` reaches the comparison as `null` and selects the signed file. The model only distinguishes an absent kind from a given string.
- Field coordinates and sizes are taken to be JSON numbers. The server logs `width.toFixed(2)` and its siblings before drawing, and that throws (a 500) when a field sends a size as a string or leaves it out. Such a request is not representable here.
- `GET /pdf/:pdfId` and `/health` are read-only lookups that decide nothing about placement or integrity, and are not modelled.
- The signature pad's canvas sizing, the sample contract's drawing (other than its text baselines) and the viewer components (`SimplePDFViewer`, `CanvasPDFViewer`, `PDFViewer`, `ReferenceOverlay`, `FieldPalette`, `ErrorBoundary`) are rendering only and are not modelled.
- The client's upload helper in `src/lib/signPdfAPI.ts` is not part of this model.
