/**
 * The signing service (server/index.js): the validation of a `/sign-pdf`
 * request and the choice of the fields to inject, where the unsigned
 * document comes from, the record kept after signing, and the
 * `/verify-pdf` integrity decision. The database is a map from document id
 * to record, the file system a map from path to bytes, and base64 decoding
 * and SHA-256 are functions handed in.
 */
module SignServer {
  import opened Wrappers
  import opened JsValues
  import opened FormFields
  import opened PdfLib
  import ServerInjector

  /** The legacy `coordinates` object; a missing property is None. */
  datatype Coordinates = Coordinates(x: Option<real>, y: Option<real>, width: Option<real>, height: Option<real>)

  /** What the request body's `fields` holds. */
  datatype FieldsParam = Undefined | Null | NotAnArray | FieldList(list: seq<FormField>)

  /** The request body of `/sign-pdf`; each optional string is None when absent. */
  datatype SignRequest = SignRequest(
    pdfId: Option<string>,
    fields: FieldsParam,
    signatureImage: Option<string>,
    coordinates: Option<Coordinates>,
    pdfBytes: Option<string>)

  /** A stored document record; the two hashes are required by the schema, the paths are not. */
  datatype PdfRecord = PdfRecord(
    pdfId: string,
    originalPdfPath: Option<string>,
    signedPdfPath: Option<string>,
    originalHash: string,
    signedHash: string)

  /** Base64 decoding (`Buffer.from(s, 'base64')`) and SHA-256 as a hex string. */
  datatype ServerIo = ServerIo(base64: string -> Bytes, sha256: Bytes -> string)

  /** Why a request fails, with the HTTP status the service answers with. */
  datatype SignError =
    | MissingPdfId                      // 400
    | EmptyFields                       // 400
    | FieldsNotAnArray                  // 400
    | InvalidCoordinates                // 400
    | MissingRequired(missing: seq<string>) // 400
    | PdfNotFound                       // 404
    | ReadFailed                        // 500: the stored file could not be read
    | SignFailed(cause: InjectError)    // 500

  /** `fields` is `undefined` or `null`. */
  predicate FieldsMissing(f: FieldsParam) {
    f.Undefined? || f.Null?
  }

  /** The single signature field the legacy arguments describe. */
  function LegacyField(signatureImage: string, c: Coordinates): FormField
    requires c.x.Some? && c.y.Some? && c.width.Some? && c.height.Some?
  {
    FormField("signature-1", "signature", c.x.value, c.y.value, c.width.value, c.height.value,
              None, None, None, None, Some(signatureImage))
  }

  /** Every coordinate present and non-zero, as `!coordinates.x || ...` demands. */
  predicate CoordinatesComplete(c: Coordinates) {
    NumberTruthy(c.x) && NumberTruthy(c.y) && NumberTruthy(c.width) && NumberTruthy(c.height)
  }

  /** The entries of the final error's list, checked in the source's order. */
  function MissingList(r: SignRequest): seq<string> {
    var fieldsFalsy := FieldsMissing(r.fields);
    (if !Truthy(r.pdfId) then ["pdfId"] else [])
    + (if fieldsFalsy && !Truthy(r.signatureImage) then ["fields (or signatureImage)"] else [])
    + (if fieldsFalsy && Truthy(r.signatureImage) && r.coordinates.None? then ["coordinates"] else [])
  }

  /**
   * The validation block of `/sign-pdf`: the fields to inject, or the error
   * answered. A missing id is refused first; a `fields` value that is given
   * wins over the legacy arguments and must be a non-empty array; the legacy
   * path needs an image, coordinates, and four non-zero numbers.
   */
  function FieldsToInject(r: SignRequest): (res: Result<seq<FormField>, SignError>)
    ensures !Truthy(r.pdfId) ==> res == Err(MissingPdfId)
    ensures Truthy(r.pdfId) && r.fields.FieldList? && |r.fields.list| > 0 ==> res == Ok(r.fields.list)
    ensures Truthy(r.pdfId) && r.fields.FieldList? && |r.fields.list| == 0 ==> res == Err(EmptyFields)
    ensures Truthy(r.pdfId) && r.fields.NotAnArray? ==> res == Err(FieldsNotAnArray)
    ensures res.Ok? && FieldsMissing(r.fields) ==>
      && Truthy(r.signatureImage) && r.coordinates.Some? && CoordinatesComplete(r.coordinates.value)
      && res.value == [LegacyField(r.signatureImage.value, r.coordinates.value)]
    ensures Truthy(r.pdfId) && FieldsMissing(r.fields) && Truthy(r.signatureImage) && r.coordinates.Some? ==>
      res == if CoordinatesComplete(r.coordinates.value) then Ok([LegacyField(r.signatureImage.value, r.coordinates.value)])
             else Err(InvalidCoordinates)
    ensures Truthy(r.pdfId) && FieldsMissing(r.fields) && !(Truthy(r.signatureImage) && r.coordinates.Some?) ==>
      res == Err(MissingRequired(MissingList(r)))
    ensures res.Ok? ==> |res.value| > 0
    ensures res.Err? && res.error.MissingRequired? ==>
      FieldsMissing(r.fields) && !(Truthy(r.signatureImage) && r.coordinates.Some?)
  {
    if !Truthy(r.pdfId) then Err(MissingPdfId)
    else if !FieldsMissing(r.fields) then
      match r.fields
      case FieldList(list) => if |list| > 0 then Ok(list) else Err(EmptyFields)
      case _ => Err(FieldsNotAnArray)
    else if Truthy(r.signatureImage) && r.coordinates.Some? then
      var c := r.coordinates.value;
      if !CoordinatesComplete(c) then Err(InvalidCoordinates)
      else Ok([LegacyField(r.signatureImage.value, c)])
    else Err(MissingRequired(MissingList(r)))
  }

  /**
   * The final error's list never names `pdfId`, which was checked first, and
   * always holds exactly one entry: what the legacy path lacked.
   */
  lemma MissingListShape(r: SignRequest)
    requires FieldsToInject(r).Err? && FieldsToInject(r).error.MissingRequired?
    ensures var missing := FieldsToInject(r).error.missing;
      && "pdfId" !in missing
      && |missing| == 1
      && (missing[0] == "coordinates" <==> Truthy(r.signatureImage))
  {
    var missing := MissingList(r);
    assert Truthy(r.pdfId);
    if Truthy(r.signatureImage) {
      assert missing == ["coordinates"];
    } else {
      assert missing == ["fields (or signatureImage)"];
    }
  }

  /** A legacy coordinate of 0 is refused, though 0 is a position on the page. */
  lemma LegacyZeroCoordinateRefused(id: string, image: string, c: Coordinates)
    requires id != "" && image != "" && c.x == Some(0.0)
    ensures FieldsToInject(SignRequest(Some(id), Undefined, Some(image), Some(c), None)) == Err(InvalidCoordinates)
  {
  }

  /**
   * Where the unsigned document comes from: the request's bytes when given,
   * otherwise the stored original, which needs a record with a path.
   */
  function ResolveOriginal(pdfBytes: Option<string>, stored: Option<PdfRecord>, files: map<string, Bytes>, io: ServerIo)
    : (res: Result<Bytes, SignError>)
    ensures Truthy(pdfBytes) ==> res == Ok(io.base64(pdfBytes.value))
    ensures !Truthy(pdfBytes) && (stored.None? || !Truthy(stored.value.originalPdfPath)) ==> res == Err(PdfNotFound)
    ensures !Truthy(pdfBytes) && stored.Some? && Truthy(stored.value.originalPdfPath) ==>
      var path := stored.value.originalPdfPath.value;
      res == if path in files then Ok(files[path]) else Err(ReadFailed)
  {
    if Truthy(pdfBytes) then Ok(io.base64(pdfBytes.value))
    else if stored.None? || !Truthy(stored.value.originalPdfPath) then Err(PdfNotFound)
    else
      var path := stored.value.originalPdfPath.value;
      if path in files then Ok(files[path]) else Err(ReadFailed)
  }

  function Lookup(db: map<string, PdfRecord>, pdfId: string): Option<PdfRecord> {
    if pdfId in db then Some(db[pdfId]) else None
  }

  /** What `injectFieldsToPDF` of server/injectFields.js answers. */
  function Injected(pdfBytes: Bytes, fields: seq<FormField>, lib: Library): Result<Bytes, InjectError> {
    match lib.load(pdfBytes)
    case None => Err(LoadFailed)
    case Some(doc) =>
      if |doc.pages| == 0 then Err(NoPage)
      else match ServerInjector.Injected(doc, fields, lib)
           case Err(e) => Err(e)
           case Ok(signed) => Ok(lib.save(signed))
  }

  /**
   * The `findOneAndUpdate` upsert: a record the id already has keeps its
   * original path and gains the signed path and both hashes; a new record
   * has no original path.
   */
  function Upserted(db: map<string, PdfRecord>, pdfId: string, signedPath: string, originalHash: string, signedHash: string)
    : (r: PdfRecord)
    ensures r.pdfId == pdfId && r.signedPdfPath == Some(signedPath)
    ensures r.originalHash == originalHash && r.signedHash == signedHash
    ensures pdfId in db ==> r.originalPdfPath == db[pdfId].originalPdfPath
    ensures pdfId !in db ==> r.originalPdfPath.None?
  {
    var created := PdfRecord(pdfId, None, Some(signedPath), originalHash, signedHash);
    if pdfId in db then created.(originalPdfPath := db[pdfId].originalPdfPath) else created
  }

  /** A successful signing: the new database and file system and the hashes answered. */
  datatype Signed = Signed(db: map<string, PdfRecord>, files: map<string, Bytes>, originalHash: string, signedHash: string)

  /**
   * `/sign-pdf` from validation to the stored record, writing the signed
   * document to `signedPath` (the source names it after the id and the
   * clock).
   */
  function SignOutcome(r: SignRequest, db: map<string, PdfRecord>, files: map<string, Bytes>, signedPath: string,
                       io: ServerIo, lib: Library): (res: Result<Signed, SignError>)
    ensures FieldsToInject(r).Err? ==> res == Err(FieldsToInject(r).error)
    ensures res.Ok? ==>
      && r.pdfId.Some? && signedPath in res.value.files
      && res.value.files == files[signedPath := res.value.files[signedPath]]
      && res.value.db == db[r.pdfId.value := Upserted(db, r.pdfId.value, signedPath, res.value.originalHash, res.value.signedHash)]
      && res.value.signedHash == io.sha256(res.value.files[signedPath])
    ensures res.Ok? ==>
      && FieldsToInject(r).Ok?
      && ResolveOriginal(r.pdfBytes, Lookup(db, r.pdfId.value), files, io).Ok?
      && var original := ResolveOriginal(r.pdfBytes, Lookup(db, r.pdfId.value), files, io).value;
         && Injected(original, FieldsToInject(r).value, lib) == Ok(res.value.files[signedPath])
         && res.value.originalHash == io.sha256(original)
  {
    match FieldsToInject(r)
    case Err(e) => Err(e)
    case Ok(toInject) =>
      var pdfId := r.pdfId.value;
      match ResolveOriginal(r.pdfBytes, Lookup(db, pdfId), files, io)
      case Err(e) => Err(e)
      case Ok(original) =>
        match Injected(original, toInject, lib)
        case Err(e) => Err(SignFailed(e))
        case Ok(signed) =>
          var originalHash := io.sha256(original);
          var signedHash := io.sha256(signed);
          Ok(Signed(db[pdfId := Upserted(db, pdfId, signedPath, originalHash, signedHash)],
                    files[signedPath := signed], originalHash, signedHash))
  }

  /** The `/sign-pdf` handler: validation, then the injection of server/injectFields.js, then the record. */
  method SignPdf(r: SignRequest, db: map<string, PdfRecord>, files: map<string, Bytes>, signedPath: string,
                 io: ServerIo, lib: Library) returns (res: Result<Signed, SignError>)
    ensures res == SignOutcome(r, db, files, signedPath, io, lib)
  {
    var toInject := FieldsToInject(r);
    if toInject.Err? {
      return Err(toInject.error);
    }
    var pdfId := r.pdfId.value;
    var original := ResolveOriginal(r.pdfBytes, Lookup(db, pdfId), files, io);
    if original.Err? {
      return Err(original.error);
    }
    var originalHash := io.sha256(original.value);
    var signed := ServerInjector.InjectFieldsToPdf(original.value, toInject.value, lib);
    if signed.Err? {
      return Err(SignFailed(signed.error));
    }
    var signedHash := io.sha256(signed.value);
    var newFiles := files[signedPath := signed.value];
    var newDb := db[pdfId := Upserted(db, pdfId, signedPath, originalHash, signedHash)];
    res := Ok(Signed(newDb, newFiles, originalHash, signedHash));
  }

  /** Why a verification gives no answer. */
  datatype VerifyError =
    | RecordNotFound           // 404
    | FileNotFound(kind: string) // 404
    | FileUnreadable           // 500

  datatype VerifyResponse = VerifyResponse(verifyType: string, integrityValid: bool, storedHash: string, currentHash: string)

  /**
   * `/verify-pdf`: the kind defaults to "signed"; "original" checks the
   * original file against the original hash and anything else the signed
   * file against the signed hash. The document is intact exactly when the
   * file's current hash equals the stored one.
   */
  function VerifyPdf(pdfId: string, verifyType: Option<string>, db: map<string, PdfRecord>, files: map<string, Bytes>,
                     sha256: Bytes -> string): (res: Result<VerifyResponse, VerifyError>)
    ensures pdfId !in db ==> res == Err(RecordNotFound)
    ensures res.Ok? ==>
      var kind := verifyType.GetOr("signed");
      var rec := db[pdfId];
      var path := if kind == "original" then rec.originalPdfPath else rec.signedPdfPath;
      && pdfId in db && Truthy(path) && path.value in files
      && res.value.verifyType == kind
      && res.value.storedHash == (if kind == "original" then rec.originalHash else rec.signedHash)
      && res.value.currentHash == sha256(files[path.value])
      && (res.value.integrityValid <==> res.value.currentHash == res.value.storedHash)
    ensures pdfId in db && res.Err? ==>
      var kind := verifyType.GetOr("signed");
      var path := if kind == "original" then db[pdfId].originalPdfPath else db[pdfId].signedPdfPath;
      res.error == if !Truthy(path) then FileNotFound(kind) else FileUnreadable
    ensures pdfId in db ==>
      var kind := verifyType.GetOr("signed");
      var path := if kind == "original" then db[pdfId].originalPdfPath else db[pdfId].signedPdfPath;
      Truthy(path) && path.value in files ==> res.Ok?
  {
    if pdfId !in db then Err(RecordNotFound)
    else
      var rec := db[pdfId];
      var kind := verifyType.GetOr("signed");
      var filePath := if kind == "original" then rec.originalPdfPath else rec.signedPdfPath;
      var storedHash := if kind == "original" then rec.originalHash else rec.signedHash;
      if !Truthy(filePath) then Err(FileNotFound(kind))
      else if filePath.value !in files then Err(FileUnreadable)
      else
        var currentHash := sha256(files[filePath.value]);
        Ok(VerifyResponse(kind, currentHash == storedHash, storedHash, currentHash))
  }

  /**
   * A field whose text, date or label the standard font cannot encode makes
   * the signing fail with a 500 once the document loads, so nothing is
   * written and no record changes.
   */
  lemma UnencodableFieldFailsSigning(r: SignRequest, db: map<string, PdfRecord>, files: map<string, Bytes>,
                                     signedPath: string, io: ServerIo, lib: Library, k: nat)
    requires FieldsToInject(r).Ok? && k < |FieldsToInject(r).value|
    requires ServerInjector.DrawsUnencodable(FieldsToInject(r).value[k], lib)
    requires Truthy(r.pdfId) && ResolveOriginal(r.pdfBytes, Lookup(db, r.pdfId.value), files, io).Ok?
    requires var original := ResolveOriginal(r.pdfBytes, Lookup(db, r.pdfId.value), files, io).value;
      lib.load(original).Some? && |lib.load(original).value.pages| > 0
    ensures SignOutcome(r, db, files, signedPath, io, lib) == Err(SignFailed(TextNotEncodable))
  {
    var original := ResolveOriginal(r.pdfBytes, Lookup(db, r.pdfId.value), files, io).value;
    var doc := lib.load(original).value;
    ServerInjector.TraceFailsExactlyOnText(FieldsToInject(r).value, doc.pages[0].width, doc.pages[0].height, lib);
  }

  /** A document just signed, left untouched, verifies as intact by default. */
  lemma SignThenVerify(r: SignRequest, db: map<string, PdfRecord>, files: map<string, Bytes>, signedPath: string,
                       io: ServerIo, lib: Library)
    requires signedPath != ""
    requires SignOutcome(r, db, files, signedPath, io, lib).Ok?
    ensures var s := SignOutcome(r, db, files, signedPath, io, lib).value;
      VerifyPdf(r.pdfId.value, None, s.db, s.files, io.sha256) == Ok(VerifyResponse("signed", true, s.signedHash, s.signedHash))
  {
    var s := SignOutcome(r, db, files, signedPath, io, lib).value;
    var rec := s.db[r.pdfId.value];
    assert rec.signedPdfPath == Some(signedPath);
    assert signedPath in s.files;
  }

  /** Replacing the signed file with bytes of another hash makes verification report tampering. */
  lemma TamperedSignedFileFails(pdfId: string, db: map<string, PdfRecord>, files: map<string, Bytes>, forged: Bytes,
                                sha256: Bytes -> string)
    requires pdfId in db && Truthy(db[pdfId].signedPdfPath)
    requires sha256(forged) != db[pdfId].signedHash
    ensures var tampered := files[db[pdfId].signedPdfPath.value := forged];
      VerifyPdf(pdfId, Some("signed"), db, tampered, sha256).Ok?
      && !VerifyPdf(pdfId, Some("signed"), db, tampered, sha256).value.integrityValid
  {
  }

  /**
   * A record first created by signing has no original path, so verifying
   * its original answers 404, and so does signing it again without bytes.
   */
  lemma NewRecordHasNoOriginal(r: SignRequest, db: map<string, PdfRecord>, files: map<string, Bytes>, signedPath: string,
                               io: ServerIo, lib: Library, again: SignRequest, path2: string)
    requires SignOutcome(r, db, files, signedPath, io, lib).Ok? && r.pdfId.value !in db
    requires again.pdfId == r.pdfId && FieldsToInject(again).Ok? && !Truthy(again.pdfBytes)
    ensures var s := SignOutcome(r, db, files, signedPath, io, lib).value;
      && VerifyPdf(r.pdfId.value, Some("original"), s.db, s.files, io.sha256) == Err(FileNotFound("original"))
      && SignOutcome(again, s.db, s.files, path2, io, lib) == Err(PdfNotFound)
  {
  }
}
