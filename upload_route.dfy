/** The upload endpoint (src/app/api/upload/route.ts): the file and invoice-type guards, their
    order, the call into `extractInvoiceData` of src/lib/koncile.ts, and the classification of its
    error text into an HTTP status. */
module UploadRoute {
  import opened Wrappers
  import opened JsObject
  import opened Text
  import opened Transport
  import opened Fields
  import opened Envelope
  import Koncile

  /** The `file` part of the form: its name, its MIME type and its bytes (`file.size` is their
      number). */
  datatype UploadedFile = UploadedFile(name: string, mimeType: string, content: seq<bv8>)

  /** `FILE_CONFIG`. */
  const MaxSize: nat := 10 * 1024 * 1024
  const AllowedTypes: seq<string> := [
    "application/pdf",
    "image/jpeg",
    "image/jpg",
    "image/png",
    "application/vnd.openxmlformats-officedocument.spreadsheetml.sheet",
    "application/vnd.ms-excel"]
  const AllowedExtensions: seq<string> := [".pdf", ".jpg", ".jpeg", ".png", ".xlsx", ".xls"]

  const InvoiceTypes: seq<string> := ["electricity", "gas", "water"]

  datatype Validation = Valid | Invalid(error: string)

  const NoFile: string := "No file provided or file is empty"
  const TooLarge: string := "File size too large. Maximum allowed: 10MB"
  const TypeRequired: string := "Invoice type is required"

  function UnsupportedMime(mimeType: string): string {
    "Unsupported file type: " + mimeType + ". Allowed types: PDF, JPG, PNG, XLSX, XLS"
  }

  function UnsupportedExtension(ext: string): string {
    "Unsupported file extension: " + ext + ". Allowed: " + Join(AllowedExtensions, ", ")
  }

  function InvalidType(invoiceType: string): string {
    "Invalid invoice type: " + invoiceType + ". Allowed types: " + Join(InvoiceTypes, ", ")
  }

  /** `s.lastIndexOf(c)`. */
  function LastIndexOf(s: string, c: char): (i: int)
    ensures -1 <= i < |s|
    ensures i >= 0 ==> s[i] == c && forall j :: i < j < |s| ==> s[j] != c
    ensures i < 0 ==> forall j :: 0 <= j < |s| ==> s[j] != c
  {
    if |s| == 0 then -1
    else if s[|s| - 1] == c then |s| - 1
    else LastIndexOf(s[..|s| - 1], c)
  }

  /** `name.toLowerCase().substring(name.lastIndexOf('.'))`; `substring` treats -1 as 0, so a
      name without a dot yields the whole lowered name. */
  function FileExtension(name: string): (ext: string)
    ensures var i := LastIndexOf(name, '.');
      ext == if i < 0 then ToLower(name) else ToLower(name)[i..]
  {
    var i := LastIndexOf(name, '.');
    ToLower(name)[if i < 0 then 0 else i..]
  }

  predicate Acceptable(f: UploadedFile) {
    && 0 < |f.content| <= MaxSize
    && f.mimeType in AllowedTypes
    && FileExtension(f.name) in AllowedExtensions
  }

  /** `validateFile`: existence and emptiness, then size (10 MiB itself is allowed), then MIME
      type, then extension. */
  function ValidateFile(file: Option<UploadedFile>): (r: Validation)
    ensures r.Valid? <==> file.Some? && Acceptable(file.value)
    ensures file.None? || |file.value.content| == 0 ==> r == Invalid(NoFile)
    ensures file.Some? && |file.value.content| > MaxSize ==> r == Invalid(TooLarge)
    ensures file.Some? && 0 < |file.value.content| <= MaxSize && file.value.mimeType !in AllowedTypes ==>
      r == Invalid(UnsupportedMime(file.value.mimeType))
    ensures (file.Some? && 0 < |file.value.content| <= MaxSize && file.value.mimeType in AllowedTypes &&
      FileExtension(file.value.name) !in AllowedExtensions) ==> r == Invalid(UnsupportedExtension(FileExtension(file.value.name)))
  {
    match file
    case None => Invalid(NoFile)
    case Some(f) =>
      if |f.content| == 0 then Invalid(NoFile)
      else if |f.content| > MaxSize then Invalid(TooLarge)
      else if f.mimeType !in AllowedTypes then Invalid(UnsupportedMime(f.mimeType))
      else if FileExtension(f.name) !in AllowedExtensions then Invalid(UnsupportedExtension(FileExtension(f.name)))
      else Valid
  }

  /** An accepted file's name contains a dot and ends, ignoring case, with an allowed extension;
      so a name without a dot is always refused. */
  lemma AcceptedNameHasExtension(f: UploadedFile)
    requires ValidateFile(Some(f)).Valid?
    ensures '.' in f.name
    ensures exists ext :: ext in AllowedExtensions && EndsWith(ToLower(f.name), ext)
  {
    var i := LastIndexOf(f.name, '.');
    var ext := FileExtension(f.name);
    var lowered := ToLower(f.name);
    AllowedExtensionsStartWithDot(ext);
    if i < 0 {
      assert ext == lowered && lowered[0] == LowerChar(f.name[0]);
      LowerCharDot(f.name[0]);
      assert false;
    }
    assert f.name[i] == '.';
    assert ext == lowered[i..] && |ext| == |lowered| - i;
    assert EndsWith(lowered, ext);
  }

  /** Every allowed extension begins with its dot. */
  lemma AllowedExtensionsStartWithDot(ext: string)
    requires ext in AllowedExtensions
    ensures |ext| > 0 && ext[0] == '.'
  {
  }

  /** `validateInvoiceType`: a missing or empty type first, then membership of the three. */
  function ValidateInvoiceType(invoiceType: Option<string>): (r: Validation)
    ensures r.Valid? <==> invoiceType.Some? && invoiceType.value in InvoiceTypes
    ensures invoiceType.None? || invoiceType.value == "" ==> r == Invalid(TypeRequired)
    ensures invoiceType.Some? && invoiceType.value != "" && invoiceType.value !in InvoiceTypes ==>
      r == Invalid(InvalidType(invoiceType.value))
  {
    match invoiceType
    case None => Invalid(TypeRequired)
    case Some(t) =>
      if t == "" then Invalid(TypeRequired)
      else if t !in InvoiceTypes then Invalid(InvalidType(t))
      else Valid
  }

  /** The message the route sends for a type outside the list names all three. */
  lemma InvalidTypeText(invoiceType: string)
    ensures InvalidType(invoiceType) == "Invalid invoice type: " + invoiceType + ". Allowed types: electricity, gas, water"
  {
    assert Join(InvoiceTypes, ", ") == "electricity, gas, water";
  }

  datatype ErrorClass = ErrorClass(status: nat, code: string)

  predicate MentionsRateLimit(m: string) {
    Contains(m, "rate limit") || Contains(m, "quota") || Contains(m, "too many requests") || Contains(m, "429")
  }

  predicate MentionsUnauthorized(m: string) {
    Contains(m, "unauthorized") || Contains(m, "401") || Contains(m, "invalid api key")
  }

  predicate MentionsNotFound(m: string) {
    Contains(m, "not found") || Contains(m, "404") || Contains(m, "template")
  }

  /** The `if`/`else if` chain over the extraction error, each pattern matched ignoring case. */
  function ClassifyError(message: string): (c: ErrorClass)
    ensures var m := ToLower(message);
      && (MentionsRateLimit(m) ==> c == ErrorClass(429, "RATE_LIMIT_EXCEEDED"))
      && (!MentionsRateLimit(m) && MentionsUnauthorized(m) ==> c == ErrorClass(401, "UNAUTHORIZED"))
      && (!MentionsRateLimit(m) && !MentionsUnauthorized(m) && MentionsNotFound(m) ==> c == ErrorClass(404, "TEMPLATE_NOT_FOUND"))
      && (!MentionsRateLimit(m) && !MentionsUnauthorized(m) && !MentionsNotFound(m) ==> c == ErrorClass(500, "EXTRACTION_FAILED"))
  {
    var m := ToLower(message);
    if MentionsRateLimit(m) then ErrorClass(429, "RATE_LIMIT_EXCEEDED")
    else if MentionsUnauthorized(m) then ErrorClass(401, "UNAUTHORIZED")
    else if MentionsNotFound(m) then ErrorClass(404, "TEMPLATE_NOT_FOUND")
    else ErrorClass(500, "EXTRACTION_FAILED")
  }

  /** Classification does not depend on case. */
  lemma ClassifyIgnoresCase(message: string)
    ensures ClassifyError(ToLower(message)) == ClassifyError(message)
  {
    ToLowerIdempotent(message);
  }

  /** Any message containing 429 is reported as a rate limit, whatever else it mentions (a 404
      or "template" included): earlier rules win. */
  lemma RateLimitBeforeNotFound(prefix: string, suffix: string)
    ensures ClassifyError(prefix + "429" + suffix).status == 429
  {
    var m := prefix + "429" + suffix;
    var lowered := ToLower(m);
    assert lowered == ToLower(prefix) + "429" + ToLower(suffix);
    ContainsPiece(ToLower(prefix), "429", ToLower(suffix));
  }

  /** The answer of `POST`, without timestamps, processing time and the success message. */
  datatype UploadResponse =
    | Extracted(data: Obj<ExtractedField>, fileName: string, metadata: Option<Metadata>)
    | Refused(status: nat, code: string, error: string)

  /** `POST` with a well-formed form: the file is checked before the type, and only when both pass
      is `extractInvoiceData` called. */
  function UploadSpec(s: Script, c: Koncile.Client, file: Option<UploadedFile>, invoiceType: Option<string>, w: World)
    : (UploadResponse, World)
  {
    match ValidateFile(file)
    case Invalid(e) => (Refused(400, "INVALID_FILE", e), w)
    case Valid =>
      match ValidateInvoiceType(invoiceType)
      case Invalid(e) => (Refused(400, "INVALID_INVOICE_TYPE", e), w)
      case Valid =>
        var (result, w') := Koncile.ExtractInvoiceDataSpec(s, c, file.value.content, file.value.name, invoiceType.value, w);
        if result.success then (Extracted(result.data.GetOr([]), file.value.name, result.metadata), w')
        else
          var error := result.error.GetOr("");
          var cls := ClassifyError(error);
          (Refused(cls.status, cls.code, error), w')
  }

  /** A refused file is reported as such whatever the type, a bad type only once the file passed,
      and in both cases the service is never called. */
  lemma ValidationOrder(s: Script, c: Koncile.Client, file: Option<UploadedFile>, invoiceType: Option<string>, w: World)
    ensures var (resp, w') := UploadSpec(s, c, file, invoiceType, w);
      && (ValidateFile(file).Invalid? ==> resp == Refused(400, "INVALID_FILE", ValidateFile(file).error) && w' == w)
      && (ValidateFile(file).Valid? && ValidateInvoiceType(invoiceType).Invalid? ==>
            resp == Refused(400, "INVALID_INVOICE_TYPE", ValidateInvoiceType(invoiceType).error) && w' == w)
      && (resp.Refused? && resp.status == 400 ==> w' == w)
  {
    if ValidateFile(file).Valid? && ValidateInvoiceType(invoiceType).Valid? {
      var (result, _) := Koncile.ExtractInvoiceDataSpec(s, c, file.value.content, file.value.name, invoiceType.value, w);
      Koncile.ExtractInvoiceDataOutcome(s, c, file.value.content, file.value.name, invoiceType.value, w);
    }
  }

  /** An extraction failure reaches the client with the service's text unchanged and a status
      chosen from that text. */
  lemma ExtractionErrorPassedThrough(s: Script, c: Koncile.Client, file: Option<UploadedFile>, invoiceType: Option<string>, w: World)
    requires ValidateFile(file).Valid? && ValidateInvoiceType(invoiceType).Valid?
    ensures var result := Koncile.ExtractInvoiceDataSpec(s, c, file.value.content, file.value.name, invoiceType.value, w).0;
      var resp := UploadSpec(s, c, file, invoiceType, w).0;
      && (!result.success ==>
            resp.Refused? && Some(resp.error) == result.error && ErrorClass(resp.status, resp.code) == ClassifyError(resp.error))
      && (result.success ==> resp.Extracted? && Some(resp.data) == result.data && resp.fileName == file.value.name)
  {
    Koncile.ExtractInvoiceDataOutcome(s, c, file.value.content, file.value.name, invoiceType.value, w);
  }

  /** `POST`, running the facade of src/lib/koncile.ts. */
  method UploadPost(s: Script, c: Koncile.Client, file: Option<UploadedFile>, invoiceType: Option<string>, w0: World)
    returns (resp: UploadResponse, w: World)
    ensures (resp, w) == UploadSpec(s, c, file, invoiceType, w0)
  {
    var fileValidation := ValidateFile(file);
    if fileValidation.Invalid? {
      return Refused(400, "INVALID_FILE", fileValidation.error), w0;
    }
    var typeValidation := ValidateInvoiceType(invoiceType);
    if typeValidation.Invalid? {
      return Refused(400, "INVALID_INVOICE_TYPE", typeValidation.error), w0;
    }
    var result;
    result, w := Koncile.ExtractInvoiceData(s, c, file.value.content, file.value.name, invoiceType.value, w0);
    if !result.success {
      var error := result.error.GetOr("");
      var cls := ClassifyError(error);
      return Refused(cls.status, cls.code, error), w;
    }
    resp := Extracted(result.data.GetOr([]), file.value.name, result.metadata);
  }
}
