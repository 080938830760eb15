/** src/lib/koncile-new.ts: the variant that extracts with one direct call to
    `/api/templates/{id}/extract/`, without polling, without fallback and without a check that
    the result has fields. It shares the template table, the retry loop, the normaliser and the
    envelope. */
module KoncileNew {
  import opened Wrappers
  import opened JsObject
  import opened Text
  import opened Fields
  import opened Transport
  import opened Template
  import opened Backoff
  import opened Envelope
  import Seqs
  import Numbers

  datatype Client = Client(apiUrl: string)

  function ExtractUrl(c: Client, templateId: string): string {
    c.apiUrl + "/api/templates/" + templateId + "/extract/"
  }

  const ExtractTimeoutMessage: string := "Extraction timeout - please try with a smaller file"

  /** The catch block of `extractWithTemplate` for axios errors: only `ECONNABORTED` is a
      timeout here. */
  function ExtractError(e: AxiosError): (err: Error)
    ensures e.code == "ECONNABORTED" ==> err.message == ExtractTimeoutMessage
    ensures e.code != "ECONNABORTED" ==> err.message == "Extraction failed: " + StatusText(e) + " - " + DetailText(e)
  {
    if e.code == "ECONNABORTED" then Error(ExtractTimeoutMessage)
    else Error("Extraction failed: " + StatusText(e) + " - " + DetailText(e))
  }

  /** The status part of a non-timeout extraction error is the HTTP status, or "Network Error"
      when there was no response; the detail prefers the response body. */
  lemma ExtractErrorText(e: AxiosError)
    requires e.code != "ECONNABORTED"
    ensures StartsWith(ExtractError(e).message, "Extraction failed: ")
    ensures e.status == 0 ==> StartsWith(ExtractError(e).message, "Extraction failed: Network Error - ")
    ensures e.data != "" ==> EndsWith(ExtractError(e).message, " - " + e.data)
    ensures e.data == "" ==> EndsWith(ExtractError(e).message, " - " + e.message)
  {
    MessageParts("Extraction failed: ", StatusText(e), " - ", DetailText(e));
    assert "Extraction failed: " + "Network Error" + " - " == "Extraction failed: Network Error - ";
  }

  /** An `ETIMEDOUT` error, which the upload client of src/lib/koncile.ts reports as a timeout,
      is an ordinary failure here. */
  lemma TimedOutIsNotTimeout(e: AxiosError)
    requires e.code == "ETIMEDOUT"
    ensures ExtractError(e).message != ExtractTimeoutMessage
  {
    ExtractErrorText(e);
    var m := ExtractError(e).message;
    assert m[..19] == "Extraction failed: ";
    assert m[11] == 'f' != ExtractTimeoutMessage[11];
  }

  /** `extractWithTemplate`: one POST of the file, under its own (unsanitised) name. */
  function DirectExtract(s: Script, c: Client, fileName: string, templateId: string, w: World): (Result<Obj<RawValue>>, World)
  {
    var (reply, w1) := CallExtract(s, w, ExtractUrl(c, templateId), fileName);
    match reply
    case ExtractData(data) => (Ok(data), w1)
    case ExtractAxiosError(e) => (Err(ExtractError(e)), w1)
    case ExtractThrown(m) => (Err(Error(m)), w1)
  }

  function DirectOp(s: Script, c: Client, fileName: string, templateId: string): World -> (Result<Obj<RawValue>>, World)
  {
    w => DirectExtract(s, c, fileName, templateId, w)
  }

  /** `extractInvoiceData` of this variant. */
  function ExtractInvoiceDataSpec(s: Script, c: Client, fileBuffer: seq<bv8>, fileName: string, invoiceType: string, w: World)
    : (KoncileResponse, World)
  {
    match ValidateInputs(fileBuffer, fileName, invoiceType)
    case Err(e) => (Fail(e.message), w)
    case Ok(templateId) =>
      var run := Retry(DirectOp(s, c, fileName, templateId), w, MaxRetries, RetryDelay);
      match run.result
      case Err(e) => (Fail(e.message), run.world)
      case Ok(extracted) => (Succeed(NormalizeAll(extracted, None)), run.world)
  }

  /** Invalid inputs fail before any extraction call. */
  lemma InvalidInputsCallNothing(s: Script, c: Client, fileBuffer: seq<bv8>, fileName: string, invoiceType: string, w: World)
    requires |fileBuffer| == 0 || IsBlank(fileName) || invoiceType !in KeySet(TemplateMap)
    ensures var (resp, w') := ExtractInvoiceDataSpec(s, c, fileBuffer, fileName, invoiceType, w);
      && w' == w
      && resp == Fail(ValidateInputs(fileBuffer, fileName, invoiceType).error.message)
  {
  }

  /** The facade makes between one and three direct extraction calls, all to the template's
      URL with the file's own name, interleaved with the 1000 and 2000 ms backoff waits, and
      nothing else. */
  lemma ExtractInvoiceDataCalls(s: Script, c: Client, fileBuffer: seq<bv8>, fileName: string, invoiceType: string, w: World)
    requires ValidateInputs(fileBuffer, fileName, invoiceType).Ok?
    ensures var w' := ExtractInvoiceDataSpec(s, c, fileBuffer, fileName, invoiceType, w).1;
      var n := w'.extracts - w.extracts;
      && 1 <= n <= 3
      && w'.uploads == w.uploads && w'.fetches == w.fetches
      && w'.requests == w.requests + Seqs.Repeat(ExtractRequest(ExtractUrl(c, GetTemplateId(invoiceType).value), fileName), n)
      && w'.sleeps == w.sleeps + [1000, 2000][..n - 1]
  {
    var templateId := ValidateInputs(fileBuffer, fileName, invoiceType).value;
    var op := DirectOp(s, c, fileName, templateId);
    RetryShape(op, w, MaxRetries, RetryDelay);
    DefaultSchedule(op, w);
    DirectRetryTrace(s, c, fileName, templateId, w, 1);
  }

  /** The retry loop over the direct call, from iteration `attempt` on: one call per iteration,
      each logged, and the backoff waits between them. */
  lemma {:induction false} DirectRetryTrace(s: Script, c: Client, fileName: string, templateId: string, w: World, attempt: nat)
    requires 1 <= attempt <= MaxRetries
    ensures var run := RetryFrom(DirectOp(s, c, fileName, templateId), w, attempt, MaxRetries, RetryDelay);
      && run.world.extracts == w.extracts + run.calls
      && run.world.uploads == w.uploads && run.world.fetches == w.fetches
      && run.world.requests == w.requests + Seqs.Repeat(ExtractRequest(ExtractUrl(c, templateId), fileName), run.calls)
      && run.world.sleeps == w.sleeps + run.delays
    decreases MaxRetries - attempt
  {
    var op := DirectOp(s, c, fileName, templateId);
    var (r, w1) := op(w);
    var req := ExtractRequest(ExtractUrl(c, templateId), fileName);
    if !(r.Ok? || attempt == MaxRetries) {
      var d := BackoffDelay(RetryDelay, attempt);
      DirectRetryTrace(s, c, fileName, templateId, Sleep(w1, d), attempt + 1);
      var rest := RetryFrom(op, Sleep(w1, d), attempt + 1, MaxRetries, RetryDelay);
      Seqs.RepeatCons(req, rest.calls);
      assert w.requests + Seqs.Repeat(req, rest.calls + 1) == w1.requests + Seqs.Repeat(req, rest.calls);
      assert w.sleeps + ([d] + rest.delays) == Sleep(w1, d).sleeps + rest.delays;
    } else {
      assert Seqs.Repeat(req, 1) == [req];
    }
  }

  const NoFields: Obj<ExtractedField> := []

  /** There is no check that the result has fields: a first reply with no fields is a success
      with zero fields and confidence 0.9, after one call. */
  lemma EmptyResultSucceeds(s: Script, c: Client, fileBuffer: seq<bv8>, fileName: string, invoiceType: string, w: World)
    requires ValidateInputs(fileBuffer, fileName, invoiceType).Ok?
    requires s.extract(w.extracts) == ExtractData([])
    ensures var (resp, w') := ExtractInvoiceDataSpec(s, c, fileBuffer, fileName, invoiceType, w);
      && resp.success && resp.data == Some(NoFields)
      && resp.metadata == Some(Metadata(0.9, 0))
      && w'.extracts == w.extracts + 1
  {
    SucceedEmpty();
  }

  /** A success reports the normalised fields of the last reply, the reply to the last direct
      extraction call made, with their count and their mean confidence to two decimals. */
  lemma ExtractInvoiceDataOutcome(s: Script, c: Client, fileBuffer: seq<bv8>, fileName: string, invoiceType: string, w: World)
    ensures var (resp, w') := ExtractInvoiceDataSpec(s, c, fileBuffer, fileName, invoiceType, w);
      && (resp.success ==>
            && ValidateInputs(fileBuffer, fileName, invoiceType).Ok?
            && w'.extracts > w.extracts
            && s.extract(w'.extracts - 1).ExtractData?
            && resp.data == Some(NormalizeAll(s.extract(w'.extracts - 1).data, None))
            && resp.metadata == Some(Metadata(Numbers.Round2(AverageConfidence(resp.data.value)), |resp.data.value|)))
      && (!resp.success ==> resp.error.Some? && resp.data.None? && resp.metadata.None?)
  {
    var checked := ValidateInputs(fileBuffer, fileName, invoiceType);
    if checked.Ok? {
      DirectRetryResult(s, c, fileName, checked.value, w);
    }
  }

  /** A successful retried extraction returns the data of the reply to its last call. */
  lemma DirectRetryResult(s: Script, c: Client, fileName: string, templateId: string, w: World)
    ensures var run := Retry(DirectOp(s, c, fileName, templateId), w, MaxRetries, RetryDelay);
      run.result.Ok? ==>
        && run.world.extracts > w.extracts
        && s.extract(run.world.extracts - 1).ExtractData?
        && run.result.value == s.extract(run.world.extracts - 1).data
  {
    var op := DirectOp(s, c, fileName, templateId);
    RetryShape(op, w, MaxRetries, RetryDelay);
    DirectRetryTrace(s, c, fileName, templateId, w, 1);
    var run := Retry(op, w, MaxRetries, RetryDelay);
    if run.result.Ok? {
      assert s.extract(run.last.extracts).ExtractData?;
      assert run.world.extracts == run.last.extracts + 1;
    }
  }

  /** `extractInvoiceData` as a sequence of calls. */
  method ExtractInvoiceData(s: Script, c: Client, fileBuffer: seq<bv8>, fileName: string, invoiceType: string, w0: World)
    returns (resp: KoncileResponse, w: World)
    ensures (resp, w) == ExtractInvoiceDataSpec(s, c, fileBuffer, fileName, invoiceType, w0)
  {
    var checked := ValidateInputs(fileBuffer, fileName, invoiceType);
    if checked.Err? {
      return Fail(checked.error.message), w0;
    }
    var run := WithRetry(DirectOp(s, c, fileName, checked.value), w0, MaxRetries, RetryDelay);
    w := run.world;
    if run.result.Err? {
      return Fail(run.result.error.message), w;
    }
    var transformed, _ := TransformKoncileResponse(run.result.value, None);
    resp := Succeed(transformed);
  }
}
