/** The parts of `extractInvoiceData` that both versions (src/lib/koncile.ts and
    src/lib/koncile-new.ts) share: the input guards that run before any call to the service, and
    the `KoncileResponse` envelope built on success and on failure. */
module Envelope {
  import opened Wrappers
  import opened JsObject
  import opened Text
  import opened Numbers
  import opened Fields
  import opened Template

  datatype Metadata = Metadata(confidence: real, fieldsExtracted: nat)

  /** `KoncileResponse` without `processingTime`, which is a clock reading. */
  datatype KoncileResponse = KoncileResponse(
    success: bool,
    data: Option<Obj<ExtractedField>>,
    error: Option<string>,
    metadata: Option<Metadata>)

  const InvalidBuffer: string := "Invalid file buffer provided"
  const InvalidFileName: string := "Invalid file name provided"

  /** The guards at the top of the `try`: an empty buffer, then a missing or blank file name,
      then `getTemplateId`. The result is the template id to extract with. */
  function ValidateInputs(fileBuffer: seq<bv8>, fileName: string, invoiceType: string): (r: Result<string>)
    ensures r.Ok? <==> |fileBuffer| > 0 && !IsBlank(fileName) && invoiceType in KeySet(TemplateMap)
    ensures r.Ok? ==> GetTemplateId(invoiceType) == Ok(r.value)
    ensures |fileBuffer| == 0 ==> r == Err(Error(InvalidBuffer))
    ensures |fileBuffer| > 0 && IsBlank(fileName) ==> r == Err(Error(InvalidFileName))
    ensures |fileBuffer| > 0 && !IsBlank(fileName) && r.Err? ==> r == GetTemplateId(invoiceType)
  {
    TrimEmptyIffBlank(fileName);
    if |fileBuffer| == 0 then Err(Error(InvalidBuffer))
    else if fileName == "" || |Trim(fileName)| == 0 then Err(Error(InvalidFileName))
    else GetTemplateId(invoiceType)
  }

  /** `Object.values(data).map(field => field.confidence)`. */
  function Confidences(data: Obj<ExtractedField>): (cs: seq<real>)
    ensures |cs| == |data| && forall i :: 0 <= i < |data| ==> cs[i] == data[i].1.confidence
  {
    seq(|data|, i requires 0 <= i < |data| => data[i].1.confidence)
  }

  /** The mean confidence, or 0.9 for an empty result. */
  function AverageConfidence(data: Obj<ExtractedField>): real {
    if |data| > 0 then Mean(Confidences(data)) else DefaultConfidence
  }

  /** The envelope returned on success. */
  function Succeed(data: Obj<ExtractedField>): (r: KoncileResponse)
    ensures r.success && r.data == Some(data) && r.error.None?
    ensures r.metadata.Some? && r.metadata.value.fieldsExtracted == |data| == |Keys(data)|
    ensures r.metadata.value.confidence - 0.005 <= AverageConfidence(data) < r.metadata.value.confidence + 0.005
  {
    KoncileResponse(true, Some(data), None, Some(Metadata(Round2(AverageConfidence(data)), |data|)))
  }

  /** The envelope returned from the `catch`: every thrown error becomes `success: false` with
      its message. */
  function Fail(message: string): (r: KoncileResponse)
    ensures !r.success && r.error == Some(message) && r.data.None? && r.metadata.None?
  {
    KoncileResponse(false, None, Some(message), None)
  }

  /** Without fields the reported confidence is 0.9 and zero fields are counted. */
  lemma SucceedEmpty()
    ensures Succeed([]).metadata == Some(Metadata(0.9, 0))
  {
    Round2Exact(90);
  }

  /** When every field's confidence lies in [0, 1], so does the reported confidence. */
  lemma SucceedConfidenceBounds(data: Obj<ExtractedField>)
    requires forall i :: 0 <= i < |data| ==> 0.0 <= data[i].1.confidence <= 1.0
    ensures 0.0 <= Succeed(data).metadata.value.confidence <= 1.0
  {
    if |data| > 0 {
      MeanBounds(Confidences(data), 0.0, 1.0);
      Round2UnitInterval(AverageConfidence(data));
    } else {
      Round2Exact(90);
    }
  }
}
