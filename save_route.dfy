/** The pure core of the save endpoint (src/app/api/save/route.ts): reading field values by a
    priority list of names, averaging confidences, normalising the posted data, validating the
    request, building the stored record and mapping database errors to HTTP answers. */
module SaveRoute {
  import opened Wrappers
  import opened JsObject
  import opened Text
  import opened Numbers
  import Fields
  import opened Seqs

  /** A value of the posted `data` object: a string typed by hand, or an extracted field whose
      `value` and `confidence` may be absent. */
  datatype Entry =
    | Manual(text: string)
    | Extracted(value: Option<string>, confidence: Option<real>, position: Option<Fields.Position>)

  /** What `normalizeData` stores for one entry. */
  datatype StoredField = StoredField(value: string, confidence: real, position: Option<Fields.Position>)

  /** `extractFieldValue`: a string is its own value; an object gives its `value`, or "" when
      that is absent or empty. */
  function ExtractFieldValue(e: Entry): (r: string)
    ensures e.Manual? ==> r == e.text
    ensures e.Extracted? && e.value.Some? ==> r == e.value.value
    ensures e.Extracted? && e.value.None? ==> r == ""
  {
    match e
    case Manual(s) => s
    case Extracted(v, _, _) => v.GetOr("")
  }

  /** JavaScript truthiness of an entry: only the empty string is falsy. */
  predicate Truthy(e: Entry) {
    !(e.Manual? && e.text == "")
  }

  /** The test of one iteration of `findFieldValue`: the name is present with a truthy entry
      whose value is not blank. */
  predicate Hit(data: Obj<Entry>, name: string) {
    match Lookup(data, name)
    case None => false
    case Some(e) => Truthy(e) && !IsBlank(ExtractFieldValue(e))
  }

  /** The answer of `findFieldValue` over the names from the first on. */
  function FirstFound(data: Obj<Entry>, names: seq<string>): string {
    if names == [] then ""
    else if Hit(data, names[0]) then Trim(ExtractFieldValue(Lookup(data, names[0]).value))
    else FirstFound(data, names[1..])
  }

  /** `findFieldValue`: the loop over `fieldNames` with its early return. */
  method FindFieldValue(data: Obj<Entry>, names: seq<string>) returns (r: string)
    ensures r == FirstFound(data, names)
  {
    var i := 0;
    while i < |names|
      invariant 0 <= i <= |names|
      invariant FirstFound(data, names) == FirstFound(data, names[i..])
    {
      assert names[i..][1..] == names[i + 1..];
      var found := Lookup(data, names[i]);
      if found.Some? && Truthy(found.value) {
        var value := ExtractFieldValue(found.value);
        TrimEmptyIffBlank(value);
        if Trim(value) != "" {
          return Trim(value);
        }
      }
      i := i + 1;
    }
    return "";
  }

  /** The value found is the trimmed value of the first name that hits, and names after it are
      never consulted; it is "" exactly when no name hits. */
  lemma {:induction false} FirstFoundIsFirstHit(data: Obj<Entry>, names: seq<string>)
    ensures FirstFound(data, names) == "" <==> forall i :: 0 <= i < |names| ==> !Hit(data, names[i])
    ensures forall i :: 0 <= i < |names| && Hit(data, names[i]) && (forall j :: 0 <= j < i ==> !Hit(data, names[j])) ==>
      FirstFound(data, names) == Trim(ExtractFieldValue(Lookup(data, names[i]).value))
    decreases |names|
  {
    if names != [] {
      FirstFoundIsFirstHit(data, names[1..]);
      if Hit(data, names[0]) {
        TrimEmptyIffBlank(ExtractFieldValue(Lookup(data, names[0]).value));
      } else {
        forall i | 1 <= i < |names| ensures names[i] == names[1..][i - 1] { }
        forall i | 0 <= i < |names| && Hit(data, names[i]) && (forall j :: 0 <= j < i ==> !Hit(data, names[j]))
          ensures FirstFound(data, names) == Trim(ExtractFieldValue(Lookup(data, names[i]).value))
        {
          assert i != 0;
          assert forall j :: 0 <= j < i - 1 ==> !Hit(data, names[1..][j]) by {
            forall j | 0 <= j < i - 1 ensures !Hit(data, names[1..][j]) {
              assert names[1..][j] == names[j + 1];
            }
          }
          assert names[1..][i - 1] == names[i];
        }
      }
    }
  }

  /** The confidences `calculateAverageConfidence` pushes: those of the object entries whose
      confidence is defined, in order; string entries contribute nothing. */
  function Scores(data: seq<(string, Entry)>): (cs: seq<real>)
    ensures |cs| <= |data|
    ensures forall i :: 0 <= i < |data| && Scored(data[i]) ==> data[i].1.confidence.value in cs
    decreases |data|
  {
    if data == [] then []
    else
      var e := data[|data| - 1].1;
      Scores(data[..|data| - 1]) + (if e.Extracted? && e.confidence.Some? then [e.confidence.value] else [])
  }

  /** `typeof field === 'object' && field.confidence !== undefined`. */
  predicate Scored(entry: (string, Entry)) {
    entry.1.Extracted? && entry.1.confidence.Some?
  }

  /** `entries.map(f => f.confidence)` over entries that all pass the test. */
  function ConfidencesOf(entries: seq<(string, Entry)>): (cs: seq<real>)
    requires forall i :: 0 <= i < |entries| ==> Scored(entries[i])
    ensures |cs| == |entries|
    decreases |entries|
  {
    if entries == [] then []
    else
      assert Scored(entries[|entries| - 1]);
      ConfidencesOf(entries[..|entries| - 1]) + [entries[|entries| - 1].1.confidence.value]
  }

  /** The scores are exactly the confidences of the entries that pass the test, in entry order
      and one per entry: `Object.values(data).filter(test).map(f => f.confidence)`. */
  lemma {:induction false} ScoresAreFilteredConfidences(data: seq<(string, Entry)>)
    ensures forall i :: 0 <= i < |Filter(data, Scored)| ==> Scored(Filter(data, Scored)[i])
    ensures Scores(data) == ConfidencesOf(Filter(data, Scored))
    decreases |data|
  {
    var kept := Filter(data, Scored);
    assert forall i :: 0 <= i < |kept| ==> Scored(kept[i]) by {
      forall i | 0 <= i < |kept| ensures Scored(kept[i]) {
        assert kept[i] in kept;
      }
    }
    if data != [] {
      var front := data[..|data| - 1];
      var x := data[|data| - 1];
      ScoresAreFilteredConfidences(front);
      var keptFront := Filter(front, Scored);
      if Scored(x) {
        assert kept == keptFront + [x];
        assert kept[..|kept| - 1] == keptFront;
      } else {
        assert kept == keptFront;
      }
    }
  }

  /** What `calculateAverageConfidence` returns: 0 without scores, else the mean to two
      decimals. */
  function AverageOf(scores: seq<real>): real {
    if |scores| == 0 then 0.0 else Round2(Mean(scores))
  }

  /** `calculateAverageConfidence`: the `forEach` that pushes scores, then the rounded mean. */
  method CalculateAverageConfidence(data: Obj<Entry>) returns (avg: real)
    ensures avg == AverageOf(Scores(data))
  {
    var scores: seq<real> := [];
    var i := 0;
    while i < |data|
      invariant 0 <= i <= |data|
      invariant scores == Scores(data[..i])
    {
      assert data[..i + 1][..i] == data[..i];
      var e := data[i].1;
      if e.Extracted? && e.confidence.Some? {
        scores := scores + [e.confidence.value];
      }
      i := i + 1;
    }
    assert data[..i] == data;
    if |scores| == 0 {
      return 0.0;
    }
    avg := Round2(Mean(scores));
  }

  /** A value is a score exactly when it is the confidence of some object entry, and there are
      none when every entry is a string or lacks a confidence. */
  lemma {:induction false} ScoresFromEntries(data: seq<(string, Entry)>)
    ensures forall c :: c in Scores(data) <==>
      exists i :: 0 <= i < |data| && data[i].1.Extracted? && data[i].1.confidence == Some(c)
    ensures (forall i :: 0 <= i < |data| ==> data[i].1.Manual? || data[i].1.confidence.None?) ==> Scores(data) == []
    decreases |data|
  {
    if data != [] {
      var front := data[..|data| - 1];
      ScoresFromEntries(front);
      forall c | c in Scores(data)
        ensures exists i :: 0 <= i < |data| && data[i].1.Extracted? && data[i].1.confidence == Some(c)
      {
        if c in Scores(front) {
          var i :| 0 <= i < |front| && front[i].1.Extracted? && front[i].1.confidence == Some(c);
          assert data[i] == front[i];
        } else {
          assert data[|data| - 1].1.confidence == Some(c);
        }
      }
      if forall i :: 0 <= i < |data| ==> data[i].1.Manual? || data[i].1.confidence.None? {
        assert forall i :: 0 <= i < |front| ==> front[i] == data[i];
      }
    }
  }

  /** Scores in [0, 1] average to a value in [0, 1]. */
  lemma AverageOfBounds(scores: seq<real>)
    requires forall i :: 0 <= i < |scores| ==> 0.0 <= scores[i] <= 1.0
    ensures 0.0 <= AverageOf(scores) <= 1.0
  {
    if |scores| > 0 {
      MeanBounds(scores, 0.0, 1.0);
      Round2UnitInterval(Mean(scores));
    }
  }

  /** One entry as `normalizeData` stores it: a string gets confidence 1.0 and no position; an
      object gets `value || ''`, `confidence || 0` and its position. */
  function NormalizeEntry(e: Entry): (f: StoredField)
    ensures e.Manual? ==> f == StoredField(e.text, 1.0, None)
    ensures e.Extracted? ==> f.value == ExtractFieldValue(e) && f.position == e.position
    ensures e.Extracted? ==> f.confidence == (if e.confidence.Some? then e.confidence.value else 0.0)
  {
    match e
    case Manual(s) => StoredField(s, 1.0, None)
    case Extracted(v, c, p) => StoredField(v.GetOr(""), c.GetOr(0.0), p)
  }

  function EntryNormalizer(): Entry -> StoredField {
    e => NormalizeEntry(e)
  }

  /** The object `normalizeData` builds. */
  function Normalized(data: Obj<Entry>): Obj<StoredField> {
    MapValues(data, EntryNormalizer())
  }

  /** `normalizeData`: one `normalized[key] = ...` write per entry. */
  method NormalizeData(data: Obj<Entry>) returns (normalized: Obj<StoredField>)
    ensures normalized == Normalized(data)
  {
    normalized := [];
    var i := 0;
    while i < |data|
      invariant 0 <= i <= |data|
      invariant normalized == MapValues(Prefix(data, i), EntryNormalizer())
    {
      MapValuesSnoc(data, i, EntryNormalizer());
      normalized := Put(normalized, data[i].0, NormalizeEntry(data[i].1));
      i := i + 1;
    }
    assert Prefix(data, i) == data;
  }

  /** Normalising keeps exactly the posted keys, in order, each with its normalised entry. */
  lemma NormalizedLookup(data: Obj<Entry>, k: string)
    ensures Keys(Normalized(data)) == Keys(data)
    ensures Lookup(Normalized(data), k) == if k in KeySet(data) then Some(NormalizeEntry(Lookup(data, k).value)) else None
  {
    MapValuesKeys(data, EntryNormalizer());
    LookupMapValues(data, EntryNormalizer(), k);
  }

  /** The parsed JSON body. An absent or non-string `fileName` is `None`; an absent, null or
      non-object `data` is `None`; `invoiceType` is "" when absent. */
  datatype SaveRequest = SaveRequest(
    invoiceType: string,
    fileName: Option<string>,
    data: Option<Obj<Entry>>,
    metadataConfidence: Option<real>)

  const BodyRequired: string := "Request body is required"
  const TypeRequired: string := "Invoice type is required"
  const TypeInvalid: string := "Invalid invoice type. Must be electricity, gas, or water"
  const FileNameRequired: string := "Valid file name is required"
  const DataRequired: string := "Invoice data is required"
  const DataEmpty: string := "Invoice data cannot be empty"

  predicate IsInvoiceType(t: string) {
    t == "electricity" || t == "gas" || t == "water"
  }

  predicate WellFormed(body: SaveRequest) {
    && IsInvoiceType(body.invoiceType)
    && body.fileName.Some? && !IsBlank(body.fileName.value)
    && body.data.Some? && |body.data.value| > 0
  }

  /** `validateRequest`: the first failing check's message, or the body itself. */
  function ValidateRequest(body: Option<SaveRequest>): (r: Result<SaveRequest>)
    ensures r.Ok? <==> body.Some? && WellFormed(body.value)
    ensures r.Ok? ==> r.value == body.value
    ensures body.None? ==> r == Err(Error(BodyRequired))
    ensures body.Some? && body.value.invoiceType == "" ==> r == Err(Error(TypeRequired))
    ensures body.Some? && body.value.invoiceType != "" && !IsInvoiceType(body.value.invoiceType) ==> r == Err(Error(TypeInvalid))
    ensures body.Some? && IsInvoiceType(body.value.invoiceType) && (body.value.fileName.None? || IsBlank(body.value.fileName.value))
      ==> r == Err(Error(FileNameRequired))
    ensures body.Some? && IsInvoiceType(body.value.invoiceType) && body.value.fileName.Some? && !IsBlank(body.value.fileName.value)
      ==> r == (if body.value.data.None? then Err(Error(DataRequired))
                else if |body.value.data.value| == 0 then Err(Error(DataEmpty))
                else Ok(body.value))
  {
    match body
    case None => Err(Error(BodyRequired))
    case Some(b) =>
      if b.invoiceType == "" then Err(Error(TypeRequired))
      else if !IsInvoiceType(b.invoiceType) then Err(Error(TypeInvalid))
      else if !ValidFileName(b.fileName) then Err(Error(FileNameRequired))
      else if b.data.None? then Err(Error(DataRequired))
      else if |b.data.value| == 0 then Err(Error(DataEmpty))
      else Ok(b)
  }

  /** `fileName && typeof fileName === 'string' && fileName.trim().length > 0`. */
  function ValidFileName(fileName: Option<string>): (ok: bool)
    ensures ok <==> fileName.Some? && !IsBlank(fileName.value)
  {
    match fileName
    case None => false
    case Some(f) =>
      TrimEmptyIffBlank(f);
      f != "" && |Trim(f)| > 0
  }

  /** One type's entry of `FIELD_MAPPINGS`: where to look for the invoice's date and month. The
      keys are kept exactly as the table spells them, code points U+221A U+00A9 included. */
  datatype FieldMapping = FieldMapping(dateFields: seq<string>, monthFields: seq<string>)

  const Period: string := "P\U{221A}\U{A9}riode de facturation"
  const Emission: string := "Date d'\U{221A}\U{A9}mission"

  function FieldMappings(invoiceType: string): FieldMapping
    requires IsInvoiceType(invoiceType)
  {
    if invoiceType == "electricity" then
      FieldMapping(["Date de facture", "Date limite de paiement"], [Period, "Mois de facturation"])
    else if invoiceType == "gas" then
      FieldMapping(["Date de facture", Emission], [Period, "Mois de facturation"])
    else
      FieldMapping(["Date de facture", Emission], [Period, "Trimestre", "Mois de facturation"])
  }

  /** The document handed to `invoice.save()`, without its timestamps. */
  datatype InvoiceRecord = InvoiceRecord(
    invoiceType: string,
    fileName: string,
    date: string,
    month: string,
    data: Obj<StoredField>,
    status: string)

  /** The HTTP answer of `POST`, without the database id, timestamps and processing time. */
  datatype SaveResponse =
    | Saved(record: InvoiceRecord, message: string, fieldsCount: nat, averageConfidence: real)
    | Rejected(status: nat, code: string, error: string)

  const DuplicateMessage: string := "An invoice with this information already exists"
  const FormatMessage: string := "Invalid invoice data format"
  const DatabaseMessage: string := "Failed to save invoice to database"

  /** The `catch` of `POST`: the error's message decides the answer, duplicate keys first. */
  function DatabaseFailure(message: string): (r: SaveResponse)
    ensures r.Rejected?
    ensures Contains(message, "duplicate key") ==> r == Rejected(409, "DUPLICATE_INVOICE", DuplicateMessage)
    ensures !Contains(message, "duplicate key") && Contains(message, "validation") ==>
      r == Rejected(400, "VALIDATION_ERROR", FormatMessage)
    ensures !Contains(message, "duplicate key") && !Contains(message, "validation") ==>
      r == Rejected(500, "DATABASE_ERROR", DatabaseMessage)
  {
    if Contains(message, "duplicate key") then Rejected(409, "DUPLICATE_INVOICE", DuplicateMessage)
    else if Contains(message, "validation") then Rejected(400, "VALIDATION_ERROR", FormatMessage)
    else Rejected(500, "DATABASE_ERROR", DatabaseMessage)
  }

  /** A database error that mentions both a duplicate key and validation is reported as a
      duplicate. */
  lemma DuplicateWins(prefix: string, middle: string, suffix: string)
    ensures DatabaseFailure(prefix + "duplicate key" + middle + "validation" + suffix).status == 409
  {
    var m := prefix + "duplicate key" + middle + "validation" + suffix;
    assert m == prefix + "duplicate key" + (middle + "validation" + suffix);
    ContainsPiece(prefix, "duplicate key", middle + "validation" + suffix);
  }

  /** `invoiceType.charAt(0).toUpperCase() + invoiceType.slice(1)` for the three types. */
  function SavedMessage(invoiceType: string): string
    requires IsInvoiceType(invoiceType)
  {
    var t := if invoiceType == "electricity" then "Electricity" else if invoiceType == "gas" then "Gas" else "Water";
    t + " invoice saved successfully"
  }

  /** The record `POST` builds from a valid body. */
  function RecordFor(b: SaveRequest): InvoiceRecord
    requires WellFormed(b)
  {
    var mapping := FieldMappings(b.invoiceType);
    InvoiceRecord(b.invoiceType, Trim(b.fileName.value),
      FirstFound(b.data.value, mapping.dateFields), FirstFound(b.data.value, mapping.monthFields),
      Normalized(b.data.value), "completed")
  }

  /** `metadata?.confidence || calculateAverageConfidence(data)`. */
  function ReportedConfidence(b: SaveRequest): real
    requires b.data.Some?
  {
    if b.metadataConfidence.Some? && b.metadataConfidence.value != 0.0 then b.metadataConfidence.value
    else AverageOf(Scores(b.data.value))
  }

  /** `POST`, given the parsed body (or the message `request.json()` or `dbConnect()` threw) and
      the outcome of `invoice.save()`. */
  function SaveSpec(body: Result<Option<SaveRequest>>, saveError: Option<string>): SaveResponse {
    match body
    case Err(e) => DatabaseFailure(e.message)
    case Ok(parsed) =>
      match ValidateRequest(parsed)
      case Err(e) => Rejected(400, "VALIDATION_ERROR", e.message)
      case Ok(b) =>
        if saveError.Some? then DatabaseFailure(saveError.value)
        else Saved(RecordFor(b), SavedMessage(b.invoiceType), |b.data.value|, ReportedConfidence(b))
  }

  /** A request that fails validation is answered 400 with the validation message, whatever the
      database would have done. */
  lemma InvalidNeverSaved(parsed: Option<SaveRequest>, e1: Option<string>, e2: Option<string>)
    requires ValidateRequest(parsed).Err?
    ensures SaveSpec(Ok(parsed), e1) == SaveSpec(Ok(parsed), e2)
      == Rejected(400, "VALIDATION_ERROR", ValidateRequest(parsed).error.message)
  {
  }

  /** A saved record has the trimmed file name, status "completed", the date and month found by
      the type's priority lists ("" when none matches), every posted key normalised, and the
      reported confidence prefers a non-zero confidence from the client. */
  lemma SavedRecord(b: SaveRequest, k: string)
    requires WellFormed(b)
    ensures var r := SaveSpec(Ok(Some(b)), None);
      && r.Saved?
      && r.record.fileName == Trim(b.fileName.value) && r.record.fileName != ""
      && r.record.status == "completed"
      && r.record.invoiceType == b.invoiceType
      && r.record.date == FirstFound(b.data.value, FieldMappings(b.invoiceType).dateFields)
      && r.record.month == FirstFound(b.data.value, FieldMappings(b.invoiceType).monthFields)
      && Keys(r.record.data) == Keys(b.data.value)
      && (k in KeySet(b.data.value) ==> Lookup(r.record.data, k) == Some(NormalizeEntry(Lookup(b.data.value, k).value)))
      && r.fieldsCount == |b.data.value|
      && (b.metadataConfidence.Some? && b.metadataConfidence.value != 0.0 ==> r.averageConfidence == b.metadataConfidence.value)
      && (b.metadataConfidence.None? || b.metadataConfidence.value == 0.0 ==>
            r.averageConfidence == AverageOf(Scores(b.data.value)))
  {
    TrimEmptyIffBlank(b.fileName.value);
    NormalizedLookup(b.data.value, k);
  }

  /** `POST` as the route runs it: validation, the two `findFieldValue` loops, `normalizeData`
      and, unless the client sent a confidence, `calculateAverageConfidence`. */
  method SavePost(body: Result<Option<SaveRequest>>, saveError: Option<string>) returns (resp: SaveResponse)
    ensures resp == SaveSpec(body, saveError)
  {
    if body.Err? {
      return DatabaseFailure(body.error.message);
    }
    var validation := ValidateRequest(body.value);
    if validation.Err? {
      return Rejected(400, "VALIDATION_ERROR", validation.error.message);
    }
    var b := validation.value;
    var data := b.data.value;
    var mapping := FieldMappings(b.invoiceType);
    var date := FindFieldValue(data, mapping.dateFields);
    var month := FindFieldValue(data, mapping.monthFields);
    var normalized := NormalizeData(data);
    var confidence: real;
    if b.metadataConfidence.Some? && b.metadataConfidence.value != 0.0 {
      confidence := b.metadataConfidence.value;
    } else {
      confidence := CalculateAverageConfidence(data);
    }
    var record := InvoiceRecord(b.invoiceType, Trim(b.fileName.value), date, month, normalized, "completed");
    if saveError.Some? {
      return DatabaseFailure(saveError.value);
    }
    resp := Saved(record, SavedMessage(b.invoiceType), |normalized|, confidence);
  }
}
