/** The logic of the review form (src/components/InvoiceForm.tsx): the form's initial contents and
    edits, the confidence colour and label of a field, the grouping of fields into four sections,
    and the three summary counts. */
module InvoiceForm {
  import opened Wrappers
  import opened JsObject
  import opened Text
  import opened Seqs

  datatype InvoiceField = InvoiceField(key: string, displayLabel: string, value: string, confidence: Option<real>)

  // ---------------------------------------------------------------- form data

  /** The `[key, value]` writes of the initialisation effect, in field order. */
  function Writes(fields: seq<InvoiceField>): (ws: seq<(string, string)>)
    ensures |ws| == |fields| && forall i :: 0 <= i < |fields| ==> ws[i] == (fields[i].key, fields[i].value)
  {
    seq(|fields|, i requires 0 <= i < |fields| => (fields[i].key, fields[i].value))
  }

  /** The initial form data: an empty object written once per field. */
  function InitialData(fields: seq<InvoiceField>): Obj<string> {
    PutAll([], Writes(fields))
  }

  /** The `useEffect` that fills `initialData` with `initialData[field.key] = field.value`. */
  method InitialFormData(fields: seq<InvoiceField>) returns (data: Obj<string>)
    ensures data == InitialData(fields)
  {
    data := [];
    var i := 0;
    while i < |fields|
      invariant 0 <= i <= |fields|
      invariant data == PutAll([], Writes(fields[..i]))
    {
      assert Writes(fields[..i + 1]) == Writes(fields[..i]) + [(fields[i].key, fields[i].value)];
      PutAllSnoc([], Writes(fields[..i]), (fields[i].key, fields[i].value));
      data := Put(data, fields[i].key, fields[i].value);
      i := i + 1;
    }
    assert fields[..i] == fields;
  }

  /** Every field's key is in the form, no other key is, and a key repeated among the fields
      holds the value of its last occurrence. */
  lemma InitialDataLookup(fields: seq<InvoiceField>, k: string)
    ensures k in KeySet(InitialData(fields)) <==> exists i :: 0 <= i < |fields| && fields[i].key == k
    ensures k in KeySet(InitialData(fields)) ==>
      exists i :: && 0 <= i < |fields| && fields[i].key == k
                  && Lookup(InitialData(fields), k) == Some(fields[i].value)
                  && forall j :: i < j < |fields| ==> fields[j].key != k
  {
    var ws := Writes(fields);
    LookupPutAll([], ws, k);
    LastForIsLast(ws, k);
    if exists i :: 0 <= i < |fields| && fields[i].key == k {
      var i :| 0 <= i < |fields| && fields[i].key == k;
      assert ws[i].0 == k;
    }
    if LastFor(ws, k).Some? {
      var i :| 0 <= i < |ws| && ws[i] == (k, LastFor(ws, k).value) && forall j :: i < j < |ws| ==> ws[j].0 != k;
      assert fields[i].key == k;
    }
  }

  /** `handleFieldChange`: the spread update `{...prev, [key]: value}`. */
  function HandleFieldChange(formData: Obj<string>, key: string, value: string): (r: Obj<string>)
    ensures Lookup(r, key) == Some(value)
    ensures forall other :: other != key ==> Lookup(r, other) == Lookup(formData, other)
    ensures KeySet(r) == KeySet(formData) + {key}
  {
    var r := Put(formData, key, value);
    LookupPut(formData, key, value, key);
    forall other | other != key ensures Lookup(r, other) == Lookup(formData, other) {
      LookupPut(formData, key, value, other);
    }
    r
  }

  // ---------------------------------------------------------------- confidence

  /** `getConfidenceColor`: a missing or zero confidence is medium, then the 0.8 and 0.5
      thresholds. */
  function ConfidenceColor(confidence: Option<real>): (r: string)
    ensures r == "confidence-high" <==> confidence.Some? && confidence.value >= 0.8
    ensures r == "confidence-low" <==> confidence.Some? && confidence.value != 0.0 && confidence.value < 0.5
    ensures r == "confidence-medium" <==> confidence.None? || confidence.value == 0.0 || 0.5 <= confidence.value < 0.8
  {
    if confidence.None? || confidence.value == 0.0 then "confidence-medium"
    else if confidence.value >= 0.8 then "confidence-high"
    else if confidence.value >= 0.5 then "confidence-medium"
    else "confidence-low"
  }

  /** `getConfidenceText`. */
  function ConfidenceText(confidence: Option<real>): (r: string)
    ensures r in {"Élevé", "Moyen", "Faible"}
  {
    if confidence.None? || confidence.value == 0.0 then "Moyen"
    else if confidence.value >= 0.8 then "Élevé"
    else if confidence.value >= 0.5 then "Moyen"
    else "Faible"
  }

  /** The label shown with each colour. */
  function ColorLabel(color: string): string {
    if color == "confidence-high" then "Élevé" else if color == "confidence-medium" then "Moyen" else "Faible"
  }

  /** The text always names the bucket the colour shows. */
  lemma TextMatchesColor(confidence: Option<real>)
    ensures ConfidenceText(confidence) == ColorLabel(ConfidenceColor(confidence))
  {
  }

  // ---------------------------------------------------------------- groups

  /** The four keys of the `groups` object, in declaration order. */
  datatype Group = General | Consumption | Amounts | Others

  /** The heading each group is shown under. */
  function Title(g: Group): string {
    match g
    case General => "Informations générales"
    case Consumption => "Consommation"
    case Amounts => "Montants"
    case Others => "Autres"
  }

  predicate GeneralKey(k: string) {
    Contains(k, "date") || Contains(k, "période") || Contains(k, "client") || Contains(k, "adresse")
  }

  predicate ConsumptionKey(k: string) {
    Contains(k, "consommation") || Contains(k, "index") || Contains(k, "kwh") || Contains(k, "m3")
  }

  predicate AmountKey(k: string) {
    Contains(k, "montant") || Contains(k, "prix") || Contains(k, "tarif") || Contains(k, "total") || Contains(k, "tva")
  }

  /** The group of a field: the first rule whose keyword occurs in the lowered key. */
  function GroupOf(key: string): (g: Group)
    ensures var k := ToLower(key);
      && (GeneralKey(k) ==> g == General)
      && (!GeneralKey(k) && ConsumptionKey(k) ==> g == Consumption)
      && (!GeneralKey(k) && !ConsumptionKey(k) && AmountKey(k) ==> g == Amounts)
      && (!GeneralKey(k) && !ConsumptionKey(k) && !AmountKey(k) ==> g == Others)
  {
    var k := ToLower(key);
    if GeneralKey(k) then General
    else if ConsumptionKey(k) then Consumption
    else if AmountKey(k) then Amounts
    else Others
  }

  function InGroup(g: Group): InvoiceField -> bool {
    (f: InvoiceField) => GroupOf(f.key) == g
  }

  /** `groupFields`: each field pushed onto its group's list. */
  method GroupFields(fields: seq<InvoiceField>) returns (general: seq<InvoiceField>, consumption: seq<InvoiceField>,
                                                         amounts: seq<InvoiceField>, others: seq<InvoiceField>)
    ensures general == Filter(fields, InGroup(General))
    ensures consumption == Filter(fields, InGroup(Consumption))
    ensures amounts == Filter(fields, InGroup(Amounts))
    ensures others == Filter(fields, InGroup(Others))
  {
    general, consumption, amounts, others := [], [], [], [];
    var i := 0;
    while i < |fields|
      invariant 0 <= i <= |fields|
      invariant general == Filter(fields[..i], InGroup(General))
      invariant consumption == Filter(fields[..i], InGroup(Consumption))
      invariant amounts == Filter(fields[..i], InGroup(Amounts))
      invariant others == Filter(fields[..i], InGroup(Others))
    {
      var f := fields[i];
      assert fields[..i + 1] == fields[..i] + [f];
      GroupSnoc(fields[..i], f, General);
      GroupSnoc(fields[..i], f, Consumption);
      GroupSnoc(fields[..i], f, Amounts);
      GroupSnoc(fields[..i], f, Others);
      var g := GroupOf(f.key);
      if g == General {
        general := general + [f];
      } else if g == Consumption {
        consumption := consumption + [f];
      } else if g == Amounts {
        amounts := amounts + [f];
      } else {
        others := others + [f];
      }
      i := i + 1;
    }
    assert fields[..i] == fields;
  }

  /** Pushing a field onto the list it belongs to keeps each group equal to its filter. */
  lemma GroupSnoc(fields: seq<InvoiceField>, f: InvoiceField, g: Group)
    ensures Filter(fields + [f], InGroup(g)) ==
      if GroupOf(f.key) == g then Filter(fields, InGroup(g)) + [f] else Filter(fields, InGroup(g))
  {
    FilterSnoc(fields, f, InGroup(g));
  }

  /** The four groups share out the fields: their sizes add up to the number of fields, and a
      field is in a group exactly when the group's rule is the first one it matches. */
  lemma {:induction false} GroupsPartition(fields: seq<InvoiceField>)
    ensures |Filter(fields, InGroup(General))| + |Filter(fields, InGroup(Consumption))|
      + |Filter(fields, InGroup(Amounts))| + |Filter(fields, InGroup(Others))| == |fields|
    decreases |fields|
  {
    if fields != [] {
      var front := fields[..|fields| - 1];
      var f := fields[|fields| - 1];
      assert fields == front + [f];
      GroupsPartition(front);
      FilterSnoc(front, f, InGroup(General));
      FilterSnoc(front, f, InGroup(Consumption));
      FilterSnoc(front, f, InGroup(Amounts));
      FilterSnoc(front, f, InGroup(Others));
    }
  }

  /** A field lands in one group only, the one `GroupOf` names. */
  lemma GroupMembership(fields: seq<InvoiceField>, f: InvoiceField, g: Group)
    requires f in fields
    ensures f in Filter(fields, InGroup(g)) <==> g == GroupOf(f.key)
  {
    FilterMembership(fields, InGroup(g), f);
  }

  // ---------------------------------------------------------------- summary

  /** `f.confidence && f.confidence >= 0.8`. */
  function HighConfidence(): InvoiceField -> bool {
    (f: InvoiceField) => f.confidence.Some? && f.confidence.value != 0.0 && f.confidence.value >= 0.8
  }

  /** `f.confidence && f.confidence >= 0.5 && f.confidence < 0.8`. */
  function MediumConfidence(): InvoiceField -> bool {
    (f: InvoiceField) => f.confidence.Some? && f.confidence.value != 0.0 && 0.5 <= f.confidence.value < 0.8
  }

  /** `!f.confidence || f.confidence < 0.5`. */
  function NeedsCheck(): InvoiceField -> bool {
    (f: InvoiceField) => f.confidence.None? || f.confidence.value == 0.0 || f.confidence.value < 0.5
  }

  /** The three counts of the summary card add up to the number of fields. */
  lemma {:induction false} SummaryPartition(fields: seq<InvoiceField>)
    ensures |Filter(fields, HighConfidence())| + |Filter(fields, MediumConfidence())| + |Filter(fields, NeedsCheck())| == |fields|
    decreases |fields|
  {
    if fields != [] {
      var front := fields[..|fields| - 1];
      var f := fields[|fields| - 1];
      assert fields == front + [f];
      SummaryPartition(front);
      FilterSnoc(front, f, HighConfidence());
      FilterSnoc(front, f, MediumConfidence());
      FilterSnoc(front, f, NeedsCheck());
    }
  }

  /** The summary agrees with the colour on high and medium fields, except that a field without
      a (non-zero) confidence is shown medium but counted as to be checked. */
  lemma SummaryVersusColor(f: InvoiceField)
    ensures HighConfidence()(f) <==> ConfidenceColor(f.confidence) == "confidence-high"
    ensures NeedsCheck()(f) <==> ConfidenceColor(f.confidence) == "confidence-low" || f.confidence.None? || f.confidence.value == 0.0
    ensures f.confidence.None? ==> NeedsCheck()(f) && ConfidenceColor(f.confidence) == "confidence-medium"
  {
  }
}
