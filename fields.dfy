/** The field normaliser `transformKoncileResponse`, shared word for word by src/lib/koncile.ts
    and src/lib/koncile-new.ts: it turns the variably shaped values of an extraction result into
    `{ value, confidence, position? }` records, keeping every key and its place. */
module Fields {
  import opened Wrappers
  import opened JsObject
  import opened Text

  datatype Position = Position(x: real, y: real, width: real, height: real)

  /** One value of an extraction result as the normaliser reads it. An object is read only
      through the six properties below, each one either absent or of the documented type; any
      other object (an array, an object with other keys) reads as a `RawObject` whose properties
      are all absent. `null`, strings, integers and booleans are the primitives. */
  datatype RawValue =
    | RawObject(value: Option<string>, text: Option<string>, content: Option<string>,
                confidenceScore: Option<real>, confidence: Option<real>, position: Option<Position>)
    | RawString(s: string)
    | RawNumber(n: int)
    | RawBool(b: bool)
    | RawNull

  /** The normalised field of the public `KoncileResponse`. */
  datatype ExtractedField = ExtractedField(value: string, confidence: real, position: Option<Position>)

  /** The confidence used when no other source supplies a non-zero one. */
  const DefaultConfidence: real := 0.9

  /** JavaScript truthiness of an optional string and of an optional number. */
  predicate TruthyString(s: Option<string>) { s.Some? && s.value != "" }
  predicate TruthyNumber(x: Option<real>) { x.Some? && x.value != 0.0 }

  /** `a || b` when `a` is an optional string or number. */
  function OrString(a: Option<string>, b: string): string { if TruthyString(a) then a.value else b }
  function OrNumber(a: Option<real>, b: real): real { if TruthyNumber(a) then a.value else b }

  /** `String(v || '')` for a primitive `v`: falsy primitives become the empty string. */
  function PrimitiveText(v: RawValue): (s: string)
    requires !v.RawObject?
    ensures v.RawNull? || v == RawBool(false) || v == RawNumber(0) ==> s == ""
    ensures v.RawString? ==> s == v.s
  {
    match v
    case RawString(s) => s
    case RawNumber(n) => if n == 0 then "" else IntToString(n)
    case RawBool(b) => if b then "true" else ""
    case RawNull => ""
  }

  /** The per-entry body of `transformKoncileResponse`; `fallback` is its optional
      `confidenceScore` argument. */
  function NormalizeField(v: RawValue, fallback: Option<real>): (f: ExtractedField)
    ensures f.confidence != 0.0
    ensures v.RawObject? ==> f.position == v.position
    ensures !v.RawObject? ==> f.position.None?
  {
    match v
    case RawObject(value, text, content, cs, conf, pos) =>
      ExtractedField(OrString(value, OrString(text, OrString(content, ""))),
                     OrNumber(cs, OrNumber(conf, OrNumber(fallback, DefaultConfidence))),
                     pos)
    case _ =>
      ExtractedField(PrimitiveText(v), OrNumber(fallback, DefaultConfidence), None)
  }

  /** The value of an object entry is its first non-empty string among `value`, `text` and
      `content`, in that order, and empty when all three are empty or absent. */
  lemma ValueAliasOrder(v: RawValue, fallback: Option<real>)
    requires v.RawObject?
    ensures var f := NormalizeField(v, fallback);
      && (TruthyString(v.value) ==> f.value == v.value.value)
      && (!TruthyString(v.value) && TruthyString(v.text) ==> f.value == v.text.value)
      && (!TruthyString(v.value) && !TruthyString(v.text) && TruthyString(v.content) ==> f.value == v.content.value)
      && (f.value == "" <==> !TruthyString(v.value) && !TruthyString(v.text) && !TruthyString(v.content))
  {
  }

  /** The confidence of an object entry is its first non-zero number among `confidence_score`,
      `confidence` and the fallback, and 0.9 otherwise: a score of exactly 0 is replaced. */
  lemma ConfidenceAliasOrder(v: RawValue, fallback: Option<real>)
    requires v.RawObject?
    ensures var f := NormalizeField(v, fallback);
      && (TruthyNumber(v.confidenceScore) ==> f.confidence == v.confidenceScore.value)
      && (!TruthyNumber(v.confidenceScore) && TruthyNumber(v.confidence) ==> f.confidence == v.confidence.value)
      && (!TruthyNumber(v.confidenceScore) && !TruthyNumber(v.confidence) ==>
            f.confidence == if TruthyNumber(fallback) then fallback.value else DefaultConfidence)
  {
  }

  /** A primitive entry keeps only its text; its confidence is the fallback or 0.9. */
  lemma PrimitiveEntry(v: RawValue, fallback: Option<real>)
    requires !v.RawObject?
    ensures NormalizeField(v, fallback) ==
      ExtractedField(PrimitiveText(v), if TruthyNumber(fallback) then fallback.value else DefaultConfidence, None)
  {
  }

  /** A normalised field read back as a raw object with `value`, `confidence_score` and
      `position`. */
  function AsRaw(f: ExtractedField): (v: RawValue)
    ensures v.RawObject? && v.value == Some(f.value) && v.confidenceScore == Some(f.confidence)
  {
    RawObject(Some(f.value), None, None, Some(f.confidence), None, f.position)
  }

  /** Normalising is idempotent: a normalised field fed back in comes out unchanged, whatever
      the fallback. */
  lemma NormalizeIdempotent(v: RawValue, fallback: Option<real>, fallback2: Option<real>)
    ensures NormalizeField(AsRaw(NormalizeField(v, fallback)), fallback2) == NormalizeField(v, fallback)
  {
    var f := NormalizeField(v, fallback);
    assert f.confidence != 0.0;
  }

  /** The `forEach` callback of `transformKoncileResponse` as a function value. */
  function Normalizer(fallback: Option<real>): RawValue -> ExtractedField
  {
    v => NormalizeField(v, fallback)
  }

  /** The object `transformKoncileResponse` builds: every entry normalised, keys in place. */
  function NormalizeAll(data: Obj<RawValue>, fallback: Option<real>): (r: Obj<ExtractedField>)
    ensures |r| == |data|
    ensures forall i :: 0 <= i < |data| ==> r[i].0 == data[i].0 && r[i].1 == NormalizeField(data[i].1, fallback)
  {
    MapValues(data, Normalizer(fallback))
  }

  /** The normaliser keeps the key list exactly, and each key maps to its normalised value. */
  lemma NormalizeAllLookup(data: Obj<RawValue>, fallback: Option<real>, k: string)
    ensures Keys(NormalizeAll(data, fallback)) == Keys(data)
    ensures KeySet(NormalizeAll(data, fallback)) == KeySet(data)
    ensures Lookup(NormalizeAll(data, fallback), k) ==
      if k in KeySet(data) then Some(NormalizeField(Lookup(data, k).value, fallback)) else None
  {
    MapValuesKeys(data, Normalizer(fallback));
    LookupMapValues(data, Normalizer(fallback), k);
  }

  /** `transformKoncileResponse`: one `transformedData[key] = ...` write per entry of
      `Object.entries(extractedData)`, counting the entries processed. */
  method TransformKoncileResponse(data: Obj<RawValue>, fallback: Option<real>)
    returns (out: Obj<ExtractedField>, processed: nat)
    ensures out == NormalizeAll(data, fallback)
    ensures processed == |data|
  {
    out := [];
    processed := 0;
    var i := 0;
    while i < |data|
      invariant 0 <= i <= |data|
      invariant processed == i
      invariant out == MapValues(Prefix(data, i), Normalizer(fallback))
    {
      var (key, value) := data[i];
      MapValuesSnoc(data, i, Normalizer(fallback));
      out := Put(out, key, NormalizeField(value, fallback));
      processed := processed + 1;
      i := i + 1;
    }
    assert Prefix(data, i) == data;
  }
}
