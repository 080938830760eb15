/** The invoices endpoint (src/app/api/invoices/route.ts): page and limit parameters read with
    `parseInt`, the skip and page-count arithmetic, the query built for `GET`, and the branches of
    `DELETE` and `POST`. */
module InvoicesRoute {
  import opened Wrappers
  import opened Text
  import Seqs
  import Historique

  // ---------------------------------------------------------------- parseInt

  predicate IsDigit(c: char) {
    '0' <= c <= '9'
  }

  /** The longest prefix of `s` made of decimal digits. */
  function LeadingDigits(s: string): (ds: string)
    ensures |ds| <= |s| && ds == s[..|ds|]
    ensures forall i :: 0 <= i < |ds| ==> IsDigit(ds[i])
    ensures |ds| < |s| ==> !IsDigit(s[|ds|])
  {
    if s == [] || !IsDigit(s[0]) then [] else [s[0]] + LeadingDigits(s[1..])
  }

  /** The number a run of decimal digits denotes. */
  function DigitsValue(ds: string): nat
    requires forall i :: 0 <= i < |ds| ==> IsDigit(ds[i])
  {
    if ds == [] then 0
    else
      assert IsDigit(ds[|ds| - 1]);
      DigitsValue(ds[..|ds| - 1]) * 10 + (ds[|ds| - 1] as int - '0' as int)
  }

  /** `parseInt(s)` with radix 10: leading white space, an optional sign, then as many digits as
      there are; no digit at all is `NaN`, here `None`. */
  function ParseInt(s: string): (r: Option<int>)
    ensures r.None? <==> var t := TrimStart(s);
      var body := if t != [] && (t[0] == '-' || t[0] == '+') then t[1..] else t;
      LeadingDigits(body) == []
  {
    var t := TrimStart(s);
    var negative := t != [] && t[0] == '-';
    var body := if t != [] && (t[0] == '-' || t[0] == '+') then t[1..] else t;
    var ds := LeadingDigits(body);
    if ds == [] then None
    else
      var v: int := DigitsValue(ds);
      if negative then Some(-v) else Some(v)
  }

  lemma DigitCharValue(d: nat)
    requires d < 10
    ensures DigitChar(d) as int - '0' as int == d
  {
    assert DigitChar(d) == "0123456789"[d];
    if d == 0 {} else if d == 1 {} else if d == 2 {} else if d == 3 {} else if d == 4 {}
    else if d == 5 {} else if d == 6 {} else if d == 7 {} else if d == 8 {} else {}
  }

  lemma {:induction false} DigitsValueOfNat(n: nat)
    ensures DigitsValue(NatToString(n)) == n
    decreases n
  {
    DigitCharValue(n % 10);
    if n >= 10 {
      DigitsValueOfNat(n / 10);
      var s := NatToString(n);
      assert s[..|s| - 1] == NatToString(n / 10);
    }
  }

  lemma {:induction false} LeadingDigitsAll(s: string, rest: string)
    requires forall i :: 0 <= i < |s| ==> IsDigit(s[i])
    requires rest == [] || !IsDigit(rest[0])
    ensures LeadingDigits(s + rest) == s
    decreases |s|
  {
    if s != [] {
      assert (s + rest)[1..] == s[1..] + rest;
      LeadingDigitsAll(s[1..], rest);
    } else {
      assert s + rest == rest;
    }
  }

  /** A run of digits parses to the number it denotes. */
  lemma ParseUnsigned(ds: string)
    requires ds != [] && forall i :: 0 <= i < |ds| ==> IsDigit(ds[i])
    ensures ParseInt(ds) == Some(DigitsValue(ds))
  {
    assert IsDigit(ds[0]);
    assert !IsWhite(ds[0]);
    var t := TrimStart(ds);
    assert t == ds;
    assert !(t[0] == '-' || t[0] == '+');
    LeadingDigitsAll(ds, []);
    assert ds + [] == ds;
    assert LeadingDigits(ds) == ds;
  }

  /** A minus sign before a run of digits negates it. */
  lemma ParseNegative(ds: string)
    requires ds != [] && forall i :: 0 <= i < |ds| ==> IsDigit(ds[i])
    ensures var v: int := DigitsValue(ds); ParseInt("-" + ds) == Some(-v)
  {
    var s := "-" + ds;
    TrimStartNoWhite(s);
    assert s[0] == '-' && s[1..] == ds;
    LeadingDigitsAll(ds, []);
    assert ds + [] == ds;
    ParseSigned(s, ds);
  }

  /** `parseInt` of a string that starts with a sign and continues with digits only. */
  lemma ParseSigned(t: string, ds: string)
    requires t != [] && (t[0] == '-' || t[0] == '+') && TrimStart(t) == t && t[1..] == ds
    requires ds != [] && LeadingDigits(ds) == ds
    requires forall i :: 0 <= i < |ds| ==> IsDigit(ds[i])
    ensures var v: int := DigitsValue(ds); ParseInt(t) == Some(if t[0] == '-' then -v else v)
  {
  }

  /** A string that starts with a character other than white space is its own `TrimStart`. */
  lemma TrimStartNoWhite(s: string)
    requires s != [] && !IsWhite(s[0])
    ensures TrimStart(s) == s
  {
  }

  /** `parseInt` reads back what `String(n)` writes, for every integer. */
  lemma ParseIntRoundTrip(n: int)
    ensures ParseInt(IntToString(n)) == Some(n)
  {
    if n < 0 {
      var ds := NatToString(-n);
      assert IntToString(n) == "-" + ds;
      ParseNegative(ds);
      DigitsValueOfNat(-n);
    } else {
      var ds := NatToString(n);
      assert IntToString(n) == ds;
      ParseUnsigned(ds);
      DigitsValueOfNat(n);
    }
  }

  // ---------------------------------------------------------------- pagination

  /** `parseInt(searchParams.get(name) || fallback)`: an absent or empty parameter reads as the
      fallback. */
  function NumberParam(param: Option<string>, fallback: string): Option<int> {
    ParseInt(if param.None? || param.value == "" then fallback else param.value)
  }

  function PageOf(param: Option<string>): Option<int> {
    NumberParam(param, "1")
  }

  function LimitOf(param: Option<string>): Option<int> {
    NumberParam(param, "10")
  }

  /** `(page - 1) * limit`, NaN when either is. */
  function Skip(page: Option<int>, limit: Option<int>): Option<int> {
    if page.Some? && limit.Some? then Some((page.value - 1) * limit.value) else None
  }

  /** The two defaults read as the numbers they spell. */
  lemma ParseDefaults()
    ensures ParseInt("1") == Some(1) && ParseInt("10") == Some(10)
  {
    ParseIntRoundTrip(1);
    ParseIntRoundTrip(10);
    assert IntToString(1) == [DigitChar(1)] == "1";
    assert NatToString(10) == NatToString(1) + [DigitChar(0)] == "10";
  }

  /** Without parameters the first ten invoices are listed. */
  lemma PaginationDefaults()
    ensures PageOf(None) == Some(1) && LimitOf(None) == Some(10) && LimitOf(Some("")) == Some(10)
    ensures Skip(PageOf(None), LimitOf(None)) == Some(0)
  {
    ParseDefaults();
  }

  /** A JavaScript number as `Math.ceil(total / limit)` can produce it. */
  datatype PageCount = Finite(n: int) | Infinite | NotANumber

  /** `Math.ceil(total / limit)`: NaN for a NaN limit or for 0 / 0, Infinity for a positive
      total over 0, and otherwise the least integer `p` with `p >= total / limit` (stated without
      division: for a positive limit, `p` pages of `limit` hold `total` and `p - 1` do not). */
  function Pages(total: nat, limit: Option<int>): (p: PageCount)
    ensures limit.Some? && limit.value > 0 ==>
      p.Finite? && p.n * limit.value >= total && (p.n - 1) * limit.value < total
    ensures limit.Some? && limit.value < 0 ==>
      p.Finite? && p.n * limit.value <= total && (p.n - 1) * limit.value > total
    ensures limit.None? || (limit.value == 0 && total == 0) <==> p.NotANumber?
    ensures p.Infinite? <==> limit == Some(0) && total > 0
  {
    match limit
    case None => NotANumber
    case Some(l) =>
      if l == 0 then (if total == 0 then NotANumber else Infinite)
      else if l > 0 then
        CeilPositive(total, l);
        Finite((total + l - 1) / l)
      else
        CeilNegative(total, l);
        Finite(-(total / -l))
  }

  /** For a positive limit and a non-empty collection, `totalPages` names the last page that
      holds anything: its `skip` is below `total`, it holds at most `limit` records, the page
      after it would skip past every record, and no other page number has both properties. */
  lemma {:induction false} LastPageStart(total: nat, limit: int)
    requires limit > 0 && total > 0
    ensures var p := Pages(total, Some(limit)).n;
      && p >= 1
      && 0 <= Skip(Some(p), Some(limit)).value < total
      && total - Skip(Some(p), Some(limit)).value <= limit
      && Skip(Some(p + 1), Some(limit)).value >= total
      && forall q: int :: Skip(Some(q), Some(limit)).value < total <= Skip(Some(q + 1), Some(limit)).value ==> q == p
  {
    var p := Pages(total, Some(limit)).n;
    CeilingPage(total, limit, p);
    assert Skip(Some(p + 1), Some(limit)).value == p * limit;
    forall q: int | Skip(Some(q), Some(limit)).value < total <= Skip(Some(q + 1), Some(limit)).value
      ensures q == p
    {
      assert Skip(Some(q + 1), Some(limit)).value == q * limit;
      CeilingPageUnique(total, limit, p, q);
    }
  }

  /** The page `p` whose window of `limit` records ends at or past `total` and starts before it
      is a real page, and it is not empty. */
  lemma CeilingPage(total: int, limit: int, p: int)
    requires limit > 0 && total > 0
    requires p * limit >= total && (p - 1) * limit < total
    ensures p >= 1 && 0 <= (p - 1) * limit && total - (p - 1) * limit <= limit
  {
    assert (p - 1) * limit == p * limit - limit;
    if p < 1 {
      MultiplyMonotone(p, 0, limit);
    }
    MultiplyMonotone(0, p - 1, limit);
  }

  /** Only one page number has that window. */
  lemma CeilingPageUnique(total: int, limit: int, p: int, q: int)
    requires limit > 0
    requires p * limit >= total && (p - 1) * limit < total
    requires q * limit >= total && (q - 1) * limit < total
    ensures q == p
  {
    if q < p {
      MultiplyMonotone(q, p - 1, limit);
    } else if q > p {
      MultiplyMonotone(p, q - 1, limit);
    }
  }

  lemma MultiplyMonotone(a: int, b: int, c: int)
    requires a <= b && c >= 0
    ensures a * c <= b * c
  {
    assert b * c - a * c == (b - a) * c;
  }

  /** The ceiling of `total / l` for a positive divisor. */
  lemma CeilPositive(total: nat, l: int)
    requires l > 0
    ensures var q := (total + l - 1) / l; q * l >= total && (q - 1) * l < total
  {
    var q := (total + l - 1) / l;
    var r := (total + l - 1) % l;
    assert total + l - 1 == q * l + r && 0 <= r < l;
    assert (q - 1) * l == q * l - l;
  }

  /** The ceiling of `total / l` for a negative divisor: the quotient rounds towards zero. */
  lemma CeilNegative(total: nat, l: int)
    requires l < 0
    ensures var p := -(total / -l); p * l <= total && (p - 1) * l > total
  {
    var m := -l;
    var q := total / m;
    var r := total % m;
    assert total == q * m + r && 0 <= r < m;
    assert -q * l == q * m;
    assert (-q - 1) * l == q * m + m;
  }

  // ---------------------------------------------------------------- query

  /** The filter handed to `Invoice.find` and `countDocuments`. */
  datatype Query = Query(status: string, invoiceType: Option<string>)

  /** The query built by `GET`: start from `{ status: 'completed' }` and set `type` when the
      parameter is one of the three types. */
  method BuildQuery(typeParam: Option<string>) returns (query: Query)
    ensures query.status == "completed"
    ensures query.invoiceType.Some? <==> typeParam.Some? && typeParam.value in {"electricity", "gas", "water"}
    ensures query.invoiceType.Some? ==> query.invoiceType == typeParam
  {
    query := Query("completed", None);
    if typeParam.Some? && typeParam.value != "" && typeParam.value in ["electricity", "gas", "water"] {
      query := query.(invoiceType := typeParam);
    }
  }

  // ---------------------------------------------------------------- DELETE and POST

  datatype Response = Response(status: nat, success: bool, text: string)

  /** `DELETE` over the ids stored in the database. `dbConnect` runs first, so a connection
      failure is a 500 whatever the request; then no id is a 400, a failing
      `findByIdAndDelete` is a 500, an id the database does not hold is a 404, and otherwise the
      invoice is removed. */
  function DeleteSpec(idParam: Option<string>, store: set<string>, connectFails: bool, deleteFails: bool): (Response, set<string>) {
    if connectFails then (Response(500, false, "Failed to delete invoice"), store)
    else if idParam.None? || idParam.value == "" then (Response(400, false, "Invoice ID is required"), store)
    else if deleteFails then (Response(500, false, "Failed to delete invoice"), store)
    else if idParam.value !in store then (Response(404, false, "Invoice not found"), store)
    else (Response(200, true, "Invoice deleted successfully"), store - {idParam.value})
  }

  /** Only a given id that the database holds is deleted, and only that one; every other branch
      leaves the store alone. A missing id is a 400 once the database is connected; a
      connection failure is a 500 even without an id. */
  lemma DeleteOutcome(idParam: Option<string>, store: set<string>, connectFails: bool, deleteFails: bool)
    ensures var (resp, store') := DeleteSpec(idParam, store, connectFails, deleteFails);
      && (resp.success <==> idParam.Some? && idParam.value != "" && idParam.value in store && !connectFails && !deleteFails)
      && (resp.success ==> store' == store - {idParam.value} && |store'| == |store| - 1)
      && (!resp.success ==> store' == store)
      && (connectFails ==> resp.status == 500)
      && (!connectFails && idParam.None? ==> resp.status == 400)
      && (!connectFails && !deleteFails && idParam.Some? && idParam.value != "" && idParam.value !in store ==> resp.status == 404)
  {
  }

  /** After a successful deletion every invoice the history page keeps is still stored. */
  lemma PageListFollowsStore(list: seq<Historique.HistoryInvoice>, id: string, store: set<string>)
    requires forall i :: 0 <= i < |list| ==> list[i].id in store
    requires DeleteSpec(Some(id), store, false, false).0.success
    ensures var kept := Historique.AfterDelete(list, id);
      forall i :: 0 <= i < |kept| ==> kept[i].id in DeleteSpec(Some(id), store, false, false).1
  {
    var kept := Historique.AfterDelete(list, id);
    forall i | 0 <= i < |kept| ensures kept[i].id in store - {id} {
      Seqs.FilterMembership(list, Historique.NotId(id), kept[i]);
    }
  }

  /** `POST` is always refused. */
  function PostResponse(): (r: Response)
    ensures r.status == 405 && !r.success && r.text == "Method not allowed"
  {
    Response(405, false, "Method not allowed")
  }
}
