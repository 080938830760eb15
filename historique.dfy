/** The list logic of the history page (src/app/historique/page.tsx): type labels, the amount
    shown for an invoice, the search filter, the per-type counts, and the list kept after a
    deletion. */
module Historique {
  import opened Wrappers
  import opened JsObject
  import opened Text
  import opened Seqs

  /** One invoice of the list. `data` maps each stored field to its `value` property (`None`
      when the stored object has none). */
  datatype HistoryInvoice = HistoryInvoice(id: string, invoiceType: string, fileName: string, data: Obj<Option<string>>)

  /** `getTypeLabel`. */
  function TypeLabel(t: string): (r: string)
    ensures t == "electricity" ==> r == "Électricité"
    ensures t == "gas" ==> r == "Gaz"
    ensures t == "water" ==> r == "Eau"
    ensures t != "electricity" && t != "gas" && t != "water" ==> r == t
  {
    match t
    case "electricity" => "Électricité"
    case "gas" => "Gaz"
    case "water" => "Eau"
    case _ => t
  }

  /** `(data[k] as { value?: string })?.value`, seen through `||`: present and non-empty. */
  function TruthyValue(data: Obj<Option<string>>, k: string): Option<string> {
    var stored := Lookup(data, k);
    if stored.Some? && stored.value.Some? && stored.value.value != "" then stored.value else None
  }

  const NetToPay: string := "Montant net à payer"
  const CouponTotal: string := "Montant total en chiffres coupon"
  const GasNet: string := "NET A PAYER"
  const WaterTotal: string := "Total des frais de consommation eau et assainissement TTC"

  /** `getMainAmount`: the type's amount fields in order of preference, then "N/A". */
  function MainAmount(inv: HistoryInvoice): (r: string)
    ensures r != ""
    ensures r == "N/A" || exists k :: TruthyValue(inv.data, k) == Some(r)
    ensures inv.invoiceType == "electricity" ==>
      r == (if TruthyValue(inv.data, NetToPay).Some? then TruthyValue(inv.data, NetToPay).value
            else if TruthyValue(inv.data, CouponTotal).Some? then TruthyValue(inv.data, CouponTotal).value
            else "N/A")
    ensures inv.invoiceType == "gas" ==> r == TruthyValue(inv.data, GasNet).GetOr("N/A")
    ensures inv.invoiceType == "water" ==> r == TruthyValue(inv.data, WaterTotal).GetOr("N/A")
    ensures inv.invoiceType !in {"electricity", "gas", "water"} ==> r == "N/A"
  {
    var data := inv.data;
    if inv.invoiceType == "electricity" then
      TruthyValue(data, NetToPay).GetOr(TruthyValue(data, CouponTotal).GetOr("N/A"))
    else if inv.invoiceType == "gas" then TruthyValue(data, GasNet).GetOr("N/A")
    else if inv.invoiceType == "water" then TruthyValue(data, WaterTotal).GetOr("N/A")
    else "N/A"
  }

  /** The search predicate: the lowered term occurs in the lowered file name or type label. */
  function Matches(term: string): HistoryInvoice -> bool {
    (inv: HistoryInvoice) =>
      Contains(ToLower(inv.fileName), ToLower(term)) || Contains(ToLower(TypeLabel(inv.invoiceType)), ToLower(term))
  }

  /** `filteredInvoices`. */
  function FilteredInvoices(invoices: seq<HistoryInvoice>, term: string): seq<HistoryInvoice> {
    Filter(invoices, Matches(term))
  }

  /** The search keeps exactly the invoices that match, and keeps them in list order. */
  lemma SearchKeepsMatches(a: seq<HistoryInvoice>, b: seq<HistoryInvoice>, term: string, inv: HistoryInvoice)
    ensures inv in FilteredInvoices(a, term) <==> inv in a && Matches(term)(inv)
    ensures FilteredInvoices(a + b, term) == FilteredInvoices(a, term) + FilteredInvoices(b, term)
  {
    FilterMembership(a, Matches(term), inv);
    FilterConcat(a, b, Matches(term));
  }

  /** An empty search term keeps every invoice. */
  lemma EmptySearchKeepsAll(invoices: seq<HistoryInvoice>)
    ensures FilteredInvoices(invoices, "") == invoices
  {
    forall i | 0 <= i < |invoices| ensures Matches("")(invoices[i]) {
      assert StartsWith(ToLower(invoices[i].fileName), "");
    }
    FilterAll(invoices, Matches(""));
  }

  function OfType(t: string): HistoryInvoice -> bool {
    (inv: HistoryInvoice) => inv.invoiceType == t
  }

  /** `stats`: the total and the three per-type counts. */
  datatype Stats = Stats(total: nat, electricity: nat, gas: nat, water: nat)

  function StatsOf(invoices: seq<HistoryInvoice>): (s: Stats)
    ensures s.electricity <= s.total && s.gas <= s.total && s.water <= s.total
  {
    Stats(|invoices|, |Filter(invoices, OfType("electricity"))|, |Filter(invoices, OfType("gas"))|,
      |Filter(invoices, OfType("water"))|)
  }

  /** When every invoice has one of the three types, the three counts add up to the total. */
  lemma {:induction false} StatsSum(invoices: seq<HistoryInvoice>)
    requires forall i :: 0 <= i < |invoices| ==> invoices[i].invoiceType in {"electricity", "gas", "water"}
    ensures var s := StatsOf(invoices); s.electricity + s.gas + s.water == s.total
    decreases |invoices|
  {
    if invoices != [] {
      var front := invoices[..|invoices| - 1];
      var last := invoices[|invoices| - 1];
      assert invoices == front + [last];
      StatsSum(front);
      FilterSnoc(front, last, OfType("electricity"));
      FilterSnoc(front, last, OfType("gas"));
      FilterSnoc(front, last, OfType("water"));
    }
  }

  function NotId(id: string): HistoryInvoice -> bool {
    (inv: HistoryInvoice) => inv.id != id
  }

  /** `invoices.filter(invoice => invoice._id !== id)`, the list kept after a deletion. */
  function AfterDelete(invoices: seq<HistoryInvoice>, id: string): seq<HistoryInvoice> {
    Filter(invoices, NotId(id))
  }

  /** The deletion removes exactly the invoices with that id, keeps the rest in order, and leaves
      a list without that id unchanged. */
  lemma DeleteRemovesExactly(a: seq<HistoryInvoice>, b: seq<HistoryInvoice>, id: string, inv: HistoryInvoice)
    ensures inv in AfterDelete(a, id) <==> inv in a && inv.id != id
    ensures AfterDelete(a + b, id) == AfterDelete(a, id) + AfterDelete(b, id)
    ensures (forall i :: 0 <= i < |a| ==> a[i].id != id) ==> AfterDelete(a, id) == a
    ensures |AfterDelete(a, id)| <= |a|
  {
    FilterMembership(a, NotId(id), inv);
    FilterConcat(a, b, NotId(id));
    if forall i :: 0 <= i < |a| ==> a[i].id != id {
      FilterAll(a, NotId(id));
    }
  }
}
