/** `getTemplateId`: the invoice type to Koncile template id table. */
module Template {
  import opened Wrappers
  import opened JsObject
  import opened Text

  /** The object literal `templateMap`, keys in declaration order. */
  const TemplateMap: Obj<string> := [("electricity", "18982"), ("gas", "18983"), ("water", "18984")]

  /** The message thrown for a type outside the table; it lists the table's keys. */
  function UnsupportedType(invoiceType: string): string {
    "Unsupported invoice type: " + invoiceType + ". Supported types: " + Join(Keys(TemplateMap), ", ")
  }

  /** `getTemplateId(invoiceType)`: the table's entry, or a thrown error when there is none
      (every entry is a non-empty string, so the truthiness test is a membership test). */
  function GetTemplateId(invoiceType: string): (r: Result<string>)
    ensures r.Ok? <==> invoiceType in KeySet(TemplateMap)
    ensures r.Ok? ==> Lookup(TemplateMap, invoiceType) == Some(r.value) && r.value != ""
    ensures r.Err? ==> r.error == Error(UnsupportedType(invoiceType))
  {
    match Lookup(TemplateMap, invoiceType)
    case Some(id) =>
      assert id in set i | 0 <= i < |TemplateMap| :: TemplateMap[i].1;
      if id == "" then Err(Error(UnsupportedType(invoiceType))) else Ok(id)
    case None => Err(Error(UnsupportedType(invoiceType)))
  }

  /** The keys of the table, as a set and in declaration order. */
  lemma TemplateMapKeys()
    ensures KeySet(TemplateMap) == {"electricity", "gas", "water"}
    ensures Join(Keys(TemplateMap), ", ") == "electricity, gas, water"
  {
    assert Keys(TemplateMap) == ["electricity", "gas", "water"];
    assert TemplateMap[0].0 == "electricity" && TemplateMap[1].0 == "gas" && TemplateMap[2].0 == "water";
    assert KeySet(TemplateMap) == {TemplateMap[0].0, TemplateMap[1].0, TemplateMap[2].0};
    assert Join(["water"], ", ") == "water";
    assert Join(["gas", "water"], ", ") == "gas, water";
  }

  /** The table itself, and the full text of the error for any other input. */
  lemma GetTemplateIdTable(invoiceType: string)
    ensures GetTemplateId("electricity") == Ok("18982")
    ensures GetTemplateId("gas") == Ok("18983")
    ensures GetTemplateId("water") == Ok("18984")
    ensures invoiceType != "electricity" && invoiceType != "gas" && invoiceType != "water" ==>
      GetTemplateId(invoiceType) ==
        Err(Error("Unsupported invoice type: " + invoiceType + ". Supported types: electricity, gas, water"))
  {
    TemplateMapKeys();
    LookupAt(TemplateMap, 0);
    LookupAt(TemplateMap, 1);
    LookupAt(TemplateMap, 2);
  }
}
