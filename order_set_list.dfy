/** The field handling of the `get-formatted-order-set-list` workflow: the
    caller's optional field paths are merged with a fixed baseline of 34 paths,
    de-duplicated, and handed to the remote query on the `order_set` entry
    point together with the caller's variables. */
module OrderSetList {
  import opened Wrappers
  import opened Dedup

  /** The field paths every order-set listing fetches, in source order. */
  const Baseline: seq<string> := [
    "id",
    "updated_at",
    "created_at",
    "display_id",
    "customer_id",
    "customer.*",
    "cart_id",
    "cart.*",
    "orders.id",
    "orders.currency_code",
    "orders.email",
    "orders.created_at",
    "orders.updated_at",
    "orders.completed_at",
    "orders.total",
    "orders.subtotal",
    "orders.tax_total",
    "orders.discount_total",
    "orders.discount_tax_total",
    "orders.original_total",
    "orders.original_tax_total",
    "orders.item_total",
    "orders.item_subtotal",
    "orders.item_tax_total",
    "orders.sales_channel_id",
    "orders.original_item_total",
    "orders.original_item_subtotal",
    "orders.original_item_tax_total",
    "orders.shipping_total",
    "orders.shipping_subtotal",
    "orders.shipping_tax_total",
    "orders.items.*",
    "orders.customer_id",
    "orders.customer.*"
  ]

  /** The entry point the workflow queries. */
  const OrderSetEntryPoint: string := "order_set"

  /** No baseline path from row `lo` up to (not including) row `hi` occurs
      again further down the baseline. */
  predicate BaselineRowsDistinct(lo: nat, hi: nat) {
    forall i, j :: lo <= i < hi && i < j < |Baseline| ==> Baseline[i] != Baseline[j]
  }

  // The distinctness of the 34 paths is proved a few rows at a time, which
  // keeps each proof small.
  lemma BaselineRows0To2() ensures BaselineRowsDistinct(0, 2) { }
  lemma BaselineRows2To4() ensures BaselineRowsDistinct(2, 4) { }
  lemma BaselineRows4To8() ensures BaselineRowsDistinct(4, 8) { }
  lemma BaselineRows8To12() ensures BaselineRowsDistinct(8, 12) { }
  lemma BaselineRows12To16() ensures BaselineRowsDistinct(12, 16) { }
  lemma BaselineRows16To21() ensures BaselineRowsDistinct(16, 21) { }
  lemma BaselineRows21To34() ensures BaselineRowsDistinct(21, 34) { }

  /** The baseline lists 34 distinct paths. */
  lemma BaselineHasNoDuplicates()
    ensures |Baseline| == 34
    ensures NoDup(Baseline)
  {
    BaselineRows0To2();
    BaselineRows2To4();
    BaselineRows4To8();
    BaselineRows8To12();
    BaselineRows12To16();
    BaselineRows16To21();
    BaselineRows21To34();
  }

  /** The workflow's input: optional field paths and optional query variables
      (filters, pagination, ordering), whose shape this model leaves open. */
  datatype WorkflowInput<V> = WorkflowInput(fields: Option<seq<string>>, variables: Option<V>)

  /** The arguments the workflow hands to its remote-query step. */
  datatype RemoteQueryArgs<V> = RemoteQueryArgs(entryPoint: string, fields: seq<string>, variables: Option<V>)

  /** The caller's field paths, an absent list counting as empty. */
  function CallerFields(fields: Option<seq<string>>): seq<string> {
    fields.GetOr([])
  }

  /** The field paths the workflow queries: the caller's paths followed by the
      baseline, each path kept only at its first occurrence. The result holds
      every baseline path, every caller path and nothing else, each once. */
  function NormalizeFields(fields: Option<seq<string>>): (r: seq<string>)
    ensures forall i :: 0 <= i < |Baseline| ==> Baseline[i] in r
    ensures forall i :: 0 <= i < |CallerFields(fields)| ==> CallerFields(fields)[i] in r
    ensures forall i :: 0 <= i < |r| ==> r[i] in CallerFields(fields) || r[i] in Baseline
    ensures NoDup(r)
  {
    var all := CallerFields(fields) + Baseline;
    assert forall i :: 0 <= i < |CallerFields(fields)| ==> all[i] == CallerFields(fields)[i];
    assert forall i :: 0 <= i < |Baseline| ==> all[|CallerFields(fields)| + i] == Baseline[i];
    Deduplicate(all)
  }

  /** The normalised list begins with the caller's own paths, de-duplicated and
      in the order they were first given. */
  lemma NormalizedStartsWithCallerFields(fields: Option<seq<string>>)
    ensures Deduplicate(CallerFields(fields)) <= NormalizeFields(fields)
  {
    DeduplicateExtends(CallerFields(fields), Baseline);
  }

  /** Without caller fields the workflow queries exactly the baseline, in order. */
  lemma NormalizedWithoutFieldsIsBaseline()
    ensures NormalizeFields(None) == Baseline
  {
    BaselineHasNoDuplicates();
    assert CallerFields(None) + Baseline == Baseline;
    DeduplicateOfNoDup(Baseline);
  }

  /** At least the 34 baseline paths are queried, and at most one path per
      caller path on top of them. */
  lemma NormalizedLengthBounds(fields: Option<seq<string>>)
    ensures |Baseline| <= |NormalizeFields(fields)| <= |CallerFields(fields)| + |Baseline|
  {
    BaselineHasNoDuplicates();
    NoDupSubsetLength(Baseline, NormalizeFields(fields));
  }

  /** Normalising an already normalised list returns it unchanged. */
  lemma NormalizeIdempotent(fields: Option<seq<string>>)
    ensures NormalizeFields(Some(NormalizeFields(fields))) == NormalizeFields(fields)
  {
    var r := NormalizeFields(fields);
    assert CallerFields(Some(r)) == r;
    DeduplicateAbsorbs(r, Baseline);
    DeduplicateOfNoDup(r);
  }

  /** Paths appear in the order of their first occurrence among the caller's
      paths followed by the baseline. */
  lemma NormalizedFollowsFirstOccurrence(fields: Option<seq<string>>)
    ensures forall i, j :: 0 <= i < j < |NormalizeFields(fields)| ==>
      IndexOf(CallerFields(fields) + Baseline, NormalizeFields(fields)[i])
        < IndexOf(CallerFields(fields) + Baseline, NormalizeFields(fields)[j])
  {
    DeduplicateKeepsFirstOccurrenceOrder(CallerFields(fields) + Baseline);
  }

  /** Asking for `orders.id` and `extra.field` queries those two first, in
      that order, followed by the remaining baseline paths. */
  lemma NormalizedExample()
    ensures |NormalizeFields(Some(["orders.id", "extra.field"]))| >= 2
    ensures NormalizeFields(Some(["orders.id", "extra.field"]))[..2] == ["orders.id", "extra.field"]
  {
    var given := ["orders.id", "extra.field"];
    DeduplicateOfNoDup(given);
    NormalizedStartsWithCallerFields(Some(given));
  }

  /** The arguments of the remote query: the `order_set` entry point, the
      normalised fields and the caller's variables, untouched. */
  function OrderSetQuery<V>(input: WorkflowInput<V>): (q: RemoteQueryArgs<V>)
    ensures q.entryPoint == "order_set"
    ensures q.fields == NormalizeFields(input.fields)
    ensures q.variables == input.variables
  {
    RemoteQueryArgs(OrderSetEntryPoint, NormalizeFields(input.fields), input.variables)
  }
}
