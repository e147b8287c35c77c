/** The value-level edits App.tsx makes to the current day's item list:
    appending extracted items, `updateItem`'s map and `removeItem`'s filter. */
module Drafts {
  import opened Types
  import opened Seqs
  import opened Calculator

  /** `drafts[selectedDate] || []`: a date without a draft has no items. */
  function ItemsFor(drafts: map<string, seq<ReceiptItem>>, date: string): seq<ReceiptItem> {
    if date in drafts then drafts[date] else []
  }

  /** The extracted lines as receipt items: each gets the next fresh id from
      `ids` (standing for `crypto.randomUUID()`) and payer 桓. */
  function NewItems(extracted: seq<ExtractedItem>, ids: seq<string>): (r: seq<ReceiptItem>)
    requires |ids| == |extracted|
    ensures |r| == |extracted|
    ensures forall i :: 0 <= i < |r| ==>
              r[i] == ReceiptItem(ids[i], extracted[i].name, extracted[i].amount, Huan)
    decreases |extracted|
  {
    if extracted == [] then []
    else [ReceiptItem(ids[0], extracted[0].name, extracted[0].amount, Huan)]
         + NewItems(extracted[1..], ids[1..])
  }

  /** Appending extracted items adds their whole sum to 桓 and nothing to 妍. */
  lemma AppendedTotals(items: seq<ReceiptItem>, extracted: seq<ExtractedItem>, ids: seq<string>)
    requires |ids| == |extracted|
    ensures Totals(items + NewItems(extracted, ids)) ==
            Add(Totals(items), CalculationResult(SumAmounts(NewItems(extracted, ids)), 0,
                                                 SumAmounts(NewItems(extracted, ids))))
  {
    TotalsAppend(items, NewItems(extracted, ids));
    TotalsAllHuan(NewItems(extracted, ids));
  }

  /** `{ ...item, ...updates }`: the fields present in the patch win. */
  function Patched(item: ReceiptItem, patch: ItemPatch): (r: ReceiptItem)
    ensures patch == ItemPatch(None, None, None, None) ==> r == item
    ensures patch.id.Some? ==> r.id == patch.id.value
    ensures patch.id.None? ==> r.id == item.id
    ensures patch.name.Some? ==> r.name == patch.name.value
    ensures patch.name.None? ==> r.name == item.name
    ensures patch.amount.Some? ==> r.amount == patch.amount.value
    ensures patch.amount.None? ==> r.amount == item.amount
    ensures patch.payer.Some? ==> r.payer == patch.payer.value
    ensures patch.payer.None? ==> r.payer == item.payer
  {
    ReceiptItem(
      if patch.id.Some? then patch.id.value else item.id,
      if patch.name.Some? then patch.name.value else item.name,
      if patch.amount.Some? then patch.amount.value else item.amount,
      if patch.payer.Some? then patch.payer.value else item.payer)
  }

  /** Applying the same patch twice is the same as applying it once. */
  lemma PatchedIdempotent(item: ReceiptItem, patch: ItemPatch)
    ensures Patched(Patched(item, patch), patch) == Patched(item, patch)
  {
  }

  /** `items.map(item => item.id === id ? { ...item, ...updates } : item)`. */
  function UpdateById(items: seq<ReceiptItem>, id: string, patch: ItemPatch): (r: seq<ReceiptItem>)
    ensures |r| == |items|
    ensures forall i :: 0 <= i < |items| ==>
              r[i] == if items[i].id == id then Patched(items[i], patch) else items[i]
    decreases |items|
  {
    if items == [] then []
    else [if items[0].id == id then Patched(items[0], patch) else items[0]]
         + UpdateById(items[1..], id, patch)
  }

  /** An id that no item carries leaves the list as it is. */
  lemma UpdateByIdNoMatch(items: seq<ReceiptItem>, id: string, patch: ItemPatch)
    requires forall i :: 0 <= i < |items| ==> items[i].id != id
    ensures UpdateById(items, id, patch) == items
  {
  }

  /** Changing a payer moves shares between 桓 and 妍 but never the grand total. */
  lemma UpdatePayerKeepsGrandTotal(items: seq<ReceiptItem>, id: string, payer: Payer)
    ensures Totals(UpdateById(items, id, ItemPatch(None, None, None, Some(payer)))).total
            == Totals(items).total
  {
    var r := UpdateById(items, id, ItemPatch(None, None, None, Some(payer)));
    TotalsGrandIsSumOfAmounts(items);
    TotalsGrandIsSumOfAmounts(r);
    SameAmountsSameSum(items, r);
  }

  /** Two lists whose amounts agree position by position have the same sum. */
  lemma {:induction false} SameAmountsSameSum(a: seq<ReceiptItem>, b: seq<ReceiptItem>)
    requires |a| == |b|
    requires forall i :: 0 <= i < |a| ==> a[i].amount == b[i].amount
    ensures SumAmounts(a) == SumAmounts(b)
    decreases |a|
  {
    if a != [] {
      SameAmountsSameSum(a[1..], b[1..]);
    }
  }

  /** `item => item.id !== id`. */
  function NotItemId(id: string): ReceiptItem -> bool {
    (item: ReceiptItem) => item.id != id
  }

  /** `items.filter(item => item.id !== id)`. */
  function WithoutItem(items: seq<ReceiptItem>, id: string): (r: seq<ReceiptItem>)
    ensures forall x :: x in r <==> x in items && x.id != id
  {
    Filter(items, NotItemId(id))
  }

  /** Removing drops every copy of an item with that id and keeps every copy of the others. */
  lemma WithoutItemCounts(items: seq<ReceiptItem>, id: string, x: ReceiptItem)
    ensures multiset(WithoutItem(items, id))[x] == if x.id != id then multiset(items)[x] else 0
  {
    FilterMultiset(items, NotItemId(id), x);
  }

  /** Removing keeps the remaining items in their order: it distributes over
      concatenation and leaves a list without that id untouched. */
  lemma WithoutItemKeepsOrder(a: seq<ReceiptItem>, b: seq<ReceiptItem>, id: string)
    ensures WithoutItem(a + b, id) == WithoutItem(a, id) + WithoutItem(b, id)
    ensures (forall x :: x in a ==> x.id != id) ==> WithoutItem(a, id) == a
  {
    FilterConcat(a, b, NotItemId(id));
    if forall x :: x in a ==> x.id != id {
      FilterKeepsAll(a, NotItemId(id));
    }
  }
}
