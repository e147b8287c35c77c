/** The state of the App component: the selected day, the per-day drafts,
    the cached settlement history and the error banner, with the user actions
    that change them. Each action is one atomic step; the outcome of a call to
    the receipt extractor or the history store is a parameter. */
module App {
  import opened Types
  import opened Calculator
  import opened Seqs
  import opened History
  import opened Drafts

  /** The cause of the error message the app shows. */
  datatype Failure = AnalysisFailed | SaveFailed | DeleteFailed

  class AppState {
    var selectedDate: string
    var drafts: map<string, seq<ReceiptItem>>
    var history: seq<SettlementRecord>
    var error: Option<Failure>

    /** Start on `today`, with whatever the local cache held (`None`: nothing saved). */
    constructor (today: string, savedDrafts: Option<map<string, seq<ReceiptItem>>>,
                 savedHistory: Option<seq<SettlementRecord>>)
      ensures selectedDate == today
      ensures drafts == if savedDrafts.Some? then savedDrafts.value else map[]
      ensures history == if savedHistory.Some? then savedHistory.value else []
      ensures error == None
    {
      selectedDate := today;
      drafts := if savedDrafts.Some? then savedDrafts.value else map[];
      history := if savedHistory.Some? then savedHistory.value else [];
      error := None;
    }

    /** The selected day's draft. */
    function Items(): seq<ReceiptItem>
      reads this
    {
      ItemsFor(drafts, selectedDate)
    }

    /** The selected month already has settled records. */
    predicate HistoryMode()
      reads this
      ensures HistoryMode() <==> exists h :: h in history && StartsWith(h.date, MonthKey(selectedDate))
    {
      IsHistoryMode(history, selectedDate)
    }

    /** The day view's totals. */
    function DayTotals(): (r: CalculationResult)
      reads this
      ensures r.huanTotal + r.yanTotal == r.total
    {
      TotalsBalanced(Items());
      Totals(Items())
    }

    /** The month view's totals. */
    function MonthTotals(): (r: CalculationResult)
      reads this
      ensures r == MaskedSum(history, MonthPrefix(selectedDate))
    {
      MonthlyTotalsIsMaskedSum(history, selectedDate);
      MonthlyTotals(history, selectedDate)
    }

    /** Picking a date in the date input. */
    method SelectDate(date: string)
      modifies this
      ensures selectedDate == date
      ensures drafts == old(drafts) && history == old(history) && error == old(error)
    {
      selectedDate := date;
    }

    /** The sync on mount: a fetched history replaces the cache; on failure the cache stays. */
    method SyncHistory(fetched: Option<seq<SettlementRecord>>)
      modifies this
      ensures history == if fetched.Some? then fetched.value else old(history)
      ensures selectedDate == old(selectedDate) && drafts == old(drafts) && error == old(error)
    {
      if fetched.Some? {
        history := fetched.value;
      }
    }

    /** `setItems`: replace the selected day's draft and no other. */
    method SetItems(newItems: seq<ReceiptItem>)
      modifies this
      ensures drafts == old(drafts)[selectedDate := newItems]
      ensures Items() == newItems
      ensures forall d :: d != selectedDate ==>
                (d in drafts <==> d in old(drafts)) && (d in drafts ==> drafts[d] == old(drafts)[d])
      ensures selectedDate == old(selectedDate) && history == old(history) && error == old(error)
    {
      drafts := drafts[selectedDate := newItems];
    }

    /** `handleFileUpload`: with no file nothing happens; otherwise the error is
        cleared and the extracted items, each with a fresh id and payer 桓, go
        after the draft's items, or the failure is reported and the draft kept. */
    method UploadReceipt(hasFile: bool, extracted: Option<seq<ExtractedItem>>, ids: seq<string>)
      requires extracted.Some? ==> |ids| == |extracted.value|
      modifies this
      ensures !hasFile ==> drafts == old(drafts) && error == old(error)
      ensures hasFile && extracted.Some? ==>
                drafts == old(drafts)[selectedDate := old(Items()) + NewItems(extracted.value, ids)] &&
                error == None
      ensures hasFile && extracted.None? ==> drafts == old(drafts) && error == Some(AnalysisFailed)
      ensures selectedDate == old(selectedDate) && history == old(history)
    {
      if !hasFile {
        return;
      }
      error := None;
      if extracted.Some? {
        SetItems(Items() + NewItems(extracted.value, ids));
      } else {
        error := Some(AnalysisFailed);
      }
    }

    /** `updateItem`: ignored in history mode; otherwise every item with the id is patched. */
    method UpdateItem(id: string, patch: ItemPatch)
      modifies this
      ensures old(HistoryMode()) ==> drafts == old(drafts)
      ensures !old(HistoryMode()) ==> drafts == old(drafts)[selectedDate := UpdateById(old(Items()), id, patch)]
      ensures selectedDate == old(selectedDate) && history == old(history) && error == old(error)
    {
      if HistoryMode() {
        return;
      }
      SetItems(UpdateById(Items(), id, patch));
    }

    /** `removeItem`: ignored in history mode; otherwise every item with the id is dropped. */
    method RemoveItem(id: string)
      modifies this
      ensures old(HistoryMode()) ==> drafts == old(drafts)
      ensures !old(HistoryMode()) ==> drafts == old(drafts)[selectedDate := WithoutItem(old(Items()), id)]
      ensures selectedDate == old(selectedDate) && history == old(history) && error == old(error)
    {
      if HistoryMode() {
        return;
      }
      SetItems(WithoutItem(Items(), id));
    }

    /** `clearItems`: a non-empty draft is emptied once the user confirms. */
    method ClearItems(confirmed: bool)
      modifies this
      ensures old(Items()) != [] && confirmed ==> drafts == old(drafts)[selectedDate := []]
      ensures old(Items()) == [] || !confirmed ==> drafts == old(drafts)
      ensures selectedDate == old(selectedDate) && history == old(history) && error == old(error)
    {
      if |Items()| == 0 {
        return;
      }
      if confirmed {
        SetItems([]);
      }
    }

    /** `completeSettlement`: a confirmed, non-empty draft becomes a record with
        the fresh id `recordId`; only when the store saves it is the record put
        in front of the history and the draft emptied. */
    method CompleteSettlement(confirmed: bool, recordId: string, saved: bool)
      modifies this
      ensures old(Items()) == [] || !confirmed ==>
                drafts == old(drafts) && history == old(history) && error == old(error)
      ensures old(Items()) != [] && confirmed && saved ==>
                var t := Totals(old(Items()));
                && history == [SettlementRecord(recordId, selectedDate, t.huanTotal, t.yanTotal, t.total,
                                                |old(Items())|, old(Items()))] + old(history)
                && StoredBalanced(history[0])
                && drafts == old(drafts)[selectedDate := []]
                && error == old(error)
      ensures old(Items()) != [] && confirmed && !saved ==>
                drafts == old(drafts) && history == old(history) && error == Some(SaveFailed)
      ensures selectedDate == old(selectedDate)
    {
      var items := Items();
      if |items| == 0 {
        return;
      }
      if !confirmed {
        return;
      }
      var currentTotals := ComputeTotals(items);
      var record := SettlementRecord(recordId, selectedDate, currentTotals.huanTotal,
                                     currentTotals.yanTotal, currentTotals.total, |items|, items);
      if saved {
        history := [record] + history;
        SetItems([]);
      } else {
        error := Some(SaveFailed);
      }
    }

    /** `deleteHistoryRecord`: once confirmed, a successful delete in the store
        removes every record with the id from the cache; a failure keeps it. */
    method DeleteHistoryRecord(id: string, confirmed: bool, deleted: bool)
      modifies this
      ensures !confirmed ==> history == old(history) && error == old(error)
      ensures confirmed && deleted ==> history == WithoutRecord(old(history), id) && error == old(error)
      ensures confirmed && !deleted ==> history == old(history) && error == Some(DeleteFailed)
      ensures selectedDate == old(selectedDate) && drafts == old(drafts)
    {
      if !confirmed {
        return;
      }
      if deleted {
        history := WithoutRecord(history, id);
      } else {
        error := Some(DeleteFailed);
      }
    }
  }

  /** A day settled with a coffee for 桓 and a split snack stores 201 / 50 / 251
      and both items; a receipt uploaded afterwards fills the emptied draft and
      leaves the stored record as it was saved. */
  method SettleCoffeeAndSnack(app: AppState)
    modifies app
    ensures |app.history| == |old(app.history)| + 1
    ensures app.history[1..] == old(app.history)
    ensures app.history[0] == SettlementRecord("r1", old(app.selectedDate), 201, 50, 251, 2,
                                               [ReceiptItem("c", "Coffee", 150, Huan),
                                                ReceiptItem("s", "Snack", 101, Split)])
    ensures app.Items() == [ReceiptItem("t", "Tea", 40, Huan)]
  {
    var coffee := ReceiptItem("c", "Coffee", 150, Huan);
    var snack := ReceiptItem("s", "Snack", 101, Split);
    app.SetItems([coffee, snack]);
    CoffeeAndSnackExample(coffee, snack);
    app.CompleteSettlement(true, "r1", true);
    var record := app.history[0];
    assert record.huanTotal == 201 && record.yanTotal == 50 && record.grandTotal == 251;
    assert record.itemCount == 2 && record.items == [coffee, snack];
    assert app.Items() == [];
    app.UploadReceipt(true, Some([ExtractedItem("Tea", 40)]), ["t"]);
  }
}
