/** The monthly aggregator and the history queries of App.tsx:
    `selectedHistoryRecords`, `isHistoryMode`, `monthlyTotals` and the
    filter that `deleteHistoryRecord` applies to the history list. */
module History {
  import opened Types
  import opened Seqs

  /** The totals a record stores, which are authoritative for the month view. */
  function Stored(r: SettlementRecord): CalculationResult {
    CalculationResult(r.huanTotal, r.yanTotal, r.grandTotal)
  }

  /** A record whose stored totals split its grand total between the two payers. */
  predicate StoredBalanced(r: SettlementRecord) {
    r.huanTotal + r.yanTotal == r.grandTotal
  }

  /** `h => h.date.startsWith(prefix)`. */
  function DatedWithin(prefix: string): SettlementRecord -> bool {
    (h: SettlementRecord) => StartsWith(h.date, prefix)
  }

  /** `h => h.id !== id`. */
  function NotWithId(id: string): SettlementRecord -> bool {
    (h: SettlementRecord) => h.id != id
  }

  /** The month key of `selectedHistoryRecords`: `selectedDate.substring(0, 7)`. */
  function MonthKey(date: string): (k: string)
    ensures |k| == (if |date| < 7 then |date| else 7) && StartsWith(date, k)
  {
    Take(date, 7)
  }

  /** The month key of `monthlyTotals`: `${year}-${month}` after
      `selectedDate.split('-')`; a missing month part prints as "undefined". */
  function MonthPrefix(date: string): string {
    var parts := SplitOn(date, '-');
    parts[0] + "-" + (if |parts| >= 2 then parts[1] else "undefined")
  }

  /** A calendar date in the form YYYY-MM-DD. */
  predicate IsoDate(date: string) {
    |date| == 10 && date[4] == '-' && date[7] == '-' &&
    forall i :: 0 <= i < 10 && i != 4 && i != 7 ==> '0' <= date[i] <= '9'
  }

  /** The records shown for the selected month. */
  function SelectedHistoryRecords(history: seq<SettlementRecord>, date: string): (r: seq<SettlementRecord>)
    ensures forall h :: h in r <==> h in history && StartsWith(h.date, MonthKey(date))
  {
    Filter(history, DatedWithin(MonthKey(date)))
  }

  /** `isHistoryMode`: the selected month has at least one settled record. */
  predicate IsHistoryMode(history: seq<SettlementRecord>, date: string)
    ensures IsHistoryMode(history, date) <==>
              exists h :: h in history && StartsWith(h.date, MonthKey(date))
  {
    var selected := SelectedHistoryRecords(history, date);
    assert selected != [] ==> selected[0] in selected;
    |selected| > 0
  }

  /** The records `monthlyTotals` adds up. */
  function MonthRecords(history: seq<SettlementRecord>, date: string): (r: seq<SettlementRecord>)
    ensures forall h :: h in r <==> h in history && StartsWith(h.date, MonthPrefix(date))
  {
    Filter(history, DatedWithin(MonthPrefix(date)))
  }

  /** `monthlyTotals`: the `reduce` over the stored totals of the month's records. */
  function MonthlyTotals(history: seq<SettlementRecord>, date: string): CalculationResult {
    Sum(MonthRecords(history, date), Stored)
  }

  /** Reference definition: every record contributes its stored totals when
      its date has the prefix, and nothing otherwise. */
  function MaskedSum(history: seq<SettlementRecord>, prefix: string): CalculationResult
    decreases |history|
  {
    if history == [] then Zero
    else Add(if StartsWith(history[0].date, prefix) then Stored(history[0]) else Zero,
             MaskedSum(history[1..], prefix))
  }

  /** Monthly totals are the componentwise sum of the stored totals of exactly
      the records whose date starts with the month prefix. */
  lemma {:induction false} MonthlyTotalsIsMaskedSum(history: seq<SettlementRecord>, date: string)
    ensures MonthlyTotals(history, date) == MaskedSum(history, MonthPrefix(date))
    decreases |history|
  {
    var keep := DatedWithin(MonthPrefix(date));
    if history != [] {
      var head := if keep(history[0]) then [history[0]] else [];
      assert Filter(history, keep) == head + Filter(history[1..], keep);
      SumConcat(head, Filter(history[1..], keep), Stored);
      if keep(history[0]) {
        SumSingleton(history[0], Stored);
      }
      MonthlyTotalsIsMaskedSum(history[1..], date);
    }
  }

  /** A month without records has all-zero totals. */
  lemma MonthlyTotalsNoMatch(history: seq<SettlementRecord>, date: string)
    requires forall h :: h in history ==> !StartsWith(h.date, MonthPrefix(date))
    ensures MonthlyTotals(history, date) == Zero
  {
    FilterKeepsNone(history, DatedWithin(MonthPrefix(date)));
  }

  /** The order of the history records does not affect the monthly totals. */
  lemma MonthlyTotalsOrderIrrelevant(h1: seq<SettlementRecord>, h2: seq<SettlementRecord>, date: string)
    requires multiset(h1) == multiset(h2)
    ensures MonthlyTotals(h1, date) == MonthlyTotals(h2, date)
  {
    var keep := DatedWithin(MonthPrefix(date));
    FilterPermutation(h1, h2, keep);
    SumPermutation(Filter(h1, keep), Filter(h2, keep), Stored);
  }

  /** When every record of the month stores balanced totals, so does the month. */
  lemma MonthlyTotalsBalanced(history: seq<SettlementRecord>, date: string)
    requires forall h :: h in history && StartsWith(h.date, MonthPrefix(date)) ==> StoredBalanced(h)
    ensures MonthlyTotals(history, date).huanTotal + MonthlyTotals(history, date).yanTotal
            == MonthlyTotals(history, date).total
  {
    SumBalanced(MonthRecords(history, date), Stored);
  }

  /** For a YYYY-MM-DD date both month keys are its first seven characters,
      so the month view and the history mode look at the same records. */
  lemma MonthPrefixOfIsoDate(date: string)
    requires IsoDate(date)
    ensures MonthPrefix(date) == MonthKey(date) == date[..7]
  {
    var year, month := date[..4], date[5..7];
    assert '-' !in year by {
      forall i | 0 <= i < 4 ensures year[i] != '-' { assert '0' <= date[i] <= '9'; }
    }
    assert '-' !in month by {
      forall i | 0 <= i < 2 ensures month[i] != '-' { assert '0' <= date[5 + i] <= '9'; }
    }
    assert date == year + ['-'] + date[5..];
    assert date[5..] == month + ['-'] + date[8..];
    SplitOnAtSeparator(year, '-', date[5..]);
    SplitOnAtSeparator(month, '-', date[8..]);
    assert date[..7] == year + "-" + month;
  }

  /** Hence, for a YYYY-MM-DD date, the records shown are exactly the ones summed. */
  lemma SelectedAreMonthRecords(history: seq<SettlementRecord>, date: string)
    requires IsoDate(date)
    ensures SelectedHistoryRecords(history, date) == MonthRecords(history, date)
  {
    MonthPrefixOfIsoDate(date);
  }

  /** An empty selected date: `substring(0, 7)` keeps every record while the
      split-based prefix becomes "-undefined". */
  lemma EmptyDateKeys()
    ensures MonthKey("") == ""
    ensures MonthPrefix("") == "-undefined"
  {
  }

  /** Records of 2024-03 are counted in March 2024; one of 2024-02-28 is not. */
  lemma MarchExample(mar1: SettlementRecord, mar2: SettlementRecord, feb: SettlementRecord, date: string)
    requires mar1.date == "2024-03-01" && mar2.date == "2024-03-31" && feb.date == "2024-02-28"
    requires date == "2024-03-15"
    ensures MonthRecords([mar1, feb, mar2], date) == [mar1, mar2]
  {
    assert IsoDate(date);
    MonthPrefixOfIsoDate(date);
    var keep := DatedWithin(MonthPrefix(date));
    assert MonthPrefix(date) == "2024-03";
    assert feb.date[..7][6] != "2024-03"[6];
    assert keep(mar1) && keep(mar2) && !keep(feb);
    assert [mar1, feb, mar2] == [mar1] + [feb] + [mar2];
    FilterConcat([mar1] + [feb], [mar2], keep);
    FilterConcat([mar1], [feb], keep);
  }

  /** The history after deleting `id`: every record with that id is gone. */
  function WithoutRecord(history: seq<SettlementRecord>, id: string): (r: seq<SettlementRecord>)
    ensures forall h :: h in r <==> h in history && h.id != id
  {
    Filter(history, NotWithId(id))
  }

  /** Deleting drops every copy of a record with that id and keeps every copy of the others. */
  lemma WithoutRecordCounts(history: seq<SettlementRecord>, id: string, h: SettlementRecord)
    ensures multiset(WithoutRecord(history, id))[h] == if h.id != id then multiset(history)[h] else 0
  {
    FilterMultiset(history, NotWithId(id), h);
  }

  /** Deleting keeps the other records in their order: it distributes over
      concatenation and leaves a history without that id untouched. */
  lemma WithoutRecordKeepsOrder(a: seq<SettlementRecord>, b: seq<SettlementRecord>, id: string)
    ensures WithoutRecord(a + b, id) == WithoutRecord(a, id) + WithoutRecord(b, id)
    ensures (forall h :: h in a ==> h.id != id) ==> WithoutRecord(a, id) == a
  {
    FilterConcat(a, b, NotWithId(id));
    if forall h :: h in a ==> h.id != id {
      FilterKeepsAll(a, NotWithId(id));
    }
  }
}
