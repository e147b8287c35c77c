/** The split calculator: the `totals` computation of App.tsx folds the
    current day's items into what 桓 pays, what 妍 pays and the grand total. */
module Calculator {
  import opened Types

  /** `Math.ceil(a / 2)` for an integer `a`: the least `c` with `a <= 2 * c`. */
  function CeilHalf(a: int): (c: int)
    ensures a <= 2 * c <= a + 1
  {
    -((-a) / 2)
  }

  /** `Math.floor(a / 2)` for an integer `a`: the greatest `f` with `2 * f <= a`.
      Dafny's `/` rounds down when the divisor is positive. */
  function FloorHalf(a: int): (f: int)
    ensures a - 1 <= 2 * f <= a
  {
    a / 2
  }

  /** The two halves of a split amount add up to it; 桓 gets the odd unit. */
  lemma HalvesSplitExactly(a: int)
    ensures CeilHalf(a) + FloorHalf(a) == a
    ensures CeilHalf(a) - FloorHalf(a) == a % 2
    ensures 0 <= a ==> 0 <= FloorHalf(a) <= CeilHalf(a)
  {
  }

  /** What one item adds to the three accumulators: the whole amount to 桓 or
      to 妍, and for any other tag the ceiling half to 桓 and the floor half to 妍. */
  function Share(item: ReceiptItem): (r: CalculationResult)
    ensures r.total == item.amount
    ensures r.huanTotal + r.yanTotal == r.total
    ensures item.payer == Huan ==> r.yanTotal == 0
    ensures item.payer == Yan ==> r.huanTotal == 0
    ensures item.payer == Split ==> 0 <= r.huanTotal - r.yanTotal <= 1
  {
    if item.payer.Huan? then CalculationResult(item.amount, 0, item.amount)
    else if item.payer.Yan? then CalculationResult(0, item.amount, item.amount)
    else CalculationResult(CeilHalf(item.amount), FloorHalf(item.amount), item.amount)
  }

  /** The totals of a list of items, accumulated from the first item to the last. */
  function Totals(items: seq<ReceiptItem>): CalculationResult {
    Sum(items, Share)
  }

  /** The `forEach` loop of `totals`, updating three accumulators in place. */
  method ComputeTotals(items: seq<ReceiptItem>) returns (r: CalculationResult)
    ensures r == Totals(items)
    ensures r.huanTotal + r.yanTotal == r.total
  {
    var huanTotal, yanTotal, total := 0, 0, 0;
    var i := 0;
    while i < |items|
      invariant 0 <= i <= |items|
      invariant CalculationResult(huanTotal, yanTotal, total) == Totals(items[..i])
    {
      var item := items[i];
      total := total + item.amount;
      if item.payer == Huan {
        huanTotal := huanTotal + item.amount;
      } else if item.payer == Yan {
        yanTotal := yanTotal + item.amount;
      } else {
        var huanPart := CeilHalf(item.amount);
        var yanPart := FloorHalf(item.amount);
        huanTotal := huanTotal + huanPart;
        yanTotal := yanTotal + yanPart;
      }
      assert items[..i + 1][..i] == items[..i];
      i := i + 1;
    }
    assert items[..i] == items;
    r := CalculationResult(huanTotal, yanTotal, total);
    TotalsBalanced(items);
  }

  /** The sum of the amounts, independent of payers. */
  function SumAmounts(items: seq<ReceiptItem>): int
    decreases |items|
  {
    if items == [] then 0 else items[0].amount + SumAmounts(items[1..])
  }

  /** An empty list has all-zero totals. */
  lemma TotalsEmpty()
    ensures Totals([]) == Zero
  {
  }

  /** 桓's and 妍's totals always add up to the grand total. */
  lemma {:induction false} TotalsBalanced(items: seq<ReceiptItem>)
    ensures Totals(items).huanTotal + Totals(items).yanTotal == Totals(items).total
  {
    SumBalanced(items, Share);
  }

  /** Totals of a concatenation are the sum of the totals of the parts. */
  lemma TotalsAppend(a: seq<ReceiptItem>, b: seq<ReceiptItem>)
    ensures Totals(a + b) == Add(Totals(a), Totals(b))
  {
    SumConcat(a, b, Share);
  }

  /** The grand total is the sum of all amounts, whoever pays. */
  lemma {:induction false} TotalsGrandIsSumOfAmounts(items: seq<ReceiptItem>)
    ensures Totals(items).total == SumAmounts(items)
    decreases |items|
  {
    if items != [] {
      assert items == [items[0]] + items[1..];
      TotalsAppend([items[0]], items[1..]);
      SumSingleton(items[0], Share);
      TotalsGrandIsSumOfAmounts(items[1..]);
    }
  }

  /** The order of the items does not affect the totals. */
  lemma TotalsOrderIrrelevant(a: seq<ReceiptItem>, b: seq<ReceiptItem>)
    requires multiset(a) == multiset(b)
    ensures Totals(a) == Totals(b)
  {
    SumPermutation(a, b, Share);
  }

  /** If 桓 pays for every item, 桓's total is the whole sum and 妍 owes nothing. */
  lemma {:induction false} TotalsAllHuan(items: seq<ReceiptItem>)
    requires forall i :: 0 <= i < |items| ==> items[i].payer == Huan
    ensures Totals(items) == CalculationResult(SumAmounts(items), 0, SumAmounts(items))
    decreases |items|
  {
    if items != [] {
      assert items == [items[0]] + items[1..];
      TotalsAppend([items[0]], items[1..]);
      SumSingleton(items[0], Share);
      TotalsAllHuan(items[1..]);
    }
  }

  /** A split 101 goes 51 to 桓 and 50 to 妍; an even 100 goes 50 and 50. */
  lemma SplitExamples()
    ensures Share(ReceiptItem("s", "Snack", 101, Split)) == CalculationResult(51, 50, 101)
    ensures Share(ReceiptItem("s", "Snack", 100, Split)) == CalculationResult(50, 50, 100)
  {
  }

  /** The totals of a two-item list are the two items' shares added up. */
  lemma TotalsOfPair(a: ReceiptItem, b: ReceiptItem)
    ensures Totals([a, b]) == Add(Share(a), Share(b))
  {
    assert [a, b] == [a] + [b];
    TotalsAppend([a], [b]);
    SumSingleton(a, Share);
    SumSingleton(b, Share);
  }

  /** Coffee 150 paid by 桓 and a split snack of 101 give 201 / 50 / 251. */
  lemma CoffeeAndSnackExample(coffee: ReceiptItem, snack: ReceiptItem)
    requires coffee.amount == 150 && coffee.payer == Huan
    requires snack.amount == 101 && snack.payer == Split
    ensures Totals([coffee, snack]) == CalculationResult(201, 50, 251)
  {
    TotalsOfPair(coffee, snack);
    var c, s := Share(coffee), Share(snack);
    assert c.huanTotal == 150 && c.yanTotal == 0 && c.total == 150;
    assert s.total == 101;
    assert s.huanTotal == CeilHalf(101) == 51;
    assert s.yanTotal == 50;
  }
}
