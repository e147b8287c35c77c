/** The records of the receipt assistant (types.ts) and the three-way totals
    that the split calculator and the monthly aggregator both produce. */
module Types {

  datatype Option<+T> = None | Some(value: T)

  /** Who pays for an item: 桓 (Huan), 妍 (Yan) or 平分 (split between the two). */
  datatype Payer = Huan | Yan | Split

  /** One line of a receipt; amounts are integers in the smallest currency unit. */
  datatype ReceiptItem = ReceiptItem(id: string, name: string, amount: int, payer: Payer)

  /** What the receipt extractor returns for one line: a name and an amount. */
  datatype ExtractedItem = ExtractedItem(name: string, amount: int)

  /** `Partial<ReceiptItem>`: every field that is present overrides the item's. */
  datatype ItemPatch = ItemPatch(id: Option<string>, name: Option<string>,
                                 amount: Option<int>, payer: Option<Payer>)

  datatype CalculationResult = CalculationResult(huanTotal: int, yanTotal: int, total: int)

  /** A settled day: its stored totals and a snapshot of its items. */
  datatype SettlementRecord = SettlementRecord(id: string, date: string,
                                               huanTotal: int, yanTotal: int, grandTotal: int,
                                               itemCount: int, items: seq<ReceiptItem>)

  const Zero := CalculationResult(0, 0, 0)

  /** Componentwise sum of two totals. */
  function Add(a: CalculationResult, b: CalculationResult): CalculationResult {
    CalculationResult(a.huanTotal + b.huanTotal, a.yanTotal + b.yanTotal, a.total + b.total)
  }

  /** The two shares add up to the total. */
  predicate Balanced(r: CalculationResult) {
    r.huanTotal + r.yanTotal == r.total
  }

  /** Left fold of `f` over `s` with `Add`, starting from `Zero`: the shape of both
      the `forEach` accumulation and the `reduce` in the source. */
  function Sum<T>(s: seq<T>, f: T -> CalculationResult): CalculationResult
    decreases |s|
  {
    if s == [] then Zero else Add(Sum(s[..|s| - 1], f), f(s[|s| - 1]))
  }

  lemma {:induction false} SumConcat<T>(a: seq<T>, b: seq<T>, f: T -> CalculationResult)
    ensures Sum(a + b, f) == Add(Sum(a, f), Sum(b, f))
    decreases |b|
  {
    if b == [] {
      assert a + b == a;
    } else {
      var n := |b| - 1;
      assert (a + b)[..|a + b| - 1] == a + b[..n];
      assert (a + b)[|a + b| - 1] == b[n];
      SumConcat(a, b[..n], f);
    }
  }

  lemma SumSingleton<T>(x: T, f: T -> CalculationResult)
    ensures Sum([x], f) == f(x)
  {
    assert [x][..0] == [];
  }

  /** If every element contributes a balanced share, the sum is balanced. */
  lemma {:induction false} SumBalanced<T>(s: seq<T>, f: T -> CalculationResult)
    requires forall x :: x in s ==> Balanced(f(x))
    ensures Balanced(Sum(s, f))
    decreases |s|
  {
    if s != [] {
      var n := |s| - 1;
      assert forall x :: x in s[..n] ==> x in s;
      assert s[n] in s;
      SumBalanced(s[..n], f);
    }
  }

  /** The sum around one position: what comes before it, the element, what comes after. */
  lemma SumAround<T>(b: seq<T>, j: nat, f: T -> CalculationResult)
    requires j < |b|
    ensures Sum(b, f) == Add(Add(Sum(b[..j], f), f(b[j])), Sum(b[j + 1..], f))
  {
    var left, mid, right := b[..j], [b[j]], b[j + 1..];
    assert b == (left + mid) + right;
    SumConcat(left + mid, right, f);
    SumConcat(left, mid, f);
    SumSingleton(b[j], f);
  }

  /** Taking one element out of the sequence takes its contribution out of the sum. */
  lemma SumRemoveAt<T>(b: seq<T>, j: nat, f: T -> CalculationResult)
    requires j < |b|
    ensures Sum(b, f) == Add(Sum(b[..j] + b[j + 1..], f), f(b[j]))
  {
    var left, right := b[..j], b[j + 1..];
    SumAround(b, j, f);
    SumConcat(left, right, f);
    assert Sum(b, f) == Add(Add(Sum(left, f), f(b[j])), Sum(right, f));
    assert Sum(left + right, f) == Add(Sum(left, f), Sum(right, f));
  }

  /** The order of the elements does not affect the sum. */
  lemma {:induction false} SumPermutation<T>(a: seq<T>, b: seq<T>, f: T -> CalculationResult)
    requires multiset(a) == multiset(b)
    ensures Sum(a, f) == Sum(b, f)
    decreases |a|
  {
    if a == [] {
      assert |b| == |multiset(b)| == 0;
    } else {
      var n := |a| - 1;
      var x := a[n];
      assert x in multiset(b) by {
        assert a == a[..n] + [x];
      }
      var j :| 0 <= j < |b| && b[j] == x;
      var rest := b[..j] + b[j + 1..];
      assert multiset(a[..n]) == multiset(rest) by {
        assert a == a[..n] + [x];
        assert b == b[..j] + [x] + b[j + 1..];
        assert multiset(a[..n]) == multiset(a) - multiset{x};
        assert multiset(rest) == multiset(b[..j]) + multiset(b[j + 1..]);
        assert multiset(rest) == multiset(b) - multiset{x};
      }
      SumPermutation(a[..n], rest, f);
      SumRemoveAt(b, j, f);
    }
  }
}
