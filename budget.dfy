/**
 * The budget summary: a fold over a project's budget items that adds every
 * income item's amount to `allocated` and every other item's amount to
 * `spent`. Amounts are integer cents, so the sums are exact.
 */
module Budget {
  import opened Schema
  import opened Tables

  /** The `{allocated, spent}` result; `allocated` is a Dafny keyword, hence `allocation`. */
  datatype Summary = Summary(allocation: Cents, spent: Cents)

  const Zero: Summary := Summary(0, 0)

  /** Field-by-field sum of two summaries. */
  function Plus(a: Summary, b: Summary): Summary {
    Summary(a.allocation + b.allocation, a.spent + b.spent)
  }

  /** The accumulator step for one item: income is allocated, anything else is spent. */
  function Step(acc: Summary, item: BudgetItem): Summary {
    if item.kind == Income
    then Summary(acc.allocation + item.amount, acc.spent)
    else Summary(acc.allocation, acc.spent + item.amount)
  }

  /** `items.reduce(Step, {allocated: 0, spent: 0})`, a left fold. */
  function Summarize(items: seq<BudgetItem>): Summary
    decreases |items|
  {
    if |items| == 0 then Zero
    else Step(Summarize(items[..|items| - 1]), items[|items| - 1])
  }

  // -------------------------------------- independent reference definitions

  predicate IsIncome(item: BudgetItem) { item.kind == Income }
  predicate IsNotIncome(item: BudgetItem) { item.kind != Income }

  /** The sum of the amounts, accumulated from the front. */
  function Total(items: seq<BudgetItem>): Cents
    decreases |items|
  {
    if |items| == 0 then 0 else items[0].amount + Total(items[1..])
  }

  lemma {:induction false} TotalAppend(a: seq<BudgetItem>, b: seq<BudgetItem>)
    ensures Total(a + b) == Total(a) + Total(b)
    decreases |a|
  {
    if |a| == 0 {
      assert a + b == b;
    } else {
      assert (a + b)[1..] == a[1..] + b;
      TotalAppend(a[1..], b);
    }
  }

  // ------------------------------------------------------------ properties

  /** No items: nothing allocated, nothing spent. */
  lemma SummarizeEmpty()
    ensures Summarize([]) == Summary(0, 0)
  {
  }

  /** One item puts its whole amount in the bucket its type selects. */
  lemma SummarizeOne(item: BudgetItem)
    ensures Summarize([item]) ==
      if item.kind == Income then Summary(item.amount, 0) else Summary(0, item.amount)
  {
    assert [item][..0] == [];
  }

  /** Folding one more item into a sum of two summaries only touches the second. */
  lemma StepPlus(x: Summary, y: Summary, item: BudgetItem)
    ensures Step(Plus(x, y), item) == Plus(x, Step(y, item))
  {
  }

  /** The summary of a concatenation is the field-by-field sum of the summaries. */
  lemma {:induction false} SummarizeAppend(a: seq<BudgetItem>, b: seq<BudgetItem>)
    ensures Summarize(a + b) == Plus(Summarize(a), Summarize(b))
    decreases |b|
  {
    if |b| == 0 {
      assert a + b == a;
    } else {
      var ab := a + b;
      var b', last := b[..|b| - 1], b[|b| - 1];
      assert ab[..|ab| - 1] == a + b';
      assert ab[|ab| - 1] == last;
      assert Summarize(ab) == Step(Summarize(a + b'), last);
      assert Summarize(b) == Step(Summarize(b'), last);
      SummarizeAppend(a, b');
      StepPlus(Summarize(a), Summarize(b'), last);
    }
  }

  /** Allocated is the total of the income items; spent is the total of all others. */
  lemma {:induction false} SummarizeIsBucketTotals(items: seq<BudgetItem>)
    ensures Summarize(items).allocation == Total(Filter(items, IsIncome))
    ensures Summarize(items).spent == Total(Filter(items, IsNotIncome))
    decreases |items|
  {
    if |items| > 0 {
      var init, last := items[..|items| - 1], items[|items| - 1];
      assert items == init + [last];
      SummarizeIsBucketTotals(init);
      FilterAppendOne(init, last, IsIncome);
      FilterAppendOne(init, last, IsNotIncome);
      TotalAppend(Filter(init, IsIncome), [last]);
      TotalAppend(Filter(init, IsNotIncome), [last]);
      assert Total([last]) == last.amount;
    }
  }

  /** Every cent of every item lands in exactly one bucket. */
  lemma {:induction false} SummarizeConservesTotal(items: seq<BudgetItem>)
    ensures Summarize(items).allocation + Summarize(items).spent == Total(items)
    decreases |items|
  {
    if |items| > 0 {
      var init, last := items[..|items| - 1], items[|items| - 1];
      assert items == init + [last];
      SummarizeConservesTotal(init);
      TotalAppend(init, [last]);
      assert Total([last]) == last.amount;
    }
  }

  lemma PlusSwap(x: Summary, y: Summary, z: Summary)
    ensures Plus(Plus(x, y), z) == Plus(Plus(x, z), y)
  {
  }

  /** A sequence is what comes before `k`, the item at `k`, and what comes after. */
  lemma SplitAround(b: seq<BudgetItem>, k: nat)
    requires k < |b|
    ensures b == (b[..k] + [b[k]]) + b[k + 1..]
  {
  }

  /** Taking the item at `k` out of the sequence takes its contribution out of the summary. */
  lemma SummarizeRemove(b: seq<BudgetItem>, k: nat)
    requires k < |b|
    ensures Summarize(b) == Plus(Summarize(b[..k] + b[k + 1..]), Summarize([b[k]]))
  {
    var p, m, q := b[..k], [b[k]], b[k + 1..];
    SplitAround(b, k);
    calc {
      Summarize(b);
      { SummarizeAppend(p + m, q); }
      Plus(Summarize(p + m), Summarize(q));
      { SummarizeAppend(p, m); }
      Plus(Plus(Summarize(p), Summarize(m)), Summarize(q));
      { PlusSwap(Summarize(p), Summarize(m), Summarize(q)); }
      Plus(Plus(Summarize(p), Summarize(q)), Summarize(m));
      { SummarizeAppend(p, q); }
      Plus(Summarize(p + q), Summarize(m));
    }
  }

  /** Removing one occurrence of the same item from equal multisets leaves equal multisets. */
  lemma MultisetRemove(a': seq<BudgetItem>, x: BudgetItem, b: seq<BudgetItem>, k: nat)
    requires k < |b| && b[k] == x
    requires multiset(a' + [x]) == multiset(b)
    ensures multiset(a') == multiset(b[..k] + b[k + 1..])
  {
    SplitAround(b, k);
    calc {
      multiset(b[..k] + b[k + 1..]);
      multiset(b[..k]) + multiset(b[k + 1..]);
      multiset(b) - multiset{x};
      multiset(a' + [x]) - multiset{x};
      multiset(a');
    }
  }

  /** Reordering the items does not change the summary. */
  lemma {:induction false} SummarizePermutation(a: seq<BudgetItem>, b: seq<BudgetItem>)
    requires multiset(a) == multiset(b)
    ensures Summarize(a) == Summarize(b)
    decreases |a|
  {
    if |a| == 0 {
      assert |b| == |multiset(b)| == 0;
    } else {
      var a', x := a[..|a| - 1], a[|a| - 1];
      assert a == a' + [x];
      assert x in multiset(b);
      var k :| 0 <= k < |b| && b[k] == x;
      MultisetRemove(a', x, b, k);
      SummarizePermutation(a', b[..k] + b[k + 1..]);
      SummarizeRemove(b, k);
      SummarizeAppend(a', [x]);
    }
  }

  /** Swapping two partitions does not change the summary. */
  lemma SummarizeCommutes(a: seq<BudgetItem>, b: seq<BudgetItem>)
    ensures Summarize(a + b) == Summarize(b + a)
  {
    SummarizeAppend(a, b);
    SummarizeAppend(b, a);
  }
}
