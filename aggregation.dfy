/** Derived figures over a list of expenses: the total, the expenses of a date range
    (and the period totals built from them) and the per-category breakdown drawn as the
    donut chart. */
module Aggregation {
  import opened Domain
  import Seqs

  /** `getTotalExpenses`: `reduce((sum, e) => sum + e.amount, 0)`, a left fold. */
  function Total(xs: seq<Expense>): (r: real)
    ensures xs == [] ==> r == 0.0
    ensures |xs| == 1 ==> r == xs[0].amount
    decreases |xs|
  {
    if xs == [] then 0.0 else Total(xs[..|xs| - 1]) + xs[|xs| - 1].amount
  }

  /** The total of two lists laid end to end is the sum of their totals. */
  lemma {:induction false} TotalAppend(a: seq<Expense>, b: seq<Expense>)
    ensures Total(a + b) == Total(a) + Total(b)
    decreases |b|
  {
    if b == [] {
      assert a + b == a;
    } else {
      var n := |b| - 1;
      assert (a + b)[..|a + b| - 1] == a + b[..n];
      assert (a + b)[|a + b| - 1] == b[n];
      TotalAppend(a, b[..n]);
    }
  }

  /** Folding from the front gives the same total as the source's left fold. */
  lemma TotalCons(e: Expense, xs: seq<Expense>)
    ensures Total([e] + xs) == e.amount + Total(xs)
  {
    TotalAppend([e], xs);
    assert [e][..0] == [];
  }

  /** Splitting a list by any predicate splits its total: what `p` keeps plus what it drops. */
  lemma {:induction false} TotalPartition(p: Expense -> bool, q: Expense -> bool, xs: seq<Expense>)
    requires forall e :: q(e) == !p(e)
    ensures Total(Seqs.Filter(p, xs)) + Total(Seqs.Filter(q, xs)) == Total(xs)
    decreases |xs|
  {
    if xs == [] {
    } else {
      TotalPartition(p, q, xs[1..]);
      TotalCons(xs[0], xs[1..]);
      assert xs == [xs[0]] + xs[1..];
      if p(xs[0]) {
        TotalCons(xs[0], Seqs.Filter(p, xs[1..]));
      } else {
        TotalCons(xs[0], Seqs.Filter(q, xs[1..]));
      }
    }
  }

  /** With every amount positive (as validated input guarantees) the total is positive
      exactly when the list is not empty. */
  lemma {:induction false} TotalPositive(xs: seq<Expense>)
    requires forall e :: e in xs ==> e.amount > 0.0
    ensures Total(xs) >= 0.0
    ensures Total(xs) > 0.0 <==> xs != []
    decreases |xs|
  {
    if xs != [] {
      var n := |xs| - 1;
      forall e | e in xs[..n] ensures e.amount > 0.0 { assert e in xs; }
      assert xs[n] in xs;
      TotalPositive(xs[..n]);
    }
  }

  /** The filter predicate of `getExpensesByDateRange`: `start <= date <= end`. */
  function InRange(start: Day, end: Day): Expense -> bool {
    (e: Expense) => start <= e.date && e.date <= end
  }

  /** `getExpensesByDateRange`: the expenses dated within the inclusive range, in list order. */
  function ExpensesByDateRange(xs: seq<Expense>, start: Day, end: Day): (r: seq<Expense>)
    ensures forall e :: e in r <==> e in xs && start <= e.date <= end
    ensures forall e :: multiset(r)[e] == if start <= e.date <= end then multiset(xs)[e] else 0
    ensures Seqs.IsSubsequence(r, xs)
    ensures start > end ==> r == []
  {
    Seqs.FilterIsSubsequence(InRange(start, end), xs);
    Seqs.FilterCounts(InRange(start, end), xs);
    Seqs.Filter(InRange(start, end), xs)
  }

  /** With positive amounts, what a filter keeps totals between zero and the whole. */
  lemma FilterTotalBounded(p: Expense -> bool, xs: seq<Expense>)
    requires forall e :: e in xs ==> e.amount > 0.0
    ensures 0.0 <= Total(Seqs.Filter(p, xs)) <= Total(xs)
  {
    var q := (e: Expense) => !p(e);
    TotalPartition(p, q, xs);
    TotalPositive(Seqs.Filter(p, xs));
    TotalPositive(Seqs.Filter(q, xs));
  }

  /** The total over an inclusive day range: what `getMonthlyTotal` and `getWeeklyTotal`
      compute over the range they aim at (their local-time bounds are not modelled). */
  function PeriodTotal(xs: seq<Expense>, first: Day, last: Day): (r: real)
    ensures first > last ==> r == 0.0
    ensures xs == [] ==> r == 0.0
  {
    Total(ExpensesByDateRange(xs, first, last))
  }

  /** With positive amounts, a period's total lies between zero and the whole total. */
  lemma PeriodTotalBounded(xs: seq<Expense>, first: Day, last: Day)
    requires forall e :: e in xs ==> e.amount > 0.0
    ensures 0.0 <= PeriodTotal(xs, first, last) <= Total(xs)
  {
    FilterTotalBounded(InRange(first, last), xs);
  }

  /** Two adjacent periods together total what the period spanning both totals. */
  lemma {:induction false} PeriodTotalSplit(xs: seq<Expense>, first: Day, mid: Day, last: Day)
    requires first <= mid <= last
    ensures PeriodTotal(xs, first, mid) + PeriodTotal(xs, mid + 1, last) == PeriodTotal(xs, first, last)
    decreases |xs|
  {
    if xs != [] {
      PeriodTotalSplit(xs[1..], first, mid, last);
      var e := xs[0];
      assert xs == [e] + xs[1..];
      if first <= e.date <= mid {
        TotalCons(e, ExpensesByDateRange(xs[1..], first, mid));
        TotalCons(e, ExpensesByDateRange(xs[1..], first, last));
      } else if mid + 1 <= e.date <= last {
        TotalCons(e, ExpensesByDateRange(xs[1..], mid + 1, last));
        TotalCons(e, ExpensesByDateRange(xs[1..], first, last));
      }
    }
  }

  /** A period that covers every expense's date totals the whole list. */
  lemma PeriodTotalCoveringAll(xs: seq<Expense>, first: Day, last: Day)
    requires forall e :: e in xs ==> first <= e.date <= last
    ensures PeriodTotal(xs, first, last) == Total(xs)
  {
    Seqs.FilterKeepsAll(InRange(first, last), xs);
  }

  /** Membership in one category: `e.category === category`. */
  function InCategory(category: string): Expense -> bool {
    (e: Expense) => e.category == category
  }

  /** What one category adds up to: the total of the entries in that category. */
  function CategoryTotal(xs: seq<Expense>, category: string): (r: real)
    ensures xs == [] ==> r == 0.0
    ensures |xs| == 1 ==> r == if xs[0].category == category then xs[0].amount else 0.0
  {
    Total(Seqs.Filter(InCategory(category), xs))
  }

  /** With positive amounts, a category's sum lies between zero and the whole total. */
  lemma CategoryTotalBounded(xs: seq<Expense>, category: string)
    requires forall e :: e in xs ==> e.amount > 0.0
    ensures 0.0 <= CategoryTotal(xs, category) <= Total(xs)
  {
    FilterTotalBounded(InCategory(category), xs);
  }

  /** The distinct categories of `xs` in the order they first occur (the breakdown's keys). */
  function Categories(xs: seq<Expense>): (r: seq<string>)
    ensures forall c :: c in r <==> exists i :: 0 <= i < |xs| && xs[i].category == c
    ensures forall i, j :: 0 <= i < j < |r| ==> r[i] != r[j]
    decreases |xs|
  {
    if xs == [] then []
    else
      var seen := Categories(xs[..|xs| - 1]);
      var c := xs[|xs| - 1].category;
      if c in seen then seen else seen + [c]
  }

  /** The position of the first entry of category `c` (which must occur). */
  function FirstSeen(xs: seq<Expense>, c: string): (k: nat)
    requires c in Categories(xs)
    ensures k < |xs| && xs[k].category == c
    ensures forall i :: 0 <= i < k ==> xs[i].category != c
    decreases |xs|
  {
    if xs[0].category == c then 0
    else
      var i :| 0 <= i < |xs| && xs[i].category == c;
      assert xs[1..][i - 1].category == c;
      1 + FirstSeen(xs[1..], c)
  }

  /** The breakdown's keys are ordered by where each category first appears. */
  lemma {:induction false} CategoriesInFirstSeenOrder(xs: seq<Expense>, i: int, j: int)
    requires 0 <= i < j < |Categories(xs)|
    ensures FirstSeen(xs, Categories(xs)[i]) < FirstSeen(xs, Categories(xs)[j])
    decreases |xs|
  {
    var ks := Categories(xs);
    var n := |xs| - 1;
    var init := xs[..n];
    var seen := Categories(init);
    var ci, cj := ks[i], ks[j];
    assert ci in ks && cj in ks;
    if j < |seen| {
      assert ks[i] == seen[i] && ks[j] == seen[j];
      CategoriesInFirstSeenOrder(init, i, j);
      FirstSeenOfPrefix(xs, n, ci);
      FirstSeenOfPrefix(xs, n, cj);
    } else {
      // cj is the category of the last entry, seen there for the first time.
      assert cj == xs[n].category && cj !in seen;
      assert ci == seen[i] && ci in seen;
      FirstSeenOfPrefix(xs, n, ci);
      forall k | 0 <= k < n ensures xs[k].category != cj {
        assert init[k] == xs[k];
      }
    }
  }

  /** A category occurring within the first `n` entries has its first position there. */
  lemma FirstSeenOfPrefix(xs: seq<Expense>, n: nat, c: string)
    requires n <= |xs|
    requires c in Categories(xs[..n])
    ensures c in Categories(xs)
    ensures FirstSeen(xs[..n], c) == FirstSeen(xs, c)
  {
  }

  /** One more entry changes only its own category's total, and by its amount. */
  lemma CategoryTotalSnoc(xs: seq<Expense>, e: Expense, c: string)
    ensures CategoryTotal(xs + [e], c) == CategoryTotal(xs, c) + (if e.category == c then e.amount else 0.0)
  {
    Seqs.FilterAppend(InCategory(c), xs, [e]);
    TotalAppend(Seqs.Filter(InCategory(c), xs), Seqs.Filter(InCategory(c), [e]));
    assert [e][1..] == [];
  }

  /** A category with no entries totals zero. */
  lemma CategoryTotalAbsent(xs: seq<Expense>, c: string)
    requires c !in Categories(xs)
    ensures CategoryTotal(xs, c) == 0.0
  {
    forall e | e in xs ensures !InCategory(c)(e) {
      var i :| 0 <= i < |xs| && xs[i] == e;
    }
    Seqs.FilterKeepsNone(InCategory(c), xs);
  }

  /** The sum, over the given keys, of each key's category total in `xs`. */
  function SumOfCategories(keys: seq<string>, xs: seq<Expense>): real
    decreases |keys|
  {
    if keys == [] then 0.0
    else SumOfCategories(keys[..|keys| - 1], xs) + CategoryTotal(xs, keys[|keys| - 1])
  }

  /** Summing over distinct keys, a new entry is counted once if its category is a key
      and not at all otherwise. */
  lemma {:induction false} SumOfCategoriesSnoc(keys: seq<string>, xs: seq<Expense>, e: Expense)
    requires forall i, j :: 0 <= i < j < |keys| ==> keys[i] != keys[j]
    ensures SumOfCategories(keys, xs + [e])
         == SumOfCategories(keys, xs) + (if e.category in keys then e.amount else 0.0)
    decreases |keys|
  {
    if keys != [] {
      var n := |keys| - 1;
      var init := keys[..n];
      SumOfCategoriesSnoc(init, xs, e);
      CategoryTotalSnoc(xs, e, keys[n]);
      assert keys == init + [keys[n]];
      if e.category in init {
        var i :| 0 <= i < n && init[i] == e.category;
        assert keys[i] == e.category;
      }
    }
  }

  /** The breakdown's amounts add up to the overall total: every entry is counted in
      exactly one category. */
  lemma {:induction false} BreakdownSumsToTotal(xs: seq<Expense>)
    ensures SumOfCategories(Categories(xs), xs) == Total(xs)
    decreases |xs|
  {
    if xs != [] {
      var n := |xs| - 1;
      var init, e := xs[..n], xs[n];
      var seen := Categories(init);
      assert xs == init + [e];
      BreakdownSumsToTotal(init);
      SumOfCategoriesSnoc(seen, init, e);
      if e.category !in seen {
        var keys := seen + [e.category];
        assert keys[..|keys| - 1] == seen;
        CategoryTotalAbsent(init, e.category);
        CategoryTotalSnoc(init, e, e.category);
      }
    }
  }

  /** The sum of a breakdown's values, visited in key order. */
  function SumValues(keys: seq<string>, amounts: map<string, real>): real
    requires forall k :: k in keys ==> k in amounts
    decreases |keys|
  {
    if keys == [] then 0.0
    else SumValues(keys[..|keys| - 1], amounts) + amounts[keys[|keys| - 1]]
  }

  lemma {:induction false} SumValuesOfTotals(keys: seq<string>, amounts: map<string, real>, xs: seq<Expense>)
    requires forall k :: k in keys ==> k in amounts && amounts[k] == CategoryTotal(xs, k)
    ensures SumValues(keys, amounts) == SumOfCategories(keys, xs)
    decreases |keys|
  {
    if keys != [] {
      var n := |keys| - 1;
      assert keys[n] in keys;
      forall k | k in keys[..n] ensures k in amounts && amounts[k] == CategoryTotal(xs, k) {
        assert k in keys;
      }
      SumValuesOfTotals(keys[..n], amounts, xs);
    }
  }

  /** `keys` and `amounts` are the breakdown object of `xs`: its key order and its values. */
  ghost predicate Accumulates(keys: seq<string>, amounts: map<string, real>, xs: seq<Expense>) {
    && keys == Categories(xs)
    && (forall c :: c in amounts <==> c in keys)
    && (forall c :: c in amounts ==> amounts[c] == CategoryTotal(xs, c))
  }

  /** The accumulator step that adds to a truthy (non-zero) running sum. */
  lemma AccumulateAdd(keys: seq<string>, amounts: map<string, real>, xs: seq<Expense>, e: Expense)
    requires Accumulates(keys, amounts, xs)
    requires e.category in amounts
    ensures Accumulates(keys, amounts[e.category := amounts[e.category] + e.amount], xs + [e])
  {
    forall c ensures CategoryTotal(xs + [e], c) == CategoryTotal(xs, c) + (if e.category == c then e.amount else 0.0) {
      CategoryTotalSnoc(xs, e, c);
    }
    assert (xs + [e])[..|xs|] == xs;
  }

  /** The accumulator step that assigns the amount: the category is new (and goes last
      among the keys) or its running sum is zero. */
  lemma AccumulateSet(keys: seq<string>, amounts: map<string, real>, xs: seq<Expense>, e: Expense)
    requires Accumulates(keys, amounts, xs)
    requires e.category in amounts ==> amounts[e.category] == 0.0
    ensures Accumulates(if e.category in amounts then keys else keys + [e.category],
                        amounts[e.category := e.amount], xs + [e])
  {
    forall c ensures CategoryTotal(xs + [e], c) == CategoryTotal(xs, c) + (if e.category == c then e.amount else 0.0) {
      CategoryTotalSnoc(xs, e, c);
    }
    if e.category !in keys {
      CategoryTotalAbsent(xs, e.category);
    }
    assert (xs + [e])[..|xs|] == xs;
  }

  /** `getCategoryBreakdown`: one pass over the expenses, adding each amount to its
      category's running sum in an accumulator object. `keys` is the object's key order
      (a new key goes last; assigning an existing key keeps its place). */
  method GetCategoryBreakdown(expenses: seq<Expense>) returns (keys: seq<string>, amounts: map<string, real>)
    ensures keys == Categories(expenses)
    ensures forall c :: c in amounts <==> c in keys
    ensures forall c :: c in amounts ==> amounts[c] == CategoryTotal(expenses, c)
    ensures SumValues(keys, amounts) == Total(expenses)
  {
    keys, amounts := [], map[];
    var i := 0;
    while i < |expenses|
      invariant 0 <= i <= |expenses|
      invariant Accumulates(keys, amounts, expenses[..i])
    {
      var e := expenses[i];
      assert expenses[..i + 1] == expenses[..i] + [e];
      if e.category in amounts && amounts[e.category] != 0.0 {
        AccumulateAdd(keys, amounts, expenses[..i], e);
        amounts := amounts[e.category := amounts[e.category] + e.amount];
      } else {
        AccumulateSet(keys, amounts, expenses[..i], e);
        if e.category !in amounts {
          keys := keys + [e.category];
        }
        amounts := amounts[e.category := e.amount];
      }
      i := i + 1;
    }
    assert expenses[..i] == expenses;
    SumValuesOfTotals(keys, amounts, expenses);
    BreakdownSumsToTotal(expenses);
  }
}
