/** `selectVisible`: the expenses the page shows, after the active filters. */
module Selectors {
  import opened Domain
  import opened Aggregation
  import Seqs

  /** The date filter applies when both bounds are set (`startDate && endDate`). */
  predicate DateFilterActive(f: Filter) {
    f.startDate.Some? && f.endDate.Some?
  }

  /** The category filter applies when the category is truthy (set and not empty). */
  predicate CategoryFilterActive(f: Filter) {
    Truthy(f.category)
  }

  /** Whether `e` passes every active filter: the conjunction of the two filters. */
  predicate Shows(f: Filter, e: Expense) {
    && (DateFilterActive(f) ==> f.startDate.value <= e.date <= f.endDate.value)
    && (CategoryFilterActive(f) ==> e.category == f.category.value)
  }

  function ShownBy(f: Filter): Expense -> bool {
    (e: Expense) => Shows(f, e)
  }

  /** `selectVisible`: the date-range filter first, when active, then the category filter,
      when active. The result is the expenses passing both, in list order. */
  function SelectVisible(s: State): (r: seq<Expense>)
    ensures r == Seqs.Filter(ShownBy(s.filter), s.expenses)
    ensures forall e :: e in r <==> e in s.expenses && Shows(s.filter, e)
    ensures Seqs.IsSubsequence(r, s.expenses)
    ensures !DateFilterActive(s.filter) && !CategoryFilterActive(s.filter) ==> r == s.expenses
  {
    var f := s.filter;
    var dated := if DateFilterActive(f)
      then ExpensesByDateRange(s.expenses, f.startDate.value, f.endDate.value)
      else s.expenses;
    var r := if CategoryFilterActive(f) then Seqs.Filter(InCategory(f.category.value), dated) else dated;
    VisibleIsOneFilter(s);
    Seqs.FilterIsSubsequence(ShownBy(f), s.expenses);
    r
  }

  /** The two stages of `selectVisible` amount to a single filter by `Shows`. */
  lemma VisibleIsOneFilter(s: State)
    ensures var f := s.filter;
            var dated := if DateFilterActive(f)
              then ExpensesByDateRange(s.expenses, f.startDate.value, f.endDate.value)
              else s.expenses;
            (if CategoryFilterActive(f) then Seqs.Filter(InCategory(f.category.value), dated) else dated)
            == Seqs.Filter(ShownBy(f), s.expenses)
  {
    var f := s.filter;
    var xs := s.expenses;
    if DateFilterActive(f) && CategoryFilterActive(f) {
      Seqs.FilterConjunction(InRange(f.startDate.value, f.endDate.value), InCategory(f.category.value), ShownBy(f), xs);
    } else if DateFilterActive(f) {
      Seqs.FilterCongruent(InRange(f.startDate.value, f.endDate.value), ShownBy(f), xs);
    } else if CategoryFilterActive(f) {
      Seqs.FilterCongruent(InCategory(f.category.value), ShownBy(f), xs);
    } else {
      Seqs.FilterKeepsAll(ShownBy(f), xs);
    }
  }

  /** With only a category filter, the visible total is that category's amount in the
      breakdown over the whole list. */
  lemma VisibleTotalIsCategoryTotal(s: State)
    requires !DateFilterActive(s.filter) && CategoryFilterActive(s.filter)
    ensures Total(SelectVisible(s)) == CategoryTotal(s.expenses, s.filter.category.value)
  {
  }

  /** With only a date filter, the visible total is the period total of that range. */
  lemma VisibleTotalIsPeriodTotal(s: State)
    requires DateFilterActive(s.filter) && !CategoryFilterActive(s.filter)
    ensures Total(SelectVisible(s)) == PeriodTotal(s.expenses, s.filter.startDate.value, s.filter.endDate.value)
  {
  }
}
