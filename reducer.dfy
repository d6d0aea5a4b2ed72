/** The state transitions of script.js: each takes a state and returns a new one built
    with object spread, leaving the input untouched. */
module Reducer {
  import opened Wrappers
  import opened Domain
  import opened Aggregation
  import opened Selectors
  import Seqs

  /** The map callback of `updateExpense`: the entry being edited gets the patch spread
      over it, every other entry is returned as it is. */
  function EditWith(editingId: Option<Id>, patch: Patch): Expense -> Expense {
    (e: Expense) => if editingId == Some(e.id) then Merge(e, patch) else e
  }

  /** `updateExpense`: apply `patch` to the entry whose id is `editingId`. */
  function UpdateExpense(s: State, patch: Patch): (r: State)
    ensures |r.expenses| == |s.expenses|
    ensures forall i :: 0 <= i < |s.expenses| && s.editingId != Some(s.expenses[i].id) ==>
              r.expenses[i] == s.expenses[i]
    ensures forall i :: 0 <= i < |s.expenses| && s.editingId == Some(s.expenses[i].id) ==>
              r.expenses[i] == Merge(s.expenses[i], patch)
    ensures (forall e :: e in s.expenses ==> s.editingId != Some(e.id)) ==> r.expenses == s.expenses
    ensures r.editingId == s.editingId && r.filter == s.filter
  {
    var r := s.(expenses := Seqs.Map(EditWith(s.editingId, patch), s.expenses));
    if forall e :: e in s.expenses ==> s.editingId != Some(e.id) then
      Seqs.MapFixed(EditWith(s.editingId, patch), s.expenses); r
    else r
  }

  /** `addExpense`: the new entry goes at the end. */
  function AddExpense(s: State, e: Expense): (r: State)
    ensures |r.expenses| == |s.expenses| + 1
    ensures r.expenses[..|s.expenses|] == s.expenses && r.expenses[|s.expenses|] == e
    ensures r.editingId == s.editingId && r.filter == s.filter
  {
    s.(expenses := s.expenses + [e])
  }

  /** The filter callback of `deleteExpense`: `exp.id !== id`. */
  function NotId(id: Id): Expense -> bool {
    (e: Expense) => e.id != id
  }

  /** `deleteExpense`: drop every entry with the given id, keeping the rest in order. */
  function DeleteExpense(s: State, id: Id): (r: State)
    ensures forall e :: e in r.expenses <==> e in s.expenses && e.id != id
    ensures forall e :: multiset(r.expenses)[e] == if e.id != id then multiset(s.expenses)[e] else 0
    ensures Seqs.IsSubsequence(r.expenses, s.expenses)
    ensures id !in Ids(r.expenses)
    ensures id !in Ids(s.expenses) ==> r.expenses == s.expenses
    ensures r.editingId == s.editingId && r.filter == s.filter
  {
    var r := s.(expenses := Seqs.Filter(NotId(id), s.expenses));
    Seqs.FilterIsSubsequence(NotId(id), s.expenses);
    Seqs.FilterCounts(NotId(id), s.expenses);
    if id !in Ids(s.expenses) then
      Seqs.FilterKeepsAll(NotId(id), s.expenses); r
    else r
  }

  /** `startEditing`: mark `id` as the entry being edited. */
  function StartEditing(s: State, id: Id): (r: State)
    ensures r.editingId == Some(id)
    ensures r.expenses == s.expenses && r.filter == s.filter
  {
    s.(editingId := Some(id))
  }

  /** `stopEditing`: nothing is being edited any more. */
  function StopEditing(s: State): (r: State)
    ensures r.editingId == None
    ensures r.expenses == s.expenses && r.filter == s.filter
  {
    s.(editingId := None)
  }

  /** `applyDateRangeFilter`: set both bounds, keep the category filter. */
  function ApplyDateRangeFilter(s: State, startDate: Day, endDate: Day): (r: State)
    ensures r.filter.startDate == Some(startDate) && r.filter.endDate == Some(endDate)
    ensures r.filter.category == s.filter.category
    ensures r.expenses == s.expenses && r.editingId == s.editingId
    ensures DateFilterActive(r.filter)
  {
    s.(filter := s.filter.(startDate := Some(startDate), endDate := Some(endDate)))
  }

  /** `applyCategoryFilter`: set the category, keep the date bounds. */
  function ApplyCategoryFilter(s: State, category: string): (r: State)
    ensures r.filter.category == Some(category)
    ensures r.filter.startDate == s.filter.startDate && r.filter.endDate == s.filter.endDate
    ensures r.expenses == s.expenses && r.editingId == s.editingId
    ensures CategoryFilterActive(r.filter) <==> category != ""
  {
    s.(filter := s.filter.(category := Some(category)))
  }

  /** `clearFilters`: all three filter fields back to null. */
  function ClearFilters(s: State): (r: State)
    ensures r.filter.startDate.None? && r.filter.endDate.None? && r.filter.category.None?
    ensures r.expenses == s.expenses && r.editingId == s.editingId
    ensures SelectVisible(r) == s.expenses
  {
    s.(filter := NoFilter)
  }

  /** The transition `resetExpenses` hands to `updateApp`: no expenses, the rest as it was. */
  function ResetExpenses(s: State): (r: State)
    ensures r.expenses == []
    ensures r.editingId == s.editingId && r.filter == s.filter
    ensures SelectVisible(r) == [] && Total(r.expenses) == 0.0
  {
    s.(expenses := [])
  }

  /** Deleting an entry just added, under an id no other entry has, undoes the addition. */
  lemma DeleteUndoesAdd(s: State, e: Expense)
    requires e.id !in Ids(s.expenses)
    ensures DeleteExpense(AddExpense(s, e), e.id) == s
  {
    Seqs.FilterAppend(NotId(e.id), s.expenses, [e]);
    Seqs.FilterKeepsAll(NotId(e.id), s.expenses);
    assert [e][1..] == [];
  }

  /** Adding an entry raises the total by exactly its amount. */
  lemma AddRaisesTotal(s: State, e: Expense)
    ensures Total(AddExpense(s, e).expenses) == Total(s.expenses) + e.amount
  {
  }

  /** Deleting the same id twice is the same as deleting it once. */
  lemma DeleteIdempotent(s: State, id: Id)
    ensures DeleteExpense(DeleteExpense(s, id), id) == DeleteExpense(s, id)
  {
  }

  /** The entries carrying an id. */
  function HasId(id: Id): Expense -> bool {
    (e: Expense) => e.id == id
  }

  /** Deleting lowers the total by exactly the amounts of the entries removed. */
  lemma DeleteLowersTotal(s: State, id: Id)
    ensures Total(DeleteExpense(s, id).expenses) == Total(s.expenses) - Total(Seqs.Filter(HasId(id), s.expenses))
  {
    TotalPartition(NotId(id), HasId(id), s.expenses);
  }

  /** An edit that keeps the entry's id touches nothing but that entry: deleting the
      edited entry afterwards leaves the same list as deleting it straight away. */
  lemma UpdateTouchesOnlyEditedEntry(s: State, patch: Patch)
    requires s.editingId.Some?
    requires patch.id.None?
    ensures DeleteExpense(UpdateExpense(s, patch), s.editingId.value).expenses
         == DeleteExpense(s, s.editingId.value).expenses
  {
    Seqs.FilterAfterMap(NotId(s.editingId.value), EditWith(s.editingId, patch), s.expenses);
  }

  /** The list-level step of `EditReplacesEntry`. */
  lemma {:induction false} ReplaceThenDelete(xs: seq<Expense>, k: Id, e: Expense)
    requires e.id !in Ids(xs)
    ensures Seqs.Filter(NotId(e.id), Seqs.Map(EditWith(Some(k), FullPatch(e)), xs))
         == Seqs.Filter(NotId(k), xs)
    decreases |xs|
  {
    if xs != [] {
      assert xs[0] in xs;
      assert Ids(xs[1..]) <= Ids(xs) by {
        forall x | x in xs[1..] ensures x in xs { }
      }
      ReplaceThenDelete(xs[1..], k, e);
      assert Seqs.Map(EditWith(Some(k), FullPatch(e)), xs)
          == [EditWith(Some(k), FullPatch(e))(xs[0])] + Seqs.Map(EditWith(Some(k), FullPatch(e)), xs[1..]);
    }
  }

  /** The edit the form makes (the complete new entry, under an id not yet in the list)
      replaces the edited entries by that one entry: removing it afterwards leaves the
      list as removing the edited entries beforehand. */
  lemma EditReplacesEntry(s: State, e: Expense)
    requires s.editingId.Some?
    requires e.id !in Ids(s.expenses)
    ensures DeleteExpense(UpdateExpense(s, FullPatch(e)), e.id).expenses
         == DeleteExpense(s, s.editingId.value).expenses
  {
    ReplaceThenDelete(s.expenses, s.editingId.value, e);
  }

  /** Stopping an edit forgets which entry was being edited, whatever it was. */
  lemma StopEditingForgetsStart(s: State, id: Id)
    ensures StopEditing(StartEditing(s, id)) == StopEditing(s)
  {
  }

  /** Clearing the filters erases any filter set before. */
  lemma ClearFiltersAfterApply(s: State, startDate: Day, endDate: Day, category: string)
    ensures ClearFilters(ApplyCategoryFilter(ApplyDateRangeFilter(s, startDate, endDate), category)) == ClearFilters(s)
  {
  }

  /** The date-range and category filters are independent: setting them in either order
      gives the same state. */
  lemma FilterSettersCommute(s: State, startDate: Day, endDate: Day, category: string)
    ensures ApplyCategoryFilter(ApplyDateRangeFilter(s, startDate, endDate), category)
         == ApplyDateRangeFilter(ApplyCategoryFilter(s, category), startDate, endDate)
  {
  }

  /** Choosing a category after clearing the filters shows exactly that category's
      entries, and their total is the category's amount in the breakdown. */
  lemma CategoryFilterShowsCategory(s: State, category: string)
    requires category != ""
    ensures var v := SelectVisible(ApplyCategoryFilter(ClearFilters(s), category));
            (forall e :: e in v <==> e in s.expenses && e.category == category) &&
            Total(v) == CategoryTotal(s.expenses, category)
  {
  }

  /** A worked case, with days counted from 1970-01-01: entries on 2024-03-01 (food, 100)
      and 2024-03-15 (transport, 50); the range 2024-03-10 to 2024-03-31 shows only the
      second, totalling 50, while the March period totals 150; the breakdown has the keys
      food then transport, with 100 and 50. */
  lemma MarchDateFilterExample()
    ensures var food := Expense("a1", "groceries", 100.0, "food", 19783);
            var bus := Expense("b2", "bus fare", 50.0, "transport", 19797);
            var s := ApplyDateRangeFilter(State([food, bus], None, NoFilter), 19792, 19813);
            && SelectVisible(s) == [bus]
            && Total(SelectVisible(s)) == 50.0
            && PeriodTotal(s.expenses, 19783, 19813) == 150.0
            && Categories(s.expenses) == ["food", "transport"]
            && CategoryTotal(s.expenses, "food") == 100.0
            && CategoryTotal(s.expenses, "transport") == 50.0
  {
  }
}
