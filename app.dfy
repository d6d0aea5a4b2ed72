/** The application around the reducers: the add-or-update step of `addTransaction`,
    loading the saved list, and the module-level `state` binding that `updateApp`
    reassigns (with the stored copy of the list it keeps in step). */
module App {
  import opened Wrappers
  import opened Domain
  import opened Aggregation
  import opened Reducer
  import opened Validation

  /** `addTransaction` as a transition: read the form; on invalid input leave the state
      alone; otherwise update the entry being edited (when `editingId` is truthy) or
      append the new one, and in both cases stop editing. */
  function SubmitTransaction(s: State, input: FormInput, freshId: Id): (r: State)
    ensures GetInputs(input, freshId).None? ==> r == s
    ensures GetInputs(input, freshId).Some? ==> r.editingId == None
    ensures r.filter == s.filter
    ensures GetInputs(input, freshId).Some? && !Truthy(s.editingId) ==>
              r.expenses == s.expenses + [GetInputs(input, freshId).value]
    ensures GetInputs(input, freshId).Some? && Truthy(s.editingId) ==>
              && |r.expenses| == |s.expenses|
              && (forall i :: 0 <= i < |s.expenses| && s.expenses[i].id != s.editingId.value ==>
                    r.expenses[i] == s.expenses[i])
              && (forall i :: 0 <= i < |s.expenses| && s.expenses[i].id == s.editingId.value ==>
                    r.expenses[i] == GetInputs(input, freshId).value)
  {
    match GetInputs(input, freshId)
    case None => s
    case Some(entry) =>
      var next := if Truthy(s.editingId) then UpdateExpense(s, FullPatch(entry)) else AddExpense(s, entry);
      StopEditing(next)
  }

  /** Every entry the form can produce is well formed, and so the list stays well formed
      through any submission. */
  lemma SubmitKeepsEntriesWellFormed(s: State, input: FormInput, freshId: Id)
    requires forall e :: e in s.expenses ==> WellFormed(e)
    ensures forall e :: e in SubmitTransaction(s, input, freshId).expenses ==> WellFormed(e)
  {
  }

  /** A new entry (not an edit) raises the total by its amount, which is positive. */
  lemma SubmitNewRaisesTotal(s: State, input: FormInput, freshId: Id)
    requires GetInputs(input, freshId).Some? && !Truthy(s.editingId)
    ensures Total(SubmitTransaction(s, input, freshId).expenses)
         == Total(s.expenses) + GetInputs(input, freshId).value.amount
    ensures Total(SubmitTransaction(s, input, freshId).expenses) > Total(s.expenses)
  {
    AddRaisesTotal(s, GetInputs(input, freshId).value);
  }

  /** Deleting the entry that is being edited leaves `editingId` pointing at nothing; the
      next valid submission then updates no entry and appends nothing, so the input is
      lost and only the edit mode ends. */
  lemma SubmitAfterDeletingEditedEntry(s: State, id: Id, input: FormInput, freshId: Id)
    requires id != ""
    ensures var stale := DeleteExpense(StartEditing(s, id), id);
            SubmitTransaction(stale, input, freshId).expenses == stale.expenses
  {
  }

  /** What `localStorage.getItem("expenses")` can hand back: no item, the text
      "undefined", text that parses to a list, or text that does not parse. */
  datatype Stored = Missing | UndefinedText | Json(entries: seq<Expense>) | Malformed

  /** `loadSavedEntries`: the parsed list if there is one, the empty list otherwise. */
  function LoadSavedEntries(s: State, saved: Stored): (r: State)
    ensures saved.Json? ==> r.expenses == saved.entries
    ensures !saved.Json? ==> r.expenses == []
    ensures r.editingId == s.editingId && r.filter == s.filter
  {
    s.(expenses := if saved.Json? then saved.entries else [])
  }

  /** The running page: the `state` binding and the stored list. */
  class Tracker {
    var state: State
    var storage: Stored

    /** `updateApp` persists after every reassignment, so the stored list is the list in
        the state. */
    ghost predicate Valid()
      reads this
    {
      storage == Json(state.expenses)
    }

    /** Page load: `createInitialState`, then on DOMContentLoaded the saved entries are
        loaded and handed to `updateApp` (a malformed stored value is removed first and
        then overwritten by the persisted list). */
    constructor (saved: Stored)
      ensures Valid()
      ensures state == LoadSavedEntries(CreateInitialState(), saved)
    {
      var loaded := LoadSavedEntries(CreateInitialState(), saved);
      state := loaded;
      storage := Json(loaded.expenses);
    }

    /** `updateApp`: replace the state and persist its expense list. */
    method UpdateApp(newState: State)
      modifies this
      ensures Valid()
      ensures state == newState
    {
      state := newState;
      storage := Json(state.expenses);
    }

    /** `addTransaction`. */
    method AddTransaction(input: FormInput, freshId: Id)
      requires Valid()
      modifies this
      ensures Valid()
      ensures state == SubmitTransaction(old(state), input, freshId)
    {
      if GetInputs(input, freshId).None? {
        return;
      }
      UpdateApp(SubmitTransaction(state, input, freshId));
    }

    /** The list's delete button. */
    method DeleteClicked(id: Id)
      modifies this
      ensures Valid()
      ensures state == DeleteExpense(old(state), id)
    {
      UpdateApp(DeleteExpense(state, id));
    }

    /** The list's edit button. */
    method EditClicked(id: Id)
      modifies this
      ensures Valid()
      ensures state == StartEditing(old(state), id)
    {
      UpdateApp(StartEditing(state, id));
    }

    /** `filterByDateRange`: nothing happens unless both date inputs are filled. */
    method FilterByDateRange(startInput: Option<Day>, endInput: Option<Day>)
      requires Valid()
      modifies this
      ensures Valid()
      ensures state == if startInput.Some? && endInput.Some?
                       then ApplyDateRangeFilter(old(state), startInput.value, endInput.value)
                       else old(state)
    {
      if startInput.None? || endInput.None? {
        return;
      }
      UpdateApp(ApplyDateRangeFilter(state, startInput.value, endInput.value));
    }

    /** `filterByCategory`: nothing happens unless the button names a category. */
    method FilterByCategory(category: Option<string>)
      requires Valid()
      modifies this
      ensures Valid()
      ensures state == if Truthy(category) then ApplyCategoryFilter(old(state), category.value) else old(state)
    {
      if !Truthy(category) {
        return;
      }
      UpdateApp(ApplyCategoryFilter(state, category.value));
    }

    /** The clear-filters button. */
    method ClearFiltersClicked()
      modifies this
      ensures Valid()
      ensures state == ClearFilters(old(state))
    {
      UpdateApp(ClearFilters(state));
    }

    /** `resetExpenses`: empty the list (an already empty list is left as it is). */
    method ResetExpenses()
      requires Valid()
      modifies this
      ensures Valid()
      ensures state == Reducer.ResetExpenses(old(state))
    {
      if |state.expenses| != 0 {
        UpdateApp(Reducer.ResetExpenses(state));
      }
    }

    /** Reloading the page brings back the stored list; filters and edit mode, which are
        not stored, start out empty. */
    method Reload() returns (t: Tracker)
      requires Valid()
      ensures fresh(t) && t.Valid()
      ensures t.state.expenses == state.expenses
      ensures t.state.editingId == None && t.state.filter == NoFilter
    {
      t := new Tracker(storage);
    }
  }
}
