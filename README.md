# Expense tracker core, modelled in Dafny

The expense tracker is a single-page browser app. The user adds, edits and deletes
expense entries. Each entry has an id, a description, an amount, a category and a date.
The user can narrow the list to a date range and/or a category. The app shows totals and
a per-category breakdown drawn as a donut chart.

This project models the logic part of `script.js`:

- the state record `{expenses, editingId, filter}` and the pure reducers that return a
  new state (`Domain`, `Reducer`);
- the visibility selector `selectVisible` (`Selectors`);
- the aggregations: the total, the expenses of a date range, the period totals built from
  them, and the category breakdown (`Aggregation`);
- the form check in `getInputs`, including JavaScript's `trim` (`Validation`);
- the add-or-update step of `addTransaction`, loading the saved list, and the
  module-level `state` binding that `updateApp` reassigns and persists (`App`, with the
  class `App.Tracker`).

The reducers, selector and aggregations are pure in the source, so they are Dafny
functions with lemmas. `getCategoryBreakdown` updates an accumulator object inside
`reduce`. It is a method with a loop, proved against the functions `Categories` and
`CategoryTotal`. The global `state` and its stored copy are the fields of
`App.Tracker`. Its methods are the event handlers that call `updateApp`.

Modelling choices:

- Dates are day numbers (`Domain.Day = int`), compared inclusively.
- Amounts are exact `real`s.
- Ids are opaque strings. The id of a new entry is passed in as `freshId`.
- `null` is `Option.None`.
- JavaScript truthiness is written out where the source relies on it (`Domain.Truthy`).
  An empty-string category filter is inactive. An empty-string `editingId` means
  "not editing".
- The accumulator's "falsy running sum" branch of `getCategoryBreakdown` is modelled as
  written: a running sum of exactly 0 is overwritten by the new amount rather than added
  to.

Behaviour of the code worth knowing, all of it modelled as written:

- `updateExpense` spreads its argument over the entry being edited (script.js:224). The
  only caller passes the complete new entry, including a freshly drawn id
  (script.js:520-526, 174). An edited entry is therefore replaced outright and receives a
  new id (`Domain.FullPatch`, `Reducer.EditReplacesEntry`).
- `deleteExpense` filters the list and leaves `editingId` as it is (script.js:237-242).
  Deleting the entry being edited therefore leaves `editingId` pointing at nothing. The
  next valid submission still takes the update branch (script.js:174), which matches no
  entry, so the input is lost (`App.SubmitAfterDeletingEditedEntry`).
- The category filter is tested for truthiness (script.js:601). An empty category string
  therefore filters nothing.
- `loadSavedEntries` removes a stored value that does not parse (script.js:403-408) and
  returns the empty list. The caller hands that to `updateApp` (script.js:56), which
  stores the empty list straight away (script.js:207, 210-216).

## Model

| member | source | states |
|---|---|---|
| Domain.CreateInitialState | script.js:2-12 | the initial state has no expenses, no entry being edited and all three filter fields null |
| Domain.Merge | script.js:224 | the object spread over an entry: an empty patch leaves the entry as it is, and a patch without an id keeps the entry's id |
| Domain.MergeTwice | script.js:224 | spreading the same patch twice is the same as spreading it once |
| Domain.FullPatch | script.js:224 | spreading the complete new entry over any existing entry yields exactly the new entry, id included |
| Seqs.Filter | script.js:240 | an element is in the result exactly when it is in the input and passes the predicate, and the result is never longer |
| Seqs.Map | script.js:222-226 | mapping keeps the length and transforms each position independently |
| Seqs.FilterCounts | script.js:240 | the result holds every copy of each element that passes and no copy of one that does not |
| Seqs.FilterAppend | script.js:240 | filtering distributes over concatenation, so relative order is kept |
| Seqs.FilterIsSubsequence | script.js:240 | a filtered list is a subsequence of the input |
| Seqs.FilterConjunction | script.js:591-603 | filtering by one predicate and then another equals filtering once by their conjunction (the filters compose with AND) |
| Seqs.FilterKeepsAll | script.js:240 | a filter returns the list unchanged exactly when every element passes |
| Seqs.FilterIdempotent | script.js:240 | applying the same filter twice equals applying it once |
| Seqs.FilterAfterMap | script.js:222-226 | a map that changes only elements a filter drops, and never whether an element passes, is invisible to that filter |
| Seqs.MapFixed | script.js:222-226 | a map whose callback returns every element unchanged returns the list unchanged |
| Aggregation.Total | script.js:556-559 | getTotalExpenses, the left-fold sum of the amounts: 0 for the empty list, the amount itself for a single entry |
| Aggregation.TotalAppend | script.js:556-559 | the total of a concatenation is the sum of the totals |
| Aggregation.TotalCons | script.js:558 | folding from the front agrees with the source's left fold |
| Aggregation.TotalPartition | script.js:556-559 | the totals of what a predicate keeps and what it drops add up to the whole total |
| Aggregation.TotalPositive | script.js:556-559 | with positive amounts the total is non-negative, and positive exactly when the list is non-empty |
| Aggregation.FilterTotalBounded | script.js:556-559 | with positive amounts, whatever a filter keeps totals between 0 and the whole total |
| Aggregation.ExpensesByDateRange | script.js:561-567 | every copy of an entry dated within the inclusive range is kept and no other entry, in list order (a subsequence); an inverted range yields nothing |
| Aggregation.PeriodTotal | script.js:569-582 | the total of the entries in an inclusive day range, as getTotalExpenses of getExpensesByDateRange: 0 for an inverted range or an empty list |
| Aggregation.PeriodTotalBounded | script.js:569-582 | with positive amounts, a period's total lies between 0 and the whole total |
| Aggregation.PeriodTotalSplit | script.js:569-582 | the totals of two adjacent periods add up to the total of the period spanning both |
| Aggregation.PeriodTotalCoveringAll | script.js:569-582 | a period covering every entry's date totals the whole list |
| Aggregation.CategoryTotal | script.js:507-513 | the value a category gets in the breakdown, the total of that category's entries: 0 for the empty list; for a single entry, its amount in its own category and 0 in any other |
| Aggregation.CategoryTotalBounded | script.js:507-513 | with positive amounts, a category's sum lies between 0 and the whole total |
| Aggregation.Categories | script.js:506-515 | the breakdown's keys are exactly the categories occurring in the list, each once |
| Aggregation.FirstSeen | script.js:506-515 | locates the first entry of a category occurring in the list |
| Aggregation.CategoriesInFirstSeenOrder | script.js:506-515 | the breakdown's keys are ordered by where each category first appears |
| Aggregation.CategoryTotalSnoc | script.js:507-513 | one more entry changes only its own category's sum, and by its amount |
| Aggregation.CategoryTotalAbsent | script.js:510-511 | a category with no entries sums to zero, so the falsy branch's assignment equals adding to zero |
| Aggregation.SumOfCategoriesSnoc | script.js:507-513 | summing over distinct keys counts a new entry once if its category is a key, else not at all |
| Aggregation.BreakdownSumsToTotal | script.js:506-515 | the category sums add up to getTotalExpenses of the same list |
| Aggregation.SumValuesOfTotals | script.js:671-672 | summing a breakdown object's values in key order equals summing the category totals |
| Aggregation.AccumulateAdd | script.js:508-509 | adding to a truthy running sum keeps the accumulator equal to the breakdown of the list so far |
| Aggregation.AccumulateSet | script.js:510-511 | assigning a new or zero running sum keeps the accumulator equal to the breakdown; a new key goes last |
| Aggregation.GetCategoryBreakdown | script.js:506-515 | the loop returns keys equal to the first-seen categories, each mapped to its category total, with values summing to the overall total |
| Selectors.SelectVisible | script.js:585-606 | the visible list is the entries passing the active date range (both bounds set) AND the active category, in list order; with no active filter it is the full list |
| Selectors.VisibleIsOneFilter | script.js:591-603 | the two filtering stages amount to one filter by the conjunction |
| Selectors.VisibleTotalIsCategoryTotal | script.js:601-603 | with only a category filter, the visible total is that category's breakdown amount |
| Selectors.VisibleTotalIsPeriodTotal | script.js:592-598 | with only a date filter, the visible total is the period total of that range |
| Reducer.UpdateExpense | script.js:218-228 | the length is kept; entries whose id is not editingId are unchanged; the edited entry gets the patch over its fields; with no match the list is unchanged; editingId and filter are untouched |
| Reducer.AddExpense | script.js:230-235 | the list grows by one, the old entries are a prefix in order, the new one is last; editingId and filter are untouched |
| Reducer.DeleteExpense | script.js:237-242 | every copy of an entry with another id is kept and no entry with the id remains, in the original order (a subsequence); an absent id leaves the list unchanged; editingId and filter are untouched |
| Reducer.StartEditing | script.js:244-249 | only editingId changes, to the given id |
| Reducer.StopEditing | script.js:251-256 | only editingId changes, to null |
| Reducer.ApplyDateRangeFilter | script.js:258-267 | sets both date bounds, keeps the category filter, touches nothing else; the date filter is then active |
| Reducer.ApplyCategoryFilter | script.js:269-277 | sets the category, keeps both date bounds, touches nothing else; the filter is active exactly when the category is non-empty |
| Reducer.ClearFilters | script.js:279-288 | all three filter fields become null, nothing else changes, and every entry becomes visible |
| Reducer.ResetExpenses | script.js:298-300 | the list becomes empty, editingId and filter are kept, nothing is visible and the total is zero |
| Reducer.DeleteUndoesAdd | script.js:230-242 | deleting a just-added entry by its id (unused before) restores the previous state |
| Reducer.AddRaisesTotal | script.js:230-235 | adding an entry raises the total by its amount |
| Reducer.DeleteIdempotent | script.js:237-242 | deleting the same id twice equals deleting it once |
| Reducer.DeleteLowersTotal | script.js:237-242 | deleting lowers the total by exactly the amounts of the removed entries |
| Reducer.UpdateTouchesOnlyEditedEntry | script.js:218-228 | an id-preserving update changes nothing outside the edited entry: deleting that entry afterwards gives the same list as deleting it beforehand |
| Reducer.EditReplacesEntry | script.js:218-228 | the form's edit (the complete new entry under an id not yet used) stands in for the edited entries: deleting it afterwards leaves the list as deleting the edited entries beforehand |
| Reducer.StopEditingForgetsStart | script.js:244-256 | stopping an edit discards whichever entry was being edited |
| Reducer.ClearFiltersAfterApply | script.js:258-288 | clearing erases any date range and category set before |
| Reducer.FilterSettersCommute | script.js:258-277 | setting the date range and the category in either order gives the same state |
| Reducer.CategoryFilterShowsCategory | script.js:269-288 | after clearing and choosing a non-empty category, exactly that category's entries are visible and their total is the category's breakdown amount |
| Reducer.MarchDateFilterExample | script.js:585-606 | a concrete two-entry list, filtered to a date range holding only its second entry, shows that entry and totals its amount; its breakdown keys are food then transport, with 100 and 50 |
| Validation.IsWhitespace | script.js:522 | the characters `trim` removes, the ECMAScript white space and line terminators: space, tab, line feed, carriage return, no-break space and the byte-order mark among them, and no printable ASCII character |
| Validation.TrimStart | script.js:522 | drops exactly a leading run of whitespace; the rest starts with non-whitespace |
| Validation.TrimEnd | script.js:522 | drops exactly a trailing run of whitespace; the rest ends with non-whitespace |
| Validation.Trim | script.js:522 | the result is a slice of the text with only whitespace before and after it; it is empty exactly when the text is all whitespace, and otherwise starts and ends with non-whitespace |
| Validation.GetInputs | script.js:517-534 | an entry is returned exactly when the description has a non-whitespace character, the amount is a number above 0, and the category and date are non-empty; it is well formed and carries the trimmed description, the inputs and the fresh id |
| App.SubmitTransaction | script.js:167-181 | invalid input leaves the state unchanged; valid input ends edit mode, keeps the filter, and appends the entry when not editing or replaces exactly the edited entry when editing |
| App.SubmitKeepsEntriesWellFormed | script.js:170-176 | if every entry is well formed before a submission, every entry is well formed after it |
| App.SubmitNewRaisesTotal | script.js:174 | a new valid entry raises the total by its amount, so strictly |
| App.SubmitAfterDeletingEditedEntry | script.js:174-176 | after the entry being edited is deleted, a submission leaves the list unchanged: the input is lost |
| App.LoadSavedEntries | script.js:393-412 | the stored list is loaded if it parses; a missing item, the text "undefined" or unparsable text give the empty list; editingId and filter are kept |
| App.Tracker.constructor | script.js:54-57 | page load puts the loaded list into the initial state and the stored copy equals it |
| App.Tracker.UpdateApp | script.js:210-216 | the state becomes the new state and its list is persisted |
| App.Tracker.AddTransaction | script.js:167-181 | the state becomes the submission transition of the old state, and the stored copy follows |
| App.Tracker.DeleteClicked | script.js:101-111 | the delete button applies deleteExpense and persists |
| App.Tracker.EditClicked | script.js:115-124 | the edit button applies startEditing and persists |
| App.Tracker.FilterByDateRange | script.js:183-190 | the date filter is applied only when both date inputs are filled |
| App.Tracker.FilterByCategory | script.js:192-201 | the category filter is applied only for a truthy category |
| App.Tracker.ClearFiltersClicked | script.js:84-89 | the clear button applies clearFilters and persists |
| App.Tracker.ResetExpenses | script.js:291-306 | the list becomes empty (an empty list is left as it is) and the stored copy follows |
| App.Tracker.Reload | script.js:54-57 | reloading restores the stored list with no filter and no edit in progress |

## Left out

- DOM rendering, event wiring, scrolling, pop-ups, error messages and `setTimeout`: presentation only. The handlers that change state are kept as `App.Tracker` methods.
- Chart.js rendering and the details list: foreign library and DOM. Only the breakdown they consume is modelled.
- `generateRandomID` (uses `Math.random`): the new entry's id is the parameter `freshId`. Nothing is assumed about uniqueness.
- `setDateToday` (uses the wall clock): it only pre-fills the form.
- `getWeekDateRange`, and the calendar arithmetic inside `getMonthlyTotal` and `getWeeklyTotal`: local-time `Date` arithmetic. `Aggregation.PeriodTotal` takes the period's first and last day as given.
- Parsing dates with `new Date(string)`: dates are day numbers. An unparsable stored date, which the source treats as outside every range, cannot be represented.
- Floating point: amounts are exact reals. `Number(...)` on the amount text is taken as already done, giving a number or NaN. Infinity is not represented. `toLocaleString` formatting is not modelled.
- JSON serialisation: the stored value is kept as the list itself (`App.Stored`). A JSON text that parses to something other than a list (such as `null`) is not modelled.
- Aggregation.GetCategoryBreakdown: assumes category names that are neither array indices nor names `Object.prototype` already carries. The accumulator `{}` (script.js:514) is an ordinary object. JavaScript lists integer-like keys first. A name such as `constructor` or `toString` finds an inherited, truthy value on the first entry, so `+=` (script.js:509) turns it into a string. Assigning to `__proto__` replaces the prototype instead of adding a key. The model treats the accumulator as a plain map from names to numbers, kept in insertion order. The UI's categories are ordinary words that avoid all of these.
- `console.log` calls: no effect on state.
