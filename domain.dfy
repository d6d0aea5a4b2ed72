/** The tracker's data: expense records, the active filters and the application state
    (the object built by `createInitialState` in script.js). */
module Domain {
  import opened Wrappers

  /** A calendar day, as an ordered day number (the source stores `YYYY-MM-DD` strings
      and compares the `Date` values they parse to). */
  type Day = int

  /** An expense's identifier: an opaque token. */
  type Id = string

  datatype Expense = Expense(id: Id, description: string, amount: real, category: string, date: Day)

  /** An object spread over an expense (`{ ...exp, ...patch }`): a field the patch carries
      replaces the expense's own, an absent one leaves it. */
  datatype Patch = Patch(
    id: Option<Id>,
    description: Option<string>,
    amount: Option<real>,
    category: Option<string>,
    date: Option<Day>)

  /** The active filters; `None` is the source's `null`. */
  datatype Filter = Filter(startDate: Option<Day>, endDate: Option<Day>, category: Option<string>)

  datatype State = State(expenses: seq<Expense>, editingId: Option<Id>, filter: Filter)

  /** JavaScript truthiness of a nullable string: `null` and `""` are both false. */
  predicate Truthy(s: Option<string>) {
    s.Some? && s.value != ""
  }

  /** `{ ...e, ...p }`: the fields `p` carries replace the entry's own. */
  function Merge(e: Expense, p: Patch): (r: Expense)
    ensures p == Patch(None, None, None, None, None) ==> r == e
    ensures p.id.None? ==> r.id == e.id
  {
    Expense(
      if p.id.Some? then p.id.value else e.id,
      if p.description.Some? then p.description.value else e.description,
      if p.amount.Some? then p.amount.value else e.amount,
      if p.category.Some? then p.category.value else e.category,
      if p.date.Some? then p.date.value else e.date)
  }

  /** Spreading the same patch a second time changes nothing more. */
  lemma MergeTwice(e: Expense, p: Patch)
    ensures Merge(Merge(e, p), p) == Merge(e, p)
  {
  }

  /** The patch the form submits: every field of the freshly read entry. */
  function FullPatch(e: Expense): (p: Patch)
    ensures forall before: Expense :: Merge(before, p) == e
  {
    Patch(Some(e.id), Some(e.description), Some(e.amount), Some(e.category), Some(e.date))
  }

  /** A filter with all three fields null. */
  const NoFilter := Filter(None, None, None)

  /** The state the tracker starts from: no expenses, nothing being edited, no filter. */
  function CreateInitialState(): (s: State)
    ensures s.expenses == [] && s.editingId.None?
    ensures s.filter.startDate.None? && s.filter.endDate.None? && s.filter.category.None?
  {
    State([], None, NoFilter)
  }

  /** The ids present in a list of expenses. */
  function Ids(xs: seq<Expense>): set<Id> {
    set e | e in xs :: e.id
  }
}
