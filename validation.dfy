/** `getInputs`: reading the entry form into a new expense, or declining it. */
module Validation {
  import opened Wrappers
  import opened Domain

  /** ECMAScript WhiteSpace and LineTerminator code points: what `String.prototype.trim`
      removes from both ends. */
  predicate IsWhitespace(c: char)
    ensures '!' <= c <= '~' ==> !IsWhitespace(c)
    ensures c == ' ' || c == '\t' || c == '\n' || c == '\r' || c == '\U{A0}' || c == '\U{FEFF}' ==> IsWhitespace(c)
  {
    c == '\t' || c == '\n' || c == '\U{B}' || c == '\U{C}' || c == '\r' || c == ' ' ||
    c == '\U{A0}' || c == '\U{1680}' || ('\U{2000}' <= c <= '\U{200A}') ||
    c == '\U{2028}' || c == '\U{2029}' || c == '\U{202F}' || c == '\U{205F}' || c == '\U{3000}' ||
    c == '\U{FEFF}'
  }

  /** Drops leading whitespace. */
  function TrimStart(s: string): (r: string)
    ensures |r| <= |s| && r == s[|s| - |r|..]
    ensures forall i :: 0 <= i < |s| - |r| ==> IsWhitespace(s[i])
    ensures r != [] ==> !IsWhitespace(r[0])
    decreases |s|
  {
    if s != [] && IsWhitespace(s[0]) then TrimStart(s[1..]) else s
  }

  /** Drops trailing whitespace. */
  function TrimEnd(s: string): (r: string)
    ensures |r| <= |s| && r == s[..|r|]
    ensures forall i :: |r| <= i < |s| ==> IsWhitespace(s[i])
    ensures r != [] ==> !IsWhitespace(r[|r| - 1])
    decreases |s|
  {
    if s != [] && IsWhitespace(s[|s| - 1]) then TrimEnd(s[..|s| - 1]) else s
  }

  /** Whitespace cut from the front of `s` (leaving `t`) and then from the back of `t`
      (leaving `r`) leaves a slice of `s` with only whitespace before and after it, and
      nothing at all exactly when `s` is all whitespace. */
  lemma CutEnds(s: string, t: string, r: string)
    requires |t| <= |s| && t == s[|s| - |t|..]
    requires forall i :: 0 <= i < |s| - |t| ==> IsWhitespace(s[i])
    requires t != [] ==> !IsWhitespace(t[0])
    requires |r| <= |t| && r == t[..|r|]
    requires forall i :: |r| <= i < |t| ==> IsWhitespace(t[i])
    requires r != [] ==> !IsWhitespace(r[|r| - 1])
    ensures exists k, m :: 0 <= k <= m <= |s| && r == s[k..m]
                           && (forall i :: 0 <= i < k ==> IsWhitespace(s[i]))
                           && (forall i :: m <= i < |s| ==> IsWhitespace(s[i]))
    ensures r != [] ==> !IsWhitespace(r[0])
    ensures r == [] <==> forall i :: 0 <= i < |s| ==> IsWhitespace(s[i])
  {
    var k := |s| - |t|;
    var m := k + |r|;
    forall j | 0 <= j < |r| ensures r[j] == s[k..m][j] {
      assert r[j] == t[j] == s[k + j];
    }
    forall i | m <= i < |s| ensures IsWhitespace(s[i]) {
      assert s[i] == t[i - k];
    }
    assert r == s[k..m];
    if r != [] {
      assert r[0] == t[0];
      assert !IsWhitespace(s[k]);
    } else {
      assert t == [];
    }
  }

  /** `String.prototype.trim`: the middle of `s` that is left once the whitespace at
      both ends is cut away. */
  function Trim(s: string): (r: string)
    ensures exists k, m :: 0 <= k <= m <= |s| && r == s[k..m]
                           && (forall i :: 0 <= i < k ==> IsWhitespace(s[i]))
                           && (forall i :: m <= i < |s| ==> IsWhitespace(s[i]))
    ensures r != [] ==> !IsWhitespace(r[0]) && !IsWhitespace(r[|r| - 1])
    ensures r == [] <==> forall i :: 0 <= i < |s| ==> IsWhitespace(s[i])
  {
    var t := TrimStart(s);
    var r := TrimEnd(t);
    CutEnds(s, t, r);
    r
  }

  /** The result of `Number(...)` on the amount field: a number or NaN. */
  datatype Numeric = NaN | Num(value: real)

  /** The entry form's fields as the source reads them. The date input's value is either
      empty (`None`) or a calendar day. */
  datatype FormInput = FormInput(description: string, amount: Numeric, category: string, date: Option<Day>)

  /** What every entry accepted from the form satisfies. */
  predicate WellFormed(e: Expense) {
    && e.description != [] && !IsWhitespace(e.description[0]) && !IsWhitespace(e.description[|e.description| - 1])
    && e.amount > 0.0
    && e.category != ""
  }

  /** `getInputs`: the trimmed description, the amount, category and date under the id
      drawn for the entry; no entry if the description is blank, the amount is NaN or
      not positive, or the category or the date is empty. */
  function GetInputs(input: FormInput, freshId: Id): (r: Option<Expense>)
    ensures r.Some? <==>
      && (exists i :: 0 <= i < |input.description| && !IsWhitespace(input.description[i]))
      && input.amount.Num? && input.amount.value > 0.0
      && input.category != ""
      && input.date.Some?
    ensures r.Some? ==> WellFormed(r.value)
    ensures r.Some? ==>
              && r.value.id == freshId && r.value.description == Trim(input.description)
              && r.value.amount == input.amount.value && r.value.category == input.category
              && r.value.date == input.date.value
  {
    var description := Trim(input.description);
    if description == "" || input.amount.NaN? || input.amount.value <= 0.0
       || input.category == "" || input.date.None?
    then None
    else Some(Expense(freshId, description, input.amount.value, input.category, input.date.value))
  }
}
