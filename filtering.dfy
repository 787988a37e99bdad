/**
 * `filterExpenses`: the history list's filter. A date range, a category
 * and a search term, each optional, are tried on every expense in turn and
 * the first failed test drops it.
 */
module Filtering {
  import opened Optional
  import opened Seqs
  import opened Text
  import opened Dates
  import opened ExpenseModel

  /** The category filter: the sentinel `'All'` or one category. */
  datatype CategoryChoice = All | Only(category: Category)

  /**
   * The filters. The three text fields are the browser's strings; the empty
   * string stands for both `undefined` and `''`, which JavaScript treats
   * alike (both are falsy).
   */
  datatype ExpenseFilters = ExpenseFilters(
    startDate: string,
    endDate: string,
    category: Option<CategoryChoice>,
    searchTerm: string)

  /** The date range is applied: both bounds are non-empty. */
  predicate HasDateRange(f: ExpenseFilters)
  {
    f.startDate != "" && f.endDate != ""
  }

  /** The category test is applied: a category other than `'All'` is chosen. */
  predicate HasCategory(f: ExpenseFilters)
  {
    f.category.Some? && f.category.value.Only?
  }

  /**
   * `isWithinInterval(parseISO(date), {start, end})`. A bound that does not
   * parse is an Invalid Date, and no date lies between Invalid Dates.
   */
  predicate InDateRange(f: ExpenseFilters, e: Expense)
  {
    var start := ParseIso(f.startDate);
    var end := ParseIso(f.endDate);
    start.Some? && end.Some? && WithinInterval(ParseIso(e.date), start.value, end.value)
  }

  /** The search test: the lower-cased term occurs in the lower-cased description or category name. */
  predicate MatchesSearch(term: string, e: Expense)
  {
    var t := Lower(term);
    Contains(Lower(e.description), t) || Contains(Lower(CategoryName(e.category)), t)
  }

  /**
   * The predicate handed to `Array.prototype.filter`, with its early
   * returns. The three tests combine as a conjunction: the category test
   * returns false before the search term is looked at.
   */
  predicate Keep(f: ExpenseFilters, e: Expense): (keep: bool)
    ensures keep <==>
      (HasDateRange(f) ==> InDateRange(f, e))
      && (HasCategory(f) ==> e.category == f.category.value.category)
      && (f.searchTerm != "" ==> MatchesSearch(f.searchTerm, e))
  {
    if HasDateRange(f) && !InDateRange(f, e) then false
    else if HasCategory(f) && e.category != f.category.value.category then false
    else if f.searchTerm != "" then MatchesSearch(f.searchTerm, e)
    else true
  }

  function Keeps(f: ExpenseFilters): Expense -> bool
  {
    e => Keep(f, e)
  }

  /** `filterExpenses(expenses, filters)`: the expenses that pass every test, in their order. */
  function FilterExpenses(expenses: seq<Expense>, f: ExpenseFilters): (r: seq<Expense>)
    ensures |r| <= |expenses|
    ensures forall i :: 0 <= i < |r| ==> r[i] in expenses && Keep(f, r[i])
    ensures forall i :: 0 <= i < |expenses| && Keep(f, expenses[i]) ==> expenses[i] in r
  {
    Filter(Keeps(f), expenses)
  }

  /**
   * The result keeps the input's order and adds nothing: it is a
   * subsequence, and each expense occurs in it as often as in the input if
   * it passes, and not at all otherwise.
   */
  lemma FilterExpensesIsSubsequence(expenses: seq<Expense>, f: ExpenseFilters, e: Expense)
    ensures IsSubsequence(FilterExpenses(expenses, f), expenses)
    ensures multiset(FilterExpenses(expenses, f))[e] == if Keep(f, e) then multiset(expenses)[e] else 0
  {
    FilterIsSubsequence(Keeps(f), expenses);
    FilterCount(Keeps(f), expenses, e);
  }

  /** With no range (or only one bound), no category or `'All'`, and no search term, nothing is dropped. */
  lemma NoFiltersKeepsAll(expenses: seq<Expense>, f: ExpenseFilters)
    requires !HasDateRange(f)
    requires f.category.None? || f.category.value == All
    requires f.searchTerm == ""
    ensures FilterExpenses(expenses, f) == expenses
  {
    FilterAllPass(Keeps(f), expenses);
  }

  /** A category alone keeps exactly the expenses of that category. */
  lemma CategoryAloneSelectsCategory(expenses: seq<Expense>, f: ExpenseFilters, c: Category)
    requires !HasDateRange(f) && f.searchTerm == ""
    requires f.category == Some(Only(c))
    ensures FilterExpenses(expenses, f) == Filter(InCategory(c), expenses)
  {
    FilterCongruent(Keeps(f), InCategory(c), expenses);
  }

  /** The date range includes both of its ends. */
  lemma DateRangeIsInclusive(f: ExpenseFilters, e: Expense)
    requires ParseIso(f.startDate).Some? && ParseIso(f.endDate).Some?
    requires OnOrBefore(ParseIso(f.startDate).value, ParseIso(f.endDate).value)
    requires ParseIso(e.date) == ParseIso(f.startDate) || ParseIso(e.date) == ParseIso(f.endDate)
    ensures HasDateRange(f) && InDateRange(f, e)
  {
  }

  /** An expense dated outside a range, or with a date that does not parse, is dropped. */
  lemma OutsideRangeIsDropped(f: ExpenseFilters, e: Expense)
    requires HasDateRange(f)
    requires ParseIso(e.date).None?
      || (ParseIso(f.startDate).Some? && ParseIso(e.date).Some?
          && DayKey(ParseIso(e.date).value) < DayKey(ParseIso(f.startDate).value))
      || (ParseIso(f.endDate).Some? && ParseIso(e.date).Some?
          && DayKey(ParseIso(f.endDate).value) < DayKey(ParseIso(e.date).value))
    ensures !Keep(f, e)
  {
  }

  /** The search ignores case: the term and its lower-case form select the same expenses. */
  lemma SearchIgnoresCase(f: ExpenseFilters, e: Expense)
    ensures Keep(f, e) == Keep(f.(searchTerm := Lower(f.searchTerm)), e)
  {
    LowerIdempotent(f.searchTerm);
  }

  /** A search term that occurs in the description, with the other tests passed, keeps the expense. */
  lemma SearchFindsDescription(f: ExpenseFilters, e: Expense, i: int)
    requires !HasDateRange(f) && !HasCategory(f)
    requires OccursAt(Lower(e.description), Lower(f.searchTerm), i)
    ensures Keep(f, e)
  {
    ContainsIffOccurs(Lower(e.description), Lower(f.searchTerm));
  }
}
