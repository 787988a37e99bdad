/**
 * The expense record and its closed set of categories, as the tracker's
 * components and library functions share them.
 */
module ExpenseModel {
  import opened Optional
  import Dates

  /** The six categories, declared in the order of the breakdown record. */
  datatype Category = Food | Transportation | Entertainment | Shopping | Bills | Other

  /** The categories in declaration order, which is also the order `Object.entries` visits them. */
  const Categories: seq<Category> := [Food, Transportation, Entertainment, Shopping, Bills, Other]

  /** The position of a category in the declaration order. */
  function Ordinal(c: Category): (k: nat)
    ensures k < |Categories| && Categories[k] == c
  {
    match c
    case Food => 0
    case Transportation => 1
    case Entertainment => 2
    case Shopping => 3
    case Bills => 4
    case Other => 5
  }

  /** The category as the string literal of the `ExpenseCategory` union type. */
  function CategoryName(c: Category): string
  {
    match c
    case Food => "Food"
    case Transportation => "Transportation"
    case Entertainment => "Entertainment"
    case Shopping => "Shopping"
    case Bills => "Bills"
    case Other => "Other"
  }

  /** The category named by a string literal, if any. */
  function CategoryFromName(s: string): (r: Option<Category>)
    ensures r.Some? ==> CategoryName(r.value) == s
  {
    if s == "Food" then Some(Food)
    else if s == "Transportation" then Some(Transportation)
    else if s == "Entertainment" then Some(Entertainment)
    else if s == "Shopping" then Some(Shopping)
    else if s == "Bills" then Some(Bills)
    else if s == "Other" then Some(Other)
    else None
  }

  /** Every category name reads back as its category, so names are distinct. */
  lemma CategoryNameRoundTrip(c: Category)
    ensures CategoryFromName(CategoryName(c)) == Some(c)
  {
  }

  /**
   * One recorded expense. `date` is the `YYYY-MM-DD` text the form stores;
   * `amount` is in cents; the id and the two timestamps are opaque text.
   */
  datatype Expense = Expense(
    id: string,
    date: string,
    amount: int,
    category: Category,
    description: string,
    createdAt: string,
    updatedAt: string)

  /** The test "this expense is in category `c`", as a value to filter with. */
  function InCategory(c: Category): Expense -> bool
  {
    (e: Expense) => e.category == c
  }

  /** The characters `String.prototype.trim` removes. */
  predicate IsWhitespace(ch: char)
  {
    ch == ' ' || ch == '\t' || ch == '\n' || ch == '\r' || ch == '\U{000B}' || ch == '\U{000C}'
    || ch == '\U{00A0}' || ch == '\U{1680}' || '\U{2000}' <= ch <= '\U{200A}'
    || ch == '\U{2028}' || ch == '\U{2029}' || ch == '\U{202F}' || ch == '\U{205F}'
    || ch == '\U{3000}' || ch == '\U{FEFF}'
  }

  /**
   * What the entry form accepts: a date, an amount greater than zero and a
   * description that is not empty once trimmed.
   */
  predicate ValidExpense(e: Expense)
  {
    Dates.ParseIso(e.date).Some?
    && e.amount > 0
    && exists i :: 0 <= i < |e.description| && !IsWhitespace(e.description[i])
  }
}
