/**
 * `calculateSummary`: the dashboard figures. Totals are left folds over the
 * amounts (`reduce` from 0); the category breakdown is a six-entry record
 * updated in place, expense by expense; the top category is a fold over
 * that record's entries; the daily average divides the last thirty days'
 * total by the constant 30.
 *
 * "Now" is a parameter: the first and last day of the current month, and
 * the earliest day that still counts as within the last thirty days.
 */
module Summary {
  import opened Optional
  import opened Seqs
  import opened Dates
  import opened ExpenseModel

  /** The moments `calculateSummary` reads from the clock, as calendar days. */
  datatype Clock = Clock(monthStart: CalendarDate, monthEnd: CalendarDate, recentFrom: CalendarDate)

  /**
   * A clock as `startOfMonth(now)` and `endOfMonth(now)` give it: real days,
   * the first and the last day of one month, and a real cut-off day.
   */
  predicate ValidClock(now: Clock)
  {
    ValidDate(now.monthStart) && ValidDate(now.monthEnd) && ValidDate(now.recentFrom)
    && now.monthStart.day == 1
    && now.monthEnd.year == now.monthStart.year && now.monthEnd.month == now.monthStart.month
    && now.monthEnd.day == DaysInMonth(now.monthEnd.year, now.monthEnd.month)
  }

  /** The `topCategory` field: a category and its breakdown amount. */
  datatype TopEntry = TopEntry(category: Category, amount: int)

  datatype ExpenseSummary = ExpenseSummary(
    totalSpending: int,
    monthlySpending: int,
    categoryBreakdown: map<Category, int>,
    topCategory: Option<TopEntry>,
    averageDailySpending: real)

  // ---------------------------------------------------------------------------
  // Sums
  // ---------------------------------------------------------------------------

  /** `expenses.reduce((sum, expense) => sum + expense.amount, 0)`. */
  function Total(expenses: seq<Expense>): int
  {
    if expenses == [] then 0
    else Total(expenses[..|expenses| - 1]) + expenses[|expenses| - 1].amount
  }

  predicate NonNegativeAmounts(expenses: seq<Expense>)
  {
    forall i :: 0 <= i < |expenses| ==> expenses[i].amount >= 0
  }

  /** The sum of a concatenation is the sum of the parts. */
  lemma {:induction false} TotalAppend(a: seq<Expense>, b: seq<Expense>)
    ensures Total(a + b) == Total(a) + Total(b)
    decreases |b|
  {
    if b == [] {
      assert a + b == a;
    } else {
      var b' := b[..|b| - 1];
      assert (a + b)[..|a + b| - 1] == a + b';
      TotalAppend(a, b');
    }
  }

  /** One more expense adds its amount. */
  lemma TotalSnoc(expenses: seq<Expense>, e: Expense)
    ensures Total(expenses + [e]) == Total(expenses) + e.amount
  {
    assert (expenses + [e])[..|expenses|] == expenses;
  }

  /** A filtered sum of non-negative amounts is at most the whole sum, and not negative. */
  lemma {:induction false} TotalOfFilterBounded(p: Expense -> bool, expenses: seq<Expense>)
    requires NonNegativeAmounts(expenses)
    ensures 0 <= Total(Filter(p, expenses)) <= Total(expenses)
    decreases |expenses|
  {
    if expenses != [] {
      var init := expenses[..|expenses| - 1];
      var last := expenses[|expenses| - 1];
      assert init + [last] == expenses;
      assert NonNegativeAmounts(init) by {
        forall i | 0 <= i < |init| ensures init[i].amount >= 0 {
          assert init[i] == expenses[i];
        }
      }
      TotalOfFilterBounded(p, init);
      FilterSnoc(p, init, last);
      TotalSnoc(init, last);
      if p(last) {
        TotalSnoc(Filter(p, init), last);
      } else {
        assert Filter(p, init) + [] == Filter(p, init);
      }
    }
  }

  // ---------------------------------------------------------------------------
  // Monthly and recent spending
  // ---------------------------------------------------------------------------

  /** `isWithinInterval(parseISO(expense.date), {start: monthStart, end: monthEnd})`. */
  function InMonth(now: Clock): Expense -> bool
  {
    (e: Expense) => WithinInterval(ParseIso(e.date), now.monthStart, now.monthEnd)
  }

  /** `parseISO(expense.date) >= thirtyDaysAgo`; an Invalid Date compares false. */
  function IsRecent(now: Clock): Expense -> bool
  {
    (e: Expense) => ParseIso(e.date).Some? && OnOrBefore(now.recentFrom, ParseIso(e.date).value)
  }

  /** The sum of the amounts of the expenses dated in the current month. */
  function MonthlySpending(expenses: seq<Expense>, now: Clock): int
  {
    Total(Filter(InMonth(now), expenses))
  }

  /** The sum of the amounts of the expenses dated on or after the thirty-day cut-off. */
  function RecentTotal(expenses: seq<Expense>, now: Clock): int
  {
    Total(Filter(IsRecent(now), expenses))
  }

  /** `recentTotal / 30`: a fixed divisor, however many of those days had expenses. */
  function AverageDailySpending(expenses: seq<Expense>, now: Clock): real
  {
    RecentTotal(expenses, now) as real / 30.0
  }

  /** With non-negative amounts the month's spending lies between zero and the total. */
  lemma MonthlyAtMostTotal(expenses: seq<Expense>, now: Clock)
    requires NonNegativeAmounts(expenses)
    ensures 0 <= MonthlySpending(expenses, now) <= Total(expenses)
  {
    TotalOfFilterBounded(InMonth(now), expenses);
  }

  /** On a well-formed clock, an expense is in the month exactly when its date parses to a day of that month. */
  lemma InMonthIsSameMonth(now: Clock, e: Expense)
    requires ValidClock(now)
    ensures InMonth(now)(e) <==>
      ParseIso(e.date).Some? && ParseIso(e.date).value.year == now.monthStart.year
      && ParseIso(e.date).value.month == now.monthStart.month
  {
    var d := ParseIso(e.date);
    if d.Some? {
      OnOrBeforeIsCalendarOrder(now.monthStart, d.value);
      OnOrBeforeIsCalendarOrder(d.value, now.monthEnd);
    }
  }

  /** An expense from another month, or with a date that does not parse, adds nothing to the month's spending. */
  lemma OtherMonthIsNotCounted(expenses: seq<Expense>, e: Expense, now: Clock)
    requires ValidClock(now)
    requires ParseIso(e.date).None? || ParseIso(e.date).value.year != now.monthStart.year
      || ParseIso(e.date).value.month != now.monthStart.month
    ensures MonthlySpending(expenses + [e], now) == MonthlySpending(expenses, now)
  {
    InMonthIsSameMonth(now, e);
    FilterSnoc(InMonth(now), expenses, e);
    assert Filter(InMonth(now), expenses) + [] == Filter(InMonth(now), expenses);
  }

  /** The average is the recent total spread over thirty days, and zero for no expenses. */
  lemma AverageIsRecentOverThirty(expenses: seq<Expense>, now: Clock)
    ensures 30.0 * AverageDailySpending(expenses, now) == RecentTotal(expenses, now) as real
    ensures expenses == [] ==> AverageDailySpending(expenses, now) == 0.0
  {
  }

  /** With non-negative amounts the average lies between zero and total / 30. */
  lemma AverageBounded(expenses: seq<Expense>, now: Clock)
    requires NonNegativeAmounts(expenses)
    ensures 0.0 <= AverageDailySpending(expenses, now) <= Total(expenses) as real / 30.0
  {
    TotalOfFilterBounded(IsRecent(now), expenses);
  }

  // ---------------------------------------------------------------------------
  // Category breakdown
  // ---------------------------------------------------------------------------

  /** The breakdown's entry for `c`: the sum of the amounts of the expenses in `c`. */
  function CategoryTotal(expenses: seq<Expense>, c: Category): int
  {
    Total(Filter(InCategory(c), expenses))
  }

  /** With non-negative amounts every breakdown entry lies between zero and the total. */
  lemma CategoryTotalBounded(expenses: seq<Expense>, c: Category)
    requires NonNegativeAmounts(expenses)
    ensures 0 <= CategoryTotal(expenses, c) <= Total(expenses)
  {
    TotalOfFilterBounded(InCategory(c), expenses);
  }

  /** The record holds an entry for every category. */
  predicate HasAllCategories(b: map<Category, int>)
  {
    forall c: Category :: c in b
  }

  /** The six entries added up, in declaration order. */
  function BreakdownSum(b: map<Category, int>): int
    requires HasAllCategories(b)
  {
    b[Food] + b[Transportation] + b[Entertainment] + b[Shopping] + b[Bills] + b[Other]
  }

  /** Adding one expense to the list adds its amount to its own category's entry and to no other. */
  lemma CategoryTotalSnoc(expenses: seq<Expense>, e: Expense, c: Category)
    ensures CategoryTotal(expenses + [e], c)
         == CategoryTotal(expenses, c) + (if e.category == c then e.amount else 0)
  {
    FilterSnoc(InCategory(c), expenses, e);
    if e.category == c {
      TotalSnoc(Filter(InCategory(c), expenses), e);
    } else {
      assert Filter(InCategory(c), expenses) + [] == Filter(InCategory(c), expenses);
    }
  }

  /** Every expense falls in exactly one category, so the six entries add up to the total. */
  lemma {:induction false} CategoryTotalsSumToTotal(expenses: seq<Expense>)
    ensures CategoryTotal(expenses, Food) + CategoryTotal(expenses, Transportation)
          + CategoryTotal(expenses, Entertainment) + CategoryTotal(expenses, Shopping)
          + CategoryTotal(expenses, Bills) + CategoryTotal(expenses, Other)
         == Total(expenses)
    decreases |expenses|
  {
    if expenses != [] {
      var init := expenses[..|expenses| - 1];
      var last := expenses[|expenses| - 1];
      assert init + [last] == expenses;
      CategoryTotalsSumToTotal(init);
      CategoryTotalSnoc(init, last, Food);
      CategoryTotalSnoc(init, last, Transportation);
      CategoryTotalSnoc(init, last, Entertainment);
      CategoryTotalSnoc(init, last, Shopping);
      CategoryTotalSnoc(init, last, Bills);
      CategoryTotalSnoc(init, last, Other);
    }
  }

  /** The breakdown record `b` holds the category totals of `expenses`. */
  predicate IsBreakdownOf(b: map<Category, int>, expenses: seq<Expense>)
  {
    HasAllCategories(b) && forall c: Category :: b[c] == CategoryTotal(expenses, c)
  }

  /** `categoryBreakdown[expense.category] += expense.amount` keeps the record in step with the list. */
  lemma BreakdownStep(b: map<Category, int>, done: seq<Expense>, e: Expense)
    requires IsBreakdownOf(b, done)
    ensures IsBreakdownOf(b[e.category := b[e.category] + e.amount], done + [e])
  {
    forall c: Category
      ensures b[e.category := b[e.category] + e.amount][c] == CategoryTotal(done + [e], c)
    {
      CategoryTotalSnoc(done, e, c);
    }
  }

  /** The six entries of a breakdown add up to the total. */
  lemma BreakdownSumIsTotal(b: map<Category, int>, expenses: seq<Expense>)
    requires IsBreakdownOf(b, expenses)
    ensures BreakdownSum(b) == Total(expenses)
  {
    CategoryTotalsSumToTotal(expenses);
  }

  /** The record literal at 0 for every category is the breakdown of no expenses. */
  lemma ZeroBreakdown()
    ensures IsBreakdownOf(map[Food := 0, Transportation := 0, Entertainment := 0, Shopping := 0, Bills := 0, Other := 0], [])
  {
    var b := map[Food := 0, Transportation := 0, Entertainment := 0, Shopping := 0, Bills := 0, Other := 0];
    forall c: Category ensures c in b && b[c] == CategoryTotal([], c) {
      match c
      case Food =>
      case Transportation =>
      case Entertainment =>
      case Shopping =>
      case Bills =>
      case Other =>
    }
  }

  /**
   * The record literal with every category at 0, then `forEach` adding each
   * expense's amount to its category's entry.
   */
  method CategoryBreakdown(expenses: seq<Expense>) returns (b: map<Category, int>)
    ensures IsBreakdownOf(b, expenses)
  {
    b := map[Food := 0, Transportation := 0, Entertainment := 0, Shopping := 0, Bills := 0, Other := 0];
    ZeroBreakdown();
    for i := 0 to |expenses|
      invariant IsBreakdownOf(b, expenses[..i])
    {
      var e := expenses[i];
      BreakdownStep(b, expenses[..i], e);
      assert expenses[..i + 1] == expenses[..i] + [e];
      b := b[e.category := b[e.category] + e.amount];
    }
    assert expenses[..|expenses|] == expenses;
  }

  // ---------------------------------------------------------------------------
  // Top category
  // ---------------------------------------------------------------------------

  /** One step of the `reduce` over the entries: a strictly larger amount takes over. */
  function TopStep(max: Option<TopEntry>, c: Category, amount: int): Option<TopEntry>
  {
    if max.None? || amount > max.value.amount then Some(TopEntry(c, amount)) else max
  }

  /** `Object.entries(categoryBreakdown).reduce(step, null)` over the categories `cs`. */
  function TopFold(b: map<Category, int>, cs: seq<Category>): Option<TopEntry>
    requires HasAllCategories(b)
  {
    if cs == [] then None
    else TopStep(TopFold(b, cs[..|cs| - 1]), cs[|cs| - 1], b[cs[|cs| - 1]])
  }

  /** `topCategoryEntry && topCategoryEntry.amount > 0 ? topCategoryEntry : null`. */
  function TopCategory(b: map<Category, int>): Option<TopEntry>
    requires HasAllCategories(b)
  {
    var t := TopFold(b, Categories);
    if t.Some? && t.value.amount > 0 then t else None
  }

  /**
   * After the first `n` categories the fold holds the earliest of them with
   * the largest entry, paired with that entry.
   */
  lemma {:induction false} TopFoldFindsFirstMax(b: map<Category, int>, n: nat)
    requires HasAllCategories(b)
    requires 1 <= n <= |Categories|
    ensures var t := TopFold(b, Categories[..n]);
      t.Some? && Ordinal(t.value.category) < n && t.value.amount == b[t.value.category]
      && (forall c: Category :: Ordinal(c) < n ==> b[c] <= t.value.amount)
      && (forall c: Category :: Ordinal(c) < Ordinal(t.value.category) ==> b[c] < t.value.amount)
  {
    var cs := Categories[..n];
    assert cs[..n - 1] == Categories[..n - 1];
    if n > 1 {
      TopFoldFindsFirstMax(b, n - 1);
    }
  }

  /**
   * The top category is none exactly when no entry is positive; otherwise it
   * is the first category in declaration order holding the largest entry
   * (a tie goes to the earlier one), with that entry as its amount.
   */
  lemma TopCategoryIsFirstPositiveMax(b: map<Category, int>)
    requires HasAllCategories(b)
    ensures TopCategory(b).None? <==> forall c: Category :: b[c] <= 0
    ensures TopCategory(b).Some? ==>
      var t := TopCategory(b).value;
      t.amount == b[t.category] && t.amount > 0
      && (forall c: Category :: b[c] <= t.amount)
      && (forall c: Category :: Ordinal(c) < Ordinal(t.category) ==> b[c] < t.amount)
  {
    TopFoldFindsFirstMax(b, |Categories|);
    assert Categories[..|Categories|] == Categories;
  }

  // ---------------------------------------------------------------------------
  // The summary
  // ---------------------------------------------------------------------------

  /** `calculateSummary(expenses)` read against the clock `now`. */
  method CalculateSummary(expenses: seq<Expense>, now: Clock) returns (s: ExpenseSummary)
    ensures s.totalSpending == Total(expenses)
    ensures s.monthlySpending == MonthlySpending(expenses, now)
    ensures HasAllCategories(s.categoryBreakdown)
    ensures forall c: Category :: s.categoryBreakdown[c] == CategoryTotal(expenses, c)
    ensures BreakdownSum(s.categoryBreakdown) == s.totalSpending
    ensures s.topCategory.None? <==> forall c: Category :: s.categoryBreakdown[c] <= 0
    ensures s.topCategory.Some? ==>
      var t := s.topCategory.value;
      t.amount == s.categoryBreakdown[t.category] && t.amount > 0
      && (forall c: Category :: s.categoryBreakdown[c] <= t.amount)
      && (forall c: Category :: Ordinal(c) < Ordinal(t.category) ==> s.categoryBreakdown[c] < t.amount)
    ensures 30.0 * s.averageDailySpending == RecentTotal(expenses, now) as real
  {
    var breakdown := CategoryBreakdown(expenses);
    BreakdownSumIsTotal(breakdown, expenses);
    TopCategoryIsFirstPositiveMax(breakdown);
    s := ExpenseSummary(
      Total(expenses),
      MonthlySpending(expenses, now),
      breakdown,
      TopCategory(breakdown),
      AverageDailySpending(expenses, now));
  }

  /** No expenses: every figure is zero and there is no top category. */
  lemma EmptySummary(now: Clock, b: map<Category, int>)
    requires HasAllCategories(b)
    requires forall c: Category :: b[c] == CategoryTotal([], c)
    ensures Total([]) == 0 && MonthlySpending([], now) == 0
    ensures TopCategory(b).None?
    ensures AverageDailySpending([], now) == 0.0
  {
    TopCategoryIsFirstPositiveMax(b);
  }

  /** With positive amounts, a category that holds some expense has a positive entry. */
  lemma {:induction false} OccupiedCategoryIsPositive(expenses: seq<Expense>, k: int)
    requires forall i :: 0 <= i < |expenses| ==> expenses[i].amount > 0
    requires 0 <= k < |expenses|
    ensures CategoryTotal(expenses, expenses[k].category) > 0
    decreases |expenses|
  {
    var c := expenses[k].category;
    var init := expenses[..|expenses| - 1];
    var last := expenses[|expenses| - 1];
    assert init + [last] == expenses;
    CategoryTotalSnoc(init, last, c);
    if k == |expenses| - 1 {
      TotalOfFilterBounded(InCategory(c), init);
    } else {
      OccupiedCategoryIsPositive(init, k);
    }
  }

  /** For expenses the entry form accepts, any expense at all gives a top category. */
  lemma SomeExpenseGivesTopCategory(expenses: seq<Expense>, b: map<Category, int>)
    requires forall i :: 0 <= i < |expenses| ==> ValidExpense(expenses[i])
    requires expenses != []
    requires HasAllCategories(b)
    requires forall c: Category :: b[c] == CategoryTotal(expenses, c)
    ensures TopCategory(b).Some?
  {
    OccupiedCategoryIsPositive(expenses, 0);
    TopCategoryIsFirstPositiveMax(b);
  }
}
