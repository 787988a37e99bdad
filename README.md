# Expense tracker: filtering, summary, CSV export and the record store

A Dafny model of the logic-bearing part of a browser expense tracker. Users
record expenses (date, amount, category, description); the app filters the
history list, computes dashboard figures, exports CSV and keeps the whole list
in one browser storage entry. Two library files hold all of that logic, and
this model covers both:

- `lib/utils.ts` has three parts. `filterExpenses` is a per-expense predicate
  handed to `Array.filter`. `calculateSummary` computes the total, the
  current month's total, a six-entry category breakdown built in place, the
  top category and a thirty-day daily average. `exportToCSV` writes the header
  line and one quoted row per expense. These become the modules `Filtering`,
  `Summary` (the breakdown is a method with a loop, the folds are functions)
  and `CsvExport`.
- `lib/storage.ts` is the `storage` object. It works on one storage entry
  through read-modify-write calls: `getExpenses`, `saveExpenses`,
  `addExpense`, `updateExpense`, `deleteExpense` and `clearAll`. This becomes
  the class `Storage.ExpenseStore`, whose field `slot` is the entry.
  `ExpenseStore` methods carry `modifies this` and `old(...)` postconditions.

Supporting modules:

- `ExpenseModel`: the record and the six categories, in declaration order.
- `Dates`: `YYYY-MM-DD` text and date-fns `parseISO`. A text that does not
  name a real day is an Invalid Date (`None`), and every comparison with it
  is false.
- `Text`: the JavaScript string operations the code uses.
- `Seqs`: `Array.filter` and subsequences.
- `Optional`: `Option`.

Modelling choices:

- Amounts are integer cents. Sums are exact.
- `toFixed(2)` is modelled exactly on cents.
- The average is a `real`: the recent total divided by 30.
- "Now" is a parameter (`Summary.Clock`) with three days in it: the first and
  last day of the current month, and the first day that counts as within
  the last thirty days. `Summary.ValidClock` says what `startOfMonth` and
  `endOfMonth` guarantee of the first two; the month lemmas require it.
- JSON is abstracted away. A stored entry that parses is the list itself.
  An entry that does not parse is `Malformed` and reads as the empty list.
- A failed write ("storage full") is the field `storageFull`. Such a write
  changes nothing, and the caller still gets the new list back.

Two points of the code's behaviour are easy to misread, and the model
follows the code in both:

- The category test returns `false` before the search test is reached
  (`lib/utils.ts:29-31`). The date, category and search tests therefore
  combine as a plain conjunction (`Filtering.Keep`), and a search term never
  brings back an expense of another category.
- The header line is `headers.join(',')` with no quotes (`lib/utils.ts:115`).
  Only the data cells are wrapped (`CsvExport.HeaderLine`,
  `CsvExport.RowLayout`).

## Model

| member | source | states |
|---|---|---|
| `ExpenseModel.Ordinal` | lib/utils.ts:62-69 | each category has a position below six, and the declaration-order list holds the category at that position |
| `ExpenseModel.CategoryNameRoundTrip` | components/ExpenseForm.tsx:14-21 | each category's string literal reads back as that category, so the six names are distinct |
| `Dates.ParseIso` | lib/utils.ts:17 | a parsed date is a real calendar day with a four-digit year, and only `DDDD-DD-DD` text parses |
| `Dates.FormatIso` | components/ExpenseForm.tsx:25 | the `yyyy-MM-dd` text of a valid day has the `DDDD-DD-DD` shape; `Dates.ParseFormat` and `Dates.FormatParse` make it the inverse of `Dates.ParseIso` |
| `Dates.ParseFormat` | components/ExpenseForm.tsx:25 | formatting a valid day as `yyyy-MM-dd` and parsing the text gives back the same day |
| `Dates.FormatParse` | lib/utils.ts:17 | a text that parses is exactly the formatting of the day it parses to, so parsing is one-to-one |
| `Dates.OnOrBeforeIsCalendarOrder` | lib/utils.ts:23 | on valid days, the instant order used for comparisons is the calendar order: year, then month, then day; equal keys mean the same day |
| `Dates.WithinInterval` | lib/utils.ts:23 | no contract of its own (a predicate); `Filtering.DateRangeIsInclusive`, `Filtering.OutsideRangeIsDropped` and `Summary.InMonthIsSameMonth` state what it selects |
| `Text.Lower` | lib/utils.ts:35 | same length, and each character is lower-cased on its own; `Text.LowerIdempotent` states it is idempotent |
| `Text.Contains` | lib/utils.ts:37-38 | no contract of its own; `Text.ContainsIffOccurs` characterises it against an independent definition of an occurrence |
| `Text.ContainsIffOccurs` | lib/utils.ts:37-38 | `includes` is true exactly when the needle occurs at some position of the text |
| `Text.LowerIdempotent` | lib/utils.ts:35 | lower-casing an already lower-cased text changes nothing |
| `Filtering.Keep` | lib/utils.ts:16-43 | an expense is kept iff three things hold: (both bounds present ⇒ start ≤ date ≤ end), (a category other than `'All'` ⇒ same category), and (a non-empty term ⇒ the lower-cased term occurs in the lower-cased description or category name) |
| `Filtering.InDateRange` | lib/utils.ts:20-26 | no contract of its own (a predicate); `Filtering.DateRangeIsInclusive` and `Filtering.OutsideRangeIsDropped` state which dates pass |
| `Filtering.MatchesSearch` | lib/utils.ts:34-40 | no contract of its own (a predicate); `Filtering.SearchIgnoresCase` and `Filtering.SearchFindsDescription` state what it matches |
| `Filtering.FilterExpenses` | lib/utils.ts:15-44 | no longer than the input; every kept expense is from the input and passes; every input expense that passes is kept |
| `Filtering.FilterExpensesIsSubsequence` | lib/utils.ts:15-16 | the result is a subsequence of the input in the original order; each passing expense occurs as often as in the input, and each failing one not at all |
| `Filtering.NoFiltersKeepsAll` | lib/utils.ts:20-42 | with one or no date bound, no category or `'All'`, and an empty term, the result is the input unchanged |
| `Filtering.CategoryAloneSelectsCategory` | lib/utils.ts:29-31 | a category alone (no range, no term) selects exactly the expenses of that category, in order |
| `Filtering.DateRangeIsInclusive` | lib/utils.ts:20-26 | an expense dated on the start day or on the end day of a range passes the date test |
| `Filtering.OutsideRangeIsDropped` | lib/utils.ts:20-26 | with a range set, an expense whose date does not parse, falls before the start or falls after the end is dropped |
| `Filtering.SearchIgnoresCase` | lib/utils.ts:34-40 | a search term and its lower-case form keep the same expenses |
| `Filtering.SearchFindsDescription` | lib/utils.ts:34-40 | with no range and no category, an expense whose lower-cased description contains the lower-cased term is kept |
| `Summary.Total` | lib/utils.ts:52 | no contract of its own; `Summary.TotalAppend` and `Summary.CategoryTotalsSumToTotal` state what the sum is |
| `Summary.TotalAppend` | lib/utils.ts:52 | the running sum of a concatenation is the sum of the two parts |
| `Summary.MonthlySpending` | lib/utils.ts:55-59 | no contract of its own; `Summary.MonthlyAtMostTotal`, `Summary.InMonthIsSameMonth` and `Summary.OtherMonthIsNotCounted` state its bounds and what it counts |
| `Summary.MonthlyAtMostTotal` | lib/utils.ts:52-59 | with non-negative amounts, the current month's spending is between 0 and the total |
| `Summary.InMonthIsSameMonth` | lib/utils.ts:47-58 | with `monthStart`/`monthEnd` the first and last day of one month, an expense is in the month exactly when its date parses to a day of that year and month |
| `Summary.OtherMonthIsNotCounted` | lib/utils.ts:55-59 | an expense dated in another month, or whose date does not parse, adds nothing to `monthlySpending` |
| `Summary.RecentTotal` | lib/utils.ts:87-92 | no contract of its own; `Summary.AverageIsRecentOverThirty` and `Summary.AverageBounded` relate it to the average and the total |
| `Summary.AverageDailySpending` | lib/utils.ts:87-94 | no contract of its own; `Summary.AverageIsRecentOverThirty` and `Summary.AverageBounded` state its value |
| `Summary.AverageIsRecentOverThirty` | lib/utils.ts:87-94 | for any amounts, 30 × the average equals the sum over expenses dated on or after the cut-off, and the average is 0 for no expenses |
| `Summary.AverageBounded` | lib/utils.ts:87-94 | with non-negative amounts, the average is between 0 and total / 30 |
| `Summary.CategoryTotalBounded` | lib/utils.ts:62-73 | with non-negative amounts, every breakdown entry is at least 0 and at most the total |
| `Summary.CategoryTotalSnoc` | lib/utils.ts:71-73 | one more expense adds its amount to its own category's entry and to no other |
| `Summary.CategoryTotalsSumToTotal` | lib/utils.ts:62-73 | the six category sums add up to the total |
| `Summary.BreakdownStep` | lib/utils.ts:72 | `categoryBreakdown[expense.category] += expense.amount` turns the breakdown of a list into the breakdown of that list plus the expense |
| `Summary.ZeroBreakdown` | lib/utils.ts:62-69 | the record literal with every category at 0 is the breakdown of no expenses |
| `Summary.CategoryBreakdown` | lib/utils.ts:62-73 | after the loop, all six categories are present, and each entry is the sum of the amounts of that category's expenses |
| `Summary.BreakdownSumIsTotal` | lib/utils.ts:52-73 | the six entries of a breakdown add up to `totalSpending` |
| `Summary.TopFold` | lib/utils.ts:76-84 | no contract of its own; `Summary.TopFoldFindsFirstMax` states that it holds the first maximum |
| `Summary.TopFoldFindsFirstMax` | lib/utils.ts:76-84 | after the first n categories, the reduce holds the earliest of them with the largest entry, paired with that entry |
| `Summary.TopCategory` | lib/utils.ts:76-100 | no contract of its own; `Summary.TopCategoryIsFirstPositiveMax` characterises it |
| `Summary.TopCategoryIsFirstPositiveMax` | lib/utils.ts:76-100 | the top category is null iff no entry is positive; otherwise its amount is its entry, the largest of all, and every earlier category's entry is strictly smaller (ties go to the earlier category) |
| `Summary.CalculateSummary` | lib/utils.ts:46-103 | total, monthly sum and breakdown as above; the breakdown adds up to the total; the top category is characterised as above; 30 × the average is the recent total |
| `Summary.EmptySummary` | lib/utils.ts:46-103 | no expenses: total, monthly and average are 0 and there is no top category |
| `Summary.OccupiedCategoryIsPositive` | lib/utils.ts:71-73 | with positive amounts, a category holding some expense has a positive entry |
| `Summary.SomeExpenseGivesTopCategory` | lib/utils.ts:76-100 | a non-empty list of expenses the form accepts always has a top category |
| `CsvExport.HeaderLine` | lib/utils.ts:106-115 | the header line is exactly `Date,Category,Description,Amount`, unquoted |
| `CsvExport.AmountText` | lib/utils.ts:111 | no contract of its own; `CsvExport.AmountRoundTrip` states that the text reads back as the amount |
| `CsvExport.AmountRoundTrip` | lib/utils.ts:111 | the two-decimal text of an amount reads back as the same number of cents |
| `CsvExport.Row` | lib/utils.ts:107-116 | no contract of its own; `CsvExport.RowLayout` and `CsvExport.RowRoundTrip` state its layout and content |
| `CsvExport.RowLayout` | lib/utils.ts:107-116 | a row is `"date","category","description","amount"`, each cell wrapped in quotes, none escaped |
| `CsvExport.ExportToCsv` | lib/utils.ts:105-119 | no contract of its own; `CsvExport.ExportLines` and `CsvExport.ExportRoundTrip` state its shape and content |
| `CsvExport.ExportLines` | lib/utils.ts:105-119 | with no newline in dates or descriptions, the export has n + 1 lines: line 0 is the bare header and line i + 1 is the row of expense i |
| `CsvExport.RowRoundTrip` | lib/utils.ts:107-116 | with no comma or newline in the date or description, a row reads back as the expense's date, category, description and amount |
| `CsvExport.ExportRoundTrip` | lib/utils.ts:105-119 | with no comma or newline in any date or description, the whole export reads back as every expense's four fields, in order |
| `Storage.ReplaceById` | lib/storage.ts:37-39 | same length; each record with the id becomes the update, and every other record stays in place |
| `Storage.RemoveById` | lib/storage.ts:46 | no longer than the input; no record with the id; every kept record is from the input; every record with another id is kept |
| `Storage.ReplaceMissingId` | lib/storage.ts:37-39 | updating an id that is not present leaves the list unchanged |
| `Storage.ReplaceKeepsIdsUnique` | lib/storage.ts:37-39 | replacing by a record with the same id keeps the ids unique |
| `Storage.RemoveKeepsOthers` | lib/storage.ts:46 | removal gives a subsequence in the original order; each record with another id occurs as often as before, and none with the id remains |
| `Storage.RemoveMissingId` | lib/storage.ts:46 | deleting an id that is not present leaves the list unchanged |
| `Storage.RemoveKeepsIdsUnique` | lib/storage.ts:46 | removal keeps the ids unique |
| `Storage.AppendKeepsIdsUnique` | lib/storage.ts:30 | appending a record with a fresh id keeps the ids unique |
| `Storage.RemoveAfterAppend` | lib/storage.ts:28-49 | appending a record with a fresh id, then removing that id, gives the original list |
| `Storage.ExpenseStore.GetExpenses` | lib/storage.ts:6-16 | returns the stored list, or `[]` when nothing is stored or the entry does not parse |
| `Storage.ExpenseStore.SaveExpenses` | lib/storage.ts:18-26 | the entry now holds the list, unless storage is full; then nothing changes |
| `Storage.ExpenseStore.AddExpense` | lib/storage.ts:28-33 | returns the old list plus the record at the end, and stores it unless storage is full; the ids stay unique when the new id is fresh |
| `Storage.ExpenseStore.UpdateExpense` | lib/storage.ts:35-42 | same length; matching records are replaced and the others stay in place; an unknown id changes nothing; the entry holds the returned list unless storage is full |
| `Storage.ExpenseStore.DeleteExpense` | lib/storage.ts:44-49 | returns the records with another id; none with the id remains, and the list is no longer; an unknown id changes nothing; the entry holds the returned list unless storage is full |
| `Storage.ExpenseStore.ClearAll` | lib/storage.ts:51-54 | the entry is removed and reads as `[]` |
| `Storage.SaveThenGet` | lib/storage.ts:18-26 | when the write is accepted, `saveExpenses(xs)` followed by `getExpenses()` returns `xs` |
| `Storage.ResaveWhatWasRead` | lib/storage.ts:6-26 | saving what was just read leaves what a later read returns unchanged |
| `Storage.AddThenDelete` | lib/storage.ts:28-49 | adding a record with a fresh id and then deleting that id returns the original list, and leaves it stored |
| `Storage.ClearThenGet` | lib/storage.ts:51-54 | after `clearAll`, `getExpenses` returns `[]` |

## Left out

- The React components (`app/page.tsx`, `components/*.tsx`) are not modelled: they are rendering, UI state, `window.confirm` and alerts. The form's validation rules are kept only as `ExpenseModel.ValidExpense`.
- `formatCurrency` is not modelled. It wraps `Intl.NumberFormat`.
- `generateId` is not modelled. It reads the clock and `Math.random`, so ids are opaque strings here.
- `downloadCSV` is not modelled. It is Blob, URL and DOM plumbing around `exportToCSV`.
- `categoryColors` and `categoryIcons` are not modelled. They are display constants.
- The `typeof window === 'undefined'` guards of server-side rendering are not modelled. The store always has a browser.
- JSON is not modelled. A stored entry that parses to something other than a list, such as `null`, is not represented.
- `createdAt` and `updatedAt` are opaque text. The store never sets them; its callers do.
- Races between browser tabs writing the same entry are not modelled.
- Floating point is not modelled. An amount is a whole number of cents, so an entry like `12.345` cannot be represented, and sums have no rounding error. `Summary.AverageDailySpending` is an exact `real`.
- `CsvExport.AmountText`: does not model the exponent notation `toFixed` uses from 10^21 upwards. It is exact on cents otherwise.
- `Text.Lower`: folds only the ASCII letters A–Z. `toLowerCase` also folds other Unicode letters.
- `Dates.ParseIso`: reads only the `YYYY-MM-DD` form. Other ISO 8601 forms that `parseISO` accepts read as Invalid Date; they include times, week dates and years beyond four digits.
- `Filtering.InDateRange`: keeps nothing when a bound does not parse or the start is after the end. What date-fns does here depends on its version: version 2 throws `RangeError`, later versions order the two bounds. The dependency's version is not part of this model.
- `Summary.IsRecent`: the cut-off is a day supplied by the caller. The code compares each expense's midnight with the instant thirty days before now, at the current time of day. That means expenses dated from the next day on count, or from that day itself at exactly midnight. The clock and the calendar arithmetic of `setDate`, `startOfMonth` and `endOfMonth` are not modelled.
- `CsvExport.ParseCsv`: is only a partner for stating the round trip, not a general CSV reader. Because the export never escapes quotes, a description holding `"` gives malformed CSV for any standard reader. The round-trip lemmas assume no comma or newline in dates and descriptions.
- `CsvExport.ExportLines`: the n + 1 line shape is promised only when no date or description holds a newline. The description is a multi-line text area in the form, so a description with line breaks is ordinary input; its newlines pass into the export unescaped, and that expense's row then spreads over several lines.
- The `console.error` calls that report an unparsable entry and a refused write (`lib/storage.ts:13`, `lib/storage.ts:24`) are not modelled. They only log, and the model keeps the values they return.
- `Storage.ExpenseStore.storageFull` is one flag for the whole store, so either every write is refused or none is. A real storage quota depends on the size of what is written: a write that shrinks the list, from `deleteExpense`, can succeed where one that grows it, from `addExpense`, failed. No contract depends on this.
