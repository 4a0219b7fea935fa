# Expense report figures and savings card

This project models, in Dafny, the client-side calculations of a personal
finance dashboard:

- the report page's year filter over the fetched income/expense records,
  the `totalIncome` and `totalExpense` reductions over the filtered records,
  and the available balance (`frontend/src/pages/Dashboard/Expense.jsx`,
  lines 37-52);
- the savings card, which computes income minus expense and picks one of
  three displays: red with a below-zero warning, green with a "growing" note,
  or green with no note at zero (`frontend/src/components/Dashboard/SavingsCard.jsx`).

Modules:

- `Transactions` (transactions.dfy): the record type and the decimal text of
  a year, the text that the page compares with the year selector. It proves
  that this text is injective, via a digit-reading round trip.
- `ExpenseReport` (expense_report.dfy): the filter, the two totals, the
  balance, and their properties. Each total is related to an independent
  right-fold reference definition, `SumOfKind`. `ExpenseReportExample` holds
  a worked example.
- `SavingsCard` (savings_card.dfy): the three-way savings classification and
  the card's colour and message choices.

Modelling decisions:

- A record's date is modelled by its already-extracted calendar year,
  `dateYear: Option<int>`. `None` stands for a date that JavaScript cannot
  parse, whose year prints as `"NaN"`. The selector is a string. It is
  compared with the year's decimal text, exactly as the page does.
- The record's `type` stays a free-form string. The page compares it with
  `"income"` and `"expense"`, and any other tag counts towards neither total.
- Amounts are integers in minor currency units. The model does not require
  them to be non-negative, because the page does not check that.
  Non-negativity of the totals is proved under that assumption.
- The page raises no error on an unknown or malformed year selector: the
  filter yields an empty list and all three figures are 0. The model follows
  this (`UnmatchedSelectorEmpty`, `UnmatchedSelectorZero`).

## Model

| member | source | states |
|---|---|---|
| `Transactions.NatString` | frontend/src/pages/Dashboard/Expense.jsx:41 | the decimal text of a year is a non-empty string of digits with no leading zero, and a single digit exactly when the number is below 10 |
| `Transactions.NatStringRoundTrip` | frontend/src/pages/Dashboard/Expense.jsx:41 | reading the decimal text of n gives back n |
| `Transactions.YearString` | frontend/src/pages/Dashboard/Expense.jsx:41 | `toString` of a year starts with a digit for years from 0 and with '-' before that |
| `Transactions.YearStringInjective` | frontend/src/pages/Dashboard/Expense.jsx:41 | two years have the same text if and only if they are equal |
| `Transactions.DateYearText` | frontend/src/pages/Dashboard/Expense.jsx:41 | an unparseable date's year text is "NaN" and no valid year's is |
| `Transactions.DateYearTextMatches` | frontend/src/pages/Dashboard/Expense.jsx:41 | a record's year text equals the text of year y if and only if the record is dated in year y |
| `ExpenseReport.InYear` | frontend/src/pages/Dashboard/Expense.jsx:41 | the filter's test: the record's year text equals the selector; it never holds for the selector "all", since no year's text is "all" |
| `ExpenseReport.KeepYear` | frontend/src/pages/Dashboard/Expense.jsx:41 | the year filter is never longer than its input and holds a record if and only if the input holds it and its year text is the selector |
| `ExpenseReport.FilterByYear` | frontend/src/pages/Dashboard/Expense.jsx:38-41 | "all" returns the input unchanged; any other selector keeps exactly the input records of that year text |
| `ExpenseReport.KeepYearIsSubsequence` | frontend/src/pages/Dashboard/Expense.jsx:41 | the year filter's result is a subsequence of its input, so relative order is kept |
| `ExpenseReport.KeepYearCount` | frontend/src/pages/Dashboard/Expense.jsx:41 | each record occurs in the result as often as in the input if it is of the selected year, otherwise not at all |
| `ExpenseReport.FilterByYearExact` | frontend/src/pages/Dashboard/Expense.jsx:38-41 | for a selector other than "all", the filtered list is an order-preserving subsequence with exactly the matching records and their multiplicities |
| `ExpenseReport.FilterByCalendarYear` | frontend/src/pages/Dashboard/Expense.jsx:38-41 | selecting the text of year y keeps exactly the records dated in year y, each as often as in the input, as an order-preserving subsequence |
| `ExpenseReport.KeepYearIdempotent` | frontend/src/pages/Dashboard/Expense.jsx:41 | applying the year filter to its own output changes nothing |
| `ExpenseReport.FilterByYearIdempotent` | frontend/src/pages/Dashboard/Expense.jsx:38-41 | filtering by the same selector twice is the same as filtering once, for "all" too |
| `ExpenseReport.UnmatchedSelectorEmpty` | frontend/src/pages/Dashboard/Expense.jsx:41 | a selector that matches no record's year yields the empty list, not an error |
| `ExpenseReport.KeepKind` | frontend/src/pages/Dashboard/Expense.jsx:44-50 | the type filter holds exactly the input records whose `type` is the given tag |
| `ExpenseReport.SumAmounts` | frontend/src/pages/Dashboard/Expense.jsx:46 | the `reduce` from 0: 0 for an empty list, never negative when no amount is; it splits over concatenation by `SumAmountsAppend` |
| `ExpenseReport.SumAmountsAppend` | frontend/src/pages/Dashboard/Expense.jsx:46 | the `reduce` sum of a concatenation is the sum of the parts' sums |
| `ExpenseReport.FilterReduceIsSumOfKind` | frontend/src/pages/Dashboard/Expense.jsx:44-50 | filtering by type and then reducing gives the reference total: the sum of each record's contribution to that type |
| `ExpenseReport.SumOfKindAppend` | frontend/src/pages/Dashboard/Expense.jsx:44-50 | a total over a concatenation is the sum of the parts' totals |
| `ExpenseReport.TotalIncome` | frontend/src/pages/Dashboard/Expense.jsx:44-46 | `totalIncome` is the sum of `amount` over the records tagged "income" (the reference `SumOfKind`), and 0 for an empty list |
| `ExpenseReport.TotalExpense` | frontend/src/pages/Dashboard/Expense.jsx:48-50 | `totalExpense` is the sum of `amount` over the records tagged "expense" (the reference `SumOfKind`), and 0 for an empty list |
| `ExpenseReport.UntaggedRecordIgnored` | frontend/src/pages/Dashboard/Expense.jsx:44-50 | a record tagged neither "income" nor "expense", anywhere in the list, changes neither total |
| `ExpenseReport.SumOfKindNonNegative` | frontend/src/pages/Dashboard/Expense.jsx:44-50 | with non-negative amounts, a total is non-negative |
| `ExpenseReport.Summarize` | frontend/src/pages/Dashboard/Expense.jsx:37-52 | balance is exactly income minus expense; each total is the reference sum over the year-filtered records; an empty filtered list gives all zeros |
| `ExpenseReport.UnmatchedSelectorZero` | frontend/src/pages/Dashboard/Expense.jsx:38-52 | a selector that matches no record gives total income, total expense and balance all 0 |
| `ExpenseReport.SummaryTotalsNonNegative` | frontend/src/pages/Dashboard/Expense.jsx:44-50 | with non-negative amounts, both displayed totals are non-negative |
| `ExpenseReportExample.SampleFigures` | frontend/src/pages/Dashboard/Expense.jsx:37-52 | three records from 2024 give 160/40/120 for "all" and for "2024", and zeros for "2023"; the balance of 120 falls in the growing case |
| `SavingsCard.Classify` | frontend/src/components/Dashboard/SavingsCard.jsx:32-41 | negative if and only if savings < 0, growing if and only if savings > 0, flat if and only if savings = 0 |
| `SavingsCard.RenderCard` | frontend/src/components/Dashboard/SavingsCard.jsx:5-41 | savings is income minus expense; `isNegative` holds if and only if savings < 0; red icon and text exactly when negative, green icon and lime text otherwise (zero included); the warning if and only if savings < 0, the growing note if and only if savings > 0, no note if and only if savings = 0 |
| `SavingsCard.CardFollowsStatus` | frontend/src/components/Dashboard/SavingsCard.jsx:13-41 | the card's note is the one its savings case calls for, red exactly in the negative case, green at zero |
| `SavingsCard.CardShowsBalance` | frontend/src/components/Dashboard/SavingsCard.jsx:5-7 | fed with the report's totals, the card's savings is the report's balance and its note follows the balance's sign |

## Left out

- Fetching the report data (`fetchReportData`, axios, `useEffect`) and the `if (loading) return` single-in-flight guard: network I/O and React state, not calculation.
- The Excel download (`handleDownloadReport`): browser I/O through a Blob, an object URL and a DOM anchor.
- All JSX markup beyond the colour and message choices of the savings card; `addThousandsSeparator` formatting is a call into `utils/helper`, which is not part of this model.
- `frontend/src/pages/Dashboard/Report.jsx`: it only fetches figures computed on the server and renders them. `frontend/src/components/Charts/CustomLineChart.jsx` is a rendering wrapper with no logic.
- Monthly bucketing, recent-transaction selection and spreadsheet serialisation: they happen on the server, which is not part of this model.
- Floating-point amounts, `Number(i.amount)` coercion and NaN from non-numeric amounts: amounts are integers in minor units.
- Date parsing and time zones behind `new Date(item.date).getFullYear()`: the model takes the extracted year as given. JavaScript's limit on representable years (about ±275760) is not modelled.
