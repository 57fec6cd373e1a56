# FamFin screenshot-data generator — a verified model of its deterministic core

`generate_screenshot_data.py` is a seeded Python script. It builds a 13-month
fixture for the FamFin budgeting app and writes it out as JSON: budget months,
per-category allocations, transactions and payee hints. It then prints a
reconciliation summary. Most of the script draws random numbers. Underneath the
draws sits a deterministic core, and this project models that core in Dafny and
proves properties of it. Every random draw arrives as a parameter:

- **Money** (`money.dfy`, helpers in `text.dfy`):
  - `d` rounds an exact decimal half-up to cents;
  - `ds` writes the result as text;
  - `Decimal(text)` reads an amount back.
  Amounts are kept as integer cents everywhere else, and `DsRoundTrip` justifies
  this: reading the text of `ds(x)` gives back exactly `d(x)`.
- **Calendar** (`calendar.dfy`):
  - Gregorian month lengths and datetime order;
  - the clamped day of `rand_day` and the grocery day windows;
  - the `months_list` loop and the salary month's wrap back to December;
  - the ISO text of a date, and its `YYYY-MM` prefix.
- **Monthly budget** (`budget.dfy`):
  - the base budget dict, in insertion order, and its load-time assertion;
  - the seasonal `dict.update`;
  - the category-to-parent lookup;
  - one allocation row per budget key.
- **Generator state** (`ledger.dfy`): the class `Fixture` holds the module-level
  lists and the payee tracker. Its methods are `track`, `exp`, `inc` and `xfr`,
  one method per block of the month loop, and `BookMonth` for all the rows
  one pass of that loop appends. The credit-card settlement is a filtered sum followed by a
  conditional append. The invariant `Fixture.Valid` says the tracker is always
  `TrackerOf(transactions)`. `TrackerMeaning` proves what that tracker holds:
  - a use count per payee;
  - the latest date seen for that payee;
  - the category of the first row at that latest date.
- **Summary** (`report.dfy`):
  - the two `defaultdict` folds;
  - each table row with available and OVER;
  - the global totals.
  It also proves that the table reconciles with the totals.
- **Whole run** (`script.dfy`): `Run` covers the 13-month loop over a fresh state
  followed by the summary. `RunRows` lists the rows the loop writes, one month
  block after another, and the generated state is proved to be exactly those
  rows with the 13 month markers and their allocations. Whatever the draws are,
  it proves three totals: income 50250.00, budgeted 49125.00 and "To Budget
  remaining" 1125.00.

The draws the model takes as parameters are:
- `randint` becomes `lo + draw % (hi - lo + 1)`;
- the synthesised expense rows of each month (lines 153-226) arrive as a list.

Where the script's documented intent and its code differ, the model follows the
code:
- **Payee category on a date tie.** The payee category is replaced only by a
  strictly later date. On a tie, the category of the *first* row at the latest
  date is kept (`TrackerMeaning`).
- **Transfer rows.** They carry the payee text "Transfer" but never reach the
  tracker. A payee's count covers its Expense and Income rows only
  (`TransferNotTracked`).
- **When the settlement transfer is appended.** It depends on whether the sum
  is positive, not on whether a card expense exists. A positive sum implies
  that such an expense exists (`CardSpendWitness`).

## Model

| member | source | states |
|---|---|---|
| Money.RoundHalfUp | generate_screenshot_data.py:11 | the integer result is n/q rounded to nearest, halves away from zero |
| Money.Cents | generate_screenshot_data.py:11 | `d(x)` in cents is within half a cent of x, and an exact half rounds away from zero |
| Money.CentRoundingUnique | generate_screenshot_data.py:11 | that rounding condition has exactly one solution, so `Cents` is the only correct rounding |
| Money.CentsExact | generate_screenshot_data.py:11 | an input that is a whole number of cents is returned unchanged |
| Money.CentsOfCents | generate_screenshot_data.py:11 | a two-place decimal rounds to itself |
| Money.CentsSign | generate_screenshot_data.py:11 | rounding keeps the sign: a negative input never gives positive cents, and a non-negative input never gives negative cents |
| Money.Ds | generate_screenshot_data.py:12 | the text ends in '.' and exactly two digits, with no other '.' |
| Money.AmountTextParse | generate_screenshot_data.py:12 | the text written for a sign and a cent count reads back as that signed amount with two places |
| Money.DsRoundTrip | generate_screenshot_data.py:12 | reading `ds(x)` back as a decimal gives exactly `d(x)` with two places |
| Text.NatTextRoundTrip | generate_screenshot_data.py:12 | the decimal text of a natural number reads back as that number |
| Text.Pad2Injective | generate_screenshot_data.py:13 | two-digit zero padding is injective on 0..99 |
| Text.Pad4Injective | generate_screenshot_data.py:13 | four-digit zero padding is injective on 0..9999 |
| Calendar.DaysInMonth | generate_screenshot_data.py:15 | every month has 28..31 days; February has 29 exactly in leap years |
| Calendar.BeforeIsStrictTotalOrder | generate_screenshot_data.py:111 | datetime `>` is a strict total order (irreflexive, transitive, total, asymmetric) |
| Calendar.RandInt | generate_screenshot_data.py:16 | a draw lands in [lo, hi] |
| Calendar.RandIntCovers | generate_screenshot_data.py:16 | every value in [lo, hi] can be drawn |
| Calendar.RandDay | generate_screenshot_data.py:14-16 | the day is in [min(lo, mx), mx] with mx = min(hi, month length); hour 8..20, minute 0..59, second 0; a valid datetime; both error cases (bad month, empty window) |
| Calendar.RandDayCovers | generate_screenshot_data.py:14-16 | every day of the clamped window can be drawn |
| Calendar.GroceryWindow | generate_screenshot_data.py:167 | for md >= 1 every window satisfies 1 <= lo <= hi <= md |
| Calendar.GroceryWindowsOrdered | generate_screenshot_data.py:167 | window i ends no later than window i+1 starts |
| Calendar.MonthsList | generate_screenshot_data.py:99-104 | 13 months from (2025, 2) to (2026, 2), each the calendar successor of the one before |
| Calendar.NextPrevInverse | generate_screenshot_data.py:144 | the salary-month wrap and the next month are inverse, and each moves one step in month order |
| Calendar.MonthNumberRoundTrip | generate_screenshot_data.py:99-104 | month numbering is invertible |
| Calendar.PrevMonth | generate_screenshot_data.py:144 | for a month 1..12 the salary month is again a month 1..12, and the month after it is the paid month, January wrapping back to December of the year before |
| Calendar.DayLimit | generate_screenshot_data.py:150 | the day limit `md` lies in 14..28 and never exceeds the month's length, so every `min(k, md)` day of the month loop exists |
| Calendar.SalaryDate | generate_screenshot_data.py:144-148 | the salary date is a valid 28th whose next month is the paid month |
| Calendar.Iso | generate_screenshot_data.py:13 | the ISO text has 20 characters |
| Calendar.MonthStart | generate_screenshot_data.py:129 | the month marker is the ISO text of midnight on the 1st |
| Calendar.IsoMonthPrefix | generate_screenshot_data.py:13 | an ISO date starts with "YYYY-MM" exactly when the date is in that year and month |
| Budget.Lookup | generate_screenshot_data.py:133 | a key has a value exactly when it is among the dict's keys |
| Budget.PutKeys | generate_screenshot_data.py:133 | storing under an existing key keeps the key order; a new key goes last |
| Budget.PutLookup | generate_screenshot_data.py:133 | after storing, the key reads the stored value and every other key reads as before |
| Budget.PutAllLookup | generate_screenshot_data.py:133 | after `update`, the override values win and the other keys are unchanged |
| Budget.PutAllKeys | generate_screenshot_data.py:133 | an update over existing keys keeps the key order |
| Budget.PutAllTotal | generate_screenshot_data.py:133 | an update moves the total by the sum of (override − old value) |
| Budget.BaseBudgetPassesCheck | generate_screenshot_data.py:57-78 | the base budget sums to 3750.00 |
| Budget.SingleChangeFailsCheck | generate_screenshot_data.py:78 | changing any one base value fails the load-time assertion |
| Budget.BaseKeysDistinct | generate_screenshot_data.py:57-77 | the base budget's keys are pairwise distinct |
| Budget.SeasonalKeysAreBaseKeys | generate_screenshot_data.py:80-85 | every override key is a base key, and no override table repeats a key |
| Budget.MonthBudgetKeys | generate_screenshot_data.py:132-133 | every month budget (`MonthBudget`, the copy of the base dict updated with the month's overrides) has exactly the base keys, in base order |
| Budget.MonthBudgetShape | generate_screenshot_data.py:132-133 | in a month budget (`MonthBudget`), listed keys take the override and all others their base value |
| Budget.MonthTotal | generate_screenshot_data.py:80-85 | a month budget totals 3750.00 plus 45.00 (Nov), 200.00 (Dec), 50.00 (Jan) or 40.00 (Feb) |
| Budget.FirstParent | generate_screenshot_data.py:136-138 | when a match exists, the result is the parent of the first category with that name and a parent; when none exists, there is none |
| Budget.FindParent | generate_screenshot_data.py:136-138 | the search loop returns exactly `FirstParent` |
| Budget.ParentField | generate_screenshot_data.py:140 | an empty parent name is dropped, like Python's `if p:` |
| Budget.MonthAllocationsShape | generate_screenshot_data.py:135-141 | `MonthAllocations`, the rows `AllocationOf` builds for each entry: one allocation per budget key, in key order, carrying the key's amount, the month, and the parent of the first category of that name that has one (none when there is none or it is empty) |
| Budget.BaseKeyParent | generate_screenshot_data.py:28-51 | the parent the loop gives a base-budget key is present and is exactly the parent of a non-header category of that name |
| Ledger.TrackStep | generate_screenshot_data.py:108-112 | the count goes up by one; a new payee starts at this date and category; date and category change only for a strictly later date |
| Ledger.TrackerMeaning | generate_screenshot_data.py:108-126 | `TrackerOf`, the tracker that `track` builds over all rows written: a payee has a record exactly when an Expense or Income row names it; the count is the number of such rows; the date is the latest; the category is that of the first row at that date |
| Ledger.TransferNotTracked | generate_screenshot_data.py:124-126 | when only Transfer rows show the payee text "Transfer", "Transfer" never gets a payee record |
| Ledger.TrackerSnoc | generate_screenshot_data.py:114-126 | appending a row changes the tracker by that row alone: a Transfer leaves it, any other row tracks its payee |
| Ledger.Fixture.constructor | generate_screenshot_data.py:106 | the four module-level collections start empty, and the tracker agrees with the (empty) transactions |
| Ledger.Fixture.Record | generate_screenshot_data.py:114-122 | appends exactly the given row and keeps the tracker equal to `TrackerOf(transactions)` |
| Ledger.Fixture.Track | generate_screenshot_data.py:108-112 | only the named payee's record changes, and it becomes `TrackStep` of its old record |
| Ledger.Fixture.Exp | generate_screenshot_data.py:114-117 | appends exactly one Expense row of `d(amt)` and keeps the tracker equal to `TrackerOf(transactions)` |
| Ledger.Fixture.Inc | generate_screenshot_data.py:119-122 | appends exactly one Income row and tracks it under "To Budget" |
| Ledger.Fixture.Xfr | generate_screenshot_data.py:124-126 | appends exactly one Transfer row and leaves the tracker unchanged |
| Ledger.Fixture.AddBudgetMonth | generate_screenshot_data.py:129-141 | appends the month marker and exactly the month's allocations |
| Ledger.Fixture.Allocate | generate_screenshot_data.py:134-141 | appends one allocation per key of the given budget, in key order |
| Ledger.Fixture.AddAllocation | generate_screenshot_data.py:135-141 | appends exactly the allocation row of one budget entry, with the parent the category table gives it |
| Ledger.Fixture.PaySalary | generate_screenshot_data.py:144-148 | appends the salary (4100.00 in June, 4350.00 in December, 3800.00 otherwise), dated the 28th of the previous month |
| Ledger.SalaryCents | generate_screenshot_data.py:145-147 | the salary in cents by month |
| Ledger.Fixture.StandingTransfers | generate_screenshot_data.py:229-230 | appends the 200.00 and 100.00 transfers out of Joint Current and leaves the tracker unchanged |
| Ledger.StandingTransferRows | generate_screenshot_data.py:229-230 | two transfers out of Joint Current, each to a different account |
| Ledger.OnCardInMeaning | generate_screenshot_data.py:232-233 | the date-prefix filter selects exactly the Credit Card expenses of that year and month |
| Ledger.CardSpendWitness | generate_screenshot_data.py:232-234 | `CardSpend`, the filtered Credit Card sum: a positive sum implies a Credit Card expense with a positive amount in that month |
| Ledger.CardSpendAppend | generate_screenshot_data.py:232-233 | the filtered sum is additive over appended rows |
| Ledger.Settlement | generate_screenshot_data.py:234 | settlement transfers exist iff the sum is positive: one transfer of exactly that sum, from Joint Current to Credit Card, in that month |
| Ledger.Fixture.SettleCreditCard | generate_screenshot_data.py:232-234 | appends `Settlement` of the month's Credit Card sum and nothing else |
| Ledger.Fixture.Spend | generate_screenshot_data.py:153-226 | appends the supplied expense rows in order through `exp` |
| Ledger.MonthCardSpend | generate_screenshot_data.py:232-233 | the salary and the standing transfers add nothing to the month's Credit Card sum |
| Ledger.Fixture.BookMonth | generate_screenshot_data.py:144-234 | one month's rows in order: salary, expenses, transfers, settlement. The settlement equals the earlier card spend for the month plus this month's |
| Report.BudgetedByCategory | generate_screenshot_data.py:250-251 | a category is a key exactly when some allocation names it, and its value is that category's budgeted sum |
| Report.SpentByCategory | generate_screenshot_data.py:252-253 | a category is a key exactly when some Expense row with a non-empty category names it, and its value is that category's spent sum |
| Report.BudgetedNone | generate_screenshot_data.py:261 | a category with no allocation reads 0 |
| Report.ReportRowMeaning | generate_screenshot_data.py:261-263 | a row built by `ReportRow` from the two folds shows the category's whole budgeted and spent sums and available = budgeted − spent; OVER is set exactly when spent exceeds budgeted |
| Report.RowsFor | generate_screenshot_data.py:258-264 | one row per listed category, in list order |
| Report.ReportCategoriesAreBaseKeys | generate_screenshot_data.py:258-260 | the table lists exactly the base budget's categories, in order |
| Report.IncomeTotalAppend | generate_screenshot_data.py:266 | the Income sum `ti` is additive over appended rows |
| Report.IncomeTotalNone | generate_screenshot_data.py:266 | rows without an Income row add nothing to `ti` |
| Report.BudgetTotalAppend | generate_screenshot_data.py:267 | the budgeted sum `tb` is additive over appended allocations |
| Report.Summary | generate_screenshot_data.py:266-271 | the totals are income, budgeted and expenses; To Budget remaining = income − budgeted; surplus = budgeted − expenses |
| Report.MonthBudgeted | generate_screenshot_data.py:135-141 | within one month, each category's budgeted sum is its month-budget value, and 0 for a category not in the budget |
| Report.MonthBudgetTotal | generate_screenshot_data.py:135-141 | one month's allocations add up to its budget total |
| Report.BudgetColumnReconciles | generate_screenshot_data.py:251 | over categories covering every allocation, the budgeted column adds up to the budgeted total |
| Report.SpentColumnReconciles | generate_screenshot_data.py:253 | over categories covering every expense, the spent column adds up to the expenses total |
| Report.TableReconciles | generate_screenshot_data.py:250-271 | under that coverage, the available column adds up to the printed surplus |
| Script.MonthsAreCovered | generate_screenshot_data.py:99-104 | 13 consecutive months from February 2025 are exactly February 2025 .. February 2026 |
| Script.BlockSettlement | generate_screenshot_data.py:232-234 | a month's block ends with the settlement of the month's Credit Card spending summed over every row written before the settlement, as the filter reads `transactions` |
| Script.RunRows | generate_screenshot_data.py:128-234 | the rows of the month loop, month block after month block, all carry valid datetimes |
| Script.BlockIncome | generate_screenshot_data.py:143-148 | a month's block adds exactly that month's salary to the income total |
| Script.BlockExpenses | generate_screenshot_data.py:153-226 | every Expense row of a month's block is one of that month's supplied rows |
| Script.BookedBlock | generate_screenshot_data.py:144-234 | the rows `Fixture.BookMonth` appends are exactly the month's block |
| Script.RunRowsIncome | generate_screenshot_data.py:143-148 | the income total of the run's rows is the sum of the salaries of its months |
| Script.RunRowsExpenses | generate_screenshot_data.py:153-226 | every Expense row of the run is one of the supplied rows |
| Script.BlockTransfers | generate_screenshot_data.py:229-234 | each transfer of a month's block goes between two different accounts |
| Script.RunTransfers | generate_screenshot_data.py:124-126 | no transfer of the run has the same source and destination account |
| Script.Generate | generate_screenshot_data.py:128-234 | from a fresh state: the 13 month markers in order; exactly the allocations of those months; exactly the run's rows `RunRows`, month block by month block; income equal to the salaries paid; every Expense row one of the supplied rows |
| Script.PlanMonth | generate_screenshot_data.py:129-141 | one month's budget pass extends the month markers and the allocations by that month |
| Script.BookMonthOf | generate_screenshot_data.py:144-234 | one month's bookings extend the transactions by exactly that month's block, keeping the tracker invariant |
| Script.GenerateMonth | generate_screenshot_data.py:128-234 | one pass of the month loop extends markers, allocations and transactions by exactly one more month |
| Script.CoveredSalaries | generate_screenshot_data.py:143-148 | the 13 salaries total 50250.00 |
| Script.CoveredBudget | generate_screenshot_data.py:80-85 | the 13 month budgets total 49125.00 |
| Script.AllocationsTotal | generate_screenshot_data.py:267 | all allocation amounts add up to the sum of the month budgets |
| Script.RunTotals | generate_screenshot_data.py:266-270 | the printed Income is 50250.00, Budgeted 49125.00 and To Budget remaining 1125.00 |
| Script.RowsMeaning | generate_screenshot_data.py:258-263 | every row of the run's table shows its category's sums, available and OVER |
| Script.AllocationsOfKeys | generate_screenshot_data.py:134-141 | a month's allocations name only keys of the budget they come from |
| Script.MonthAllocationsReported | generate_screenshot_data.py:134-141 | a month's allocations name only base-budget categories |
| Script.AllocationsReported | generate_screenshot_data.py:128-141 | every allocation of the run names a base-budget category |
| Script.MonthAllocationsLeaves | generate_screenshot_data.py:134-141 | every allocation of a month carries a parent, and a non-header category of its name has exactly that parent |
| Script.AllocationsLeaves | generate_screenshot_data.py:128-141 | every allocation of the run carries a parent, and a non-header category of its name has exactly that parent |
| Script.Tabulate | generate_screenshot_data.py:250-271 | the two folds hold each category's budgeted and spent sums; the table and the totals are built from them |
| Script.RunReconciles | generate_screenshot_data.py:250-271 | when every expense row is filed under a listed category, the table's available column adds up to the printed surplus |
| Script.Summarise | generate_screenshot_data.py:250-271 | over the 13 months' allocations and rows with salary income: the printed totals 50250.00, 49125.00 and 1125.00, the meaning of each table row, and reconciliation of the table when every expense is filed under a listed category |
| Script.Run | generate_screenshot_data.py:128-271 | the whole script: the generated state is exactly the 13 months' markers, allocations and rows; every transfer goes between two accounts; every allocation carries its leaf category's parent; totals that do not depend on the draws, the meaning of each row, and reconciliation of the table |

## Left out

- The random number generator (lines 9, 16, 163-226). Every draw is a parameter. `randint` is modelled as `lo + draw % (hi - lo + 1)`, so byte-identical reruns are not a modelled property.
- `vary` and the float arithmetic (lines 17, 162-186), including `str(float)` inside `d`. `d` is modelled on exact decimals only.
- The synthesis of each month's expense rows (lines 153-226): counts, payee choices, amounts, and which month gets which optional expense. This includes the fixed bills of lines 153-159, four of which are deterministic (895.00 at 07:00 and 165.00 at 07:30 on the 1st, 42.00 on day min(5, md), 32.00 on day min(4, md)); they too arrive among the supplied rows, so their amounts and dates are not proved. The resulting rows are an input to `Fixture.Spend`, `Fixture.BookMonth` and `Script.Run`. The structure of those rows (the Feb 2026 reduced counts, the four December gift rows, no Disney+ in the current month) is therefore not proved.
- The JSON export (lines 236-247), including the payees list built from the tracker and the `lastUsedCategoryName` field dropped for an empty category. Output formatting and column widths (lines 255-264, 269-271) are left out too. Only the numbers feeding those lines are modelled. The tracker is a `map`, so the insertion order of the payees list is not modelled.
- The static account and category tables (lines 19-52) are data. Only the category names, header flags and parents are modelled, which the allocation loop reads, and the accounts table is not consulted when checking transfer account names.
- Money.Cents: Python's decimal context has 28 significant digits, so `quantize` raises on amounts too large for that precision; `Cents` is total over exact decimals. The script's amounts are a few digits long.
- Money.ParseDecimal: `Dec` is a coefficient and a scale with no sign bit, so `Decimal("-0.00")`, a signed zero, reads as plain zero. The script never writes a negative zero.
- Money.ParseDecimal: reads only an optional '-', digits, and an optional '.' followed by digits. Python's `Decimal` also accepts exponents, whitespace, signs such as '+', and special values, and none of these occur in the amounts the script writes back.
- Calendar.Iso: years are written with four digits, which is what strftime writes for 1000..9999. Callers that need the text (`MonthStart`, the settlement filter) therefore require a year in that range. Python's `calendar` module is modelled only through `monthrange`'s month length.
- Calendar.SalaryDate: requires `2 <= yr`, so year 1 is excluded outright. Line 148 would build a valid salary date for months 2..12 of year 1; only January of year 1 needs year 0, which `datetime` rejects. No month of the run is in year 1.
- Calendar.RandDay: a datetime the Python constructor would reject (a day below 1 or a year outside 1..9999) is reported as `None` rather than an exception.
- Ledger.Fixture.Exp: the amount written into the row is `d(amt)` in cents. The text `ds(amt)` is not stored, because `DsRoundTrip` shows that reading it back gives the same cents.
