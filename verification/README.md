# Lumina finance app — a Dafny model of its core

Lumina is a single-page personal-finance app. It keeps three lists: transactions (income, fixed expenses, variable expenses), savings goals and investments. Over the transactions of the selected month it computes a projected and a realized summary. It also provides:

- a dashboard with a filtered statement;
- an amount keypad for new transactions;
- an analytics view: a month-by-month ledger with a running balance, and a breakdown of expenses by category;
- a planning view that judges each goal against the monthly savings capacity;
- an investments view that projects compound growth over five years.

The model is organised in these modules:

- `Types` and `Catalog`: the records and the fixed category and payment-method catalogs.
- `App`: the month view, the summary, and a `Store` class holding the three lists with their handlers.
- `Dashboard`, `AddTransaction`, `Analytics`, `Planning` and `Investments`: one module per view.
- `Seqs` and `Text`: the sums, filters, sorts and number-to-text helpers the views rely on.

Amounts are exact `real` numbers.
A date is a calendar day `(year, month, day)` with months numbered 1 to 12.
The clock is a parameter `(nowYear, nowMonth)`.
Ids are parameters.
The fractional power that turns an annual rate into a monthly rate is a parameter `monthlyRate: real -> real`.

Where the source updates state step by step, the model is imperative:

- the summary loop, the month bucketing and the running balance of the ledger, the projection loops;
- the component state of the keypad, the goal form, the investment form and the dashboard, as classes.

Each of those methods is proved against a specification function, and the functions carry the lemmas.

## Model

| member | source | states |
|---|---|---|
| Types.DayRankIsChronological | src/App.tsx:69 | on valid dates the day rank used to order transactions is smaller exactly when the date is earlier by year, then month, then day |
| Catalog.FindCategory | src/views/Dashboard.tsx:152 | the lookup returns a catalog entry with the requested id, and returns nothing exactly when no entry has that id |
| Catalog.FindIn | src/views/Analytics.tsx:71 | returns the first entry with the id (no earlier entry has it), or nothing exactly when no entry has it |
| Catalog.ShortName | src/views/Dashboard.tsx:155 | the short name is the prefix of the category name up to its first '/': it contains no '/', and when it is shorter than the name the next character is '/' |
| Catalog.CategoryIdsDistinct | src/constants.ts:4-16 | the eleven catalog ids are pairwise distinct, so a lookup by id is unambiguous |
| Text.Dec | src/views/Analytics.tsx:22 | the decimal text of a number is made of digits only, at least one, is a single digit exactly below 10, and has no leading zero |
| Text.DecReadsBack | src/views/Analytics.tsx:22 | the decimal text of a number reads back (most significant digit first) as the number |
| Text.Pad2 | src/views/Analytics.tsx:22 | `padStart(2, '0')` of a number below 100 is exactly its tens digit followed by its units digit |
| Text.DecInjective | src/views/Analytics.tsx:22 | different numbers have different decimal texts |
| Text.DecOrder | src/views/Analytics.tsx:35 | for numbers with the same count of digits, the string order of their decimal texts is the numeric order, and the texts are equal exactly when the numbers are |
| Text.ContainsIffOccurs | src/views/Analytics.tsx:76-80 | `includes` holds exactly when the pattern occurs at some position |
| Text.FirstSegment | src/views/Analytics.tsx:73 | `split('/')[0]` is the longest prefix without a '/' |
| App.MonthTransactions | src/App.tsx:64-70 | keeps every occurrence of each record dated in the selected month and none of any other, ordered newest first |
| App.InMonthFilter | src/App.tsx:65-68 | keeps every occurrence of each record dated in the selected month and none of any other |
| App.NewestFirst | src/App.tsx:69 | sorted by descending date key means newest first |
| App.Summarize | src/App.tsx:72-100 | projected income and expenses sum income and non-income amounts; realized ones sum only paid records; each balance is income minus expenses; the savings potential is max(0, projected balance) |
| App.SummaryIgnoresOrder | src/App.tsx:76-90 | reordering the month's transactions changes none of the four totals |
| App.RealizedWithinProjected | src/App.tsx:83-89 | with non-negative amounts the realized income and expenses never exceed the projected ones |
| App.ToggleStatus | src/App.tsx:111-117 | same length, every field but the status is kept, and the status changes exactly on the records with the id |
| App.ToggleStatusTwice | src/App.tsx:111-117 | toggling the same id twice restores the list |
| App.RemoveTransaction | src/App.tsx:119-123 | removes every record with the id, keeps every other occurrence, and keeps the order |
| App.RemoveInvestment | src/App.tsx:133-135 | removes every investment with the id, keeps the rest in order |
| App.Store.constructor | src/App.tsx:15-44 | the store holds the three lists it was loaded with |
| App.Store.AddTransaction | src/App.tsx:102-109 | the new record with its id is placed first; goals and investments are unchanged |
| App.Store.ToggleTransactionStatus | src/App.tsx:111-117 | the transaction list becomes its toggled version; the other lists are unchanged |
| App.Store.DeleteTransaction | src/App.tsx:119-123 | the transaction list loses the records with the id; the other lists are unchanged |
| App.Store.AddGoal | src/App.tsx:125-127 | the goal is appended; the other lists are unchanged |
| App.Store.AddInvestment | src/App.tsx:129-131 | the investment is appended; the other lists are unchanged |
| App.Store.DeleteInvestment | src/App.tsx:133-135 | the investment list loses the entries with the id; the other lists are unchanged |
| App.Store.Reset | src/App.tsx:137-147 | all three lists become empty |
| Dashboard.Switched | src/views/Dashboard.tsx:85 | the view-mode toggle always changes the mode |
| Dashboard.CardBalance | src/views/Dashboard.tsx:35-92 | on a summary of a month, the card's balance (`displayData`) is its income minus its expenses; under the cash-basis caption they are the paid-only sums, under the accrual caption the sums of every record; the balance is in the danger style exactly when that mode's expenses exceed its income |
| Dashboard.StatementFilter | src/views/Dashboard.tsx:37-42 | the filtered list is an order-preserving subsequence that keeps every occurrence of a kept record and none of the others |
| Dashboard.AllShowsEverything | src/views/Dashboard.tsx:38 | the 'all' filter returns the list unchanged |
| Dashboard.FilterKeepsKind | src/views/Dashboard.tsx:39-40 | 'fixed' keeps exactly the fixed expenses and 'variable' exactly the variable ones, so income never appears |
| Dashboard.FilteredStatementIsNewestFirst | src/views/Dashboard.tsx:37-42 | the filtered month statement stays ordered newest first |
| Dashboard.PaymentLabelAgainstCatalog | src/views/Dashboard.tsx:183 | the row's payment label (`PaymentLabel`) matches the catalog label for every method except 'other', which the row shows as "Dinheiro" instead of the catalog's "Outro" |
| Dashboard.Row | src/views/Dashboard.tsx:151-189 | the title is the note when there is one, else the short category name; the subtitle is the short category name only when there is a note; the sign is '+' exactly for income; a known category gives its icon and colour classes when they are non-empty, an unknown one the fallback icon and colour; the payment text is the row's label for the method |
| Dashboard.CatalogRowsHaveTitles | src/views/Dashboard.tsx:155 | a record of a catalog category always has a title, and without a note the title has no '/' |
| Dashboard.Screen.constructor | src/views/Dashboard.tsx:26-27 | the dashboard starts in realized mode with the 'all' filter |
| Dashboard.Screen.ToggleViewMode | src/views/Dashboard.tsx:85 | the mode switches and the filter is kept |
| Dashboard.Screen.SetListFilter | src/views/Dashboard.tsx:122-135 | the filter is set and the mode is kept |
| Dashboard.Screen.Shown | src/views/Dashboard.tsx:35-42 | the card shows the totals of the current mode; the statement is the list filtered by the current filter: the unfiltered list under 'all', and always an order-preserving subsequence |
| AddTransaction.PressKeepsRange | src/views/AddTransaction.tsx:30-35 | a digit press keeps the amount within 0..999999999 cents and, when accepted, makes the digit the last one |
| AddTransaction.BackspaceUndoesPress | src/views/AddTransaction.tsx:30-40 | backspace right after an accepted press restores the amount; a press above 99999999 changes nothing |
| AddTransaction.EraseKeepsRange | src/views/AddTransaction.tsx:38-40 | backspace stays in range, never increases the amount, and leaves it unchanged exactly when it is 0 |
| AddTransaction.TypedStaysInRange | src/views/AddTransaction.tsx:15 | any sequence of digit presses and backspaces from an amount in range stays within 0..999999999 |
| AddTransaction.DigitKeys | src/views/AddTransaction.tsx:153-167 | the key sequence for an amount consists of digit keys and is empty exactly for 0 |
| AddTransaction.TypedAppend | src/views/AddTransaction.tsx:30-40 | typing one more key applies that key to the amount typed so far |
| AddTransaction.EveryAmountReachable | src/views/AddTransaction.tsx:30-35 | every amount up to 999999999 cents is reached by typing its digits from 0 |
| AddTransaction.Toggled | src/views/AddTransaction.tsx:81-83 | the step toggle always yields 0 or 1 and changes a valid step |
| AddTransaction.ToggleTwice | src/views/AddTransaction.tsx:81-83 | toggling the step twice is the identity |
| AddTransaction.Keypad.constructor | src/views/AddTransaction.tsx:15-25 | the screen opens at amount 0 as a variable expense in the first catalog category ("rent"), by credit card, paid, on the given date, at step 0 |
| AddTransaction.Keypad.PressDigit | src/views/AddTransaction.tsx:30-35 | the amount becomes the pressed value, stays in range, is unchanged above 99999999, and otherwise gains the digit at the end; nothing else changes |
| AddTransaction.Keypad.Backspace | src/views/AddTransaction.tsx:38-40 | the amount becomes floor(amount / 10); nothing else changes |
| AddTransaction.Keypad.SelectExpense | src/views/AddTransaction.tsx:110 | the type becomes variable expense; nothing else changes |
| AddTransaction.Keypad.SelectIncome | src/views/AddTransaction.tsx:116 | the type becomes income; nothing else changes |
| AddTransaction.Keypad.SetNote | src/views/AddTransaction.tsx:142 | only the note changes |
| AddTransaction.Keypad.SetCategory | src/views/AddTransaction.tsx:202 | only the category changes |
| AddTransaction.Keypad.SetDate | src/views/AddTransaction.tsx:228 | only the date changes |
| AddTransaction.Keypad.SetStatus | src/views/AddTransaction.tsx:240-243 | only the status changes |
| AddTransaction.Keypad.SetPaymentMethod | src/views/AddTransaction.tsx:257 | only the payment method changes |
| AddTransaction.Keypad.Next | src/views/AddTransaction.tsx:274-280 | at the amount step with a non-zero amount the screen moves to the details step; otherwise (the button disabled at amount 0) nothing changes |
| AddTransaction.Keypad.Back | src/views/AddTransaction.tsx:284-289 | the screen returns to the amount step |
| AddTransaction.Keypad.Edit | src/views/AddTransaction.tsx:186 | a tap on the summary returns to the amount step |
| AddTransaction.Keypad.Submit | src/views/AddTransaction.tsx:47-64 | nothing is emitted exactly when the amount is 0; otherwise a one-time record of amount/100 reais (positive) with the chosen type, category, date, status and method |
| Analytics.FourDigitYear | src/views/Analytics.tsx:22 | a year in 1000..9999 prints as four digits |
| Analytics.MonthKeyOrderIsChronological | src/views/Analytics.tsx:22-35 | for four-digit years, the string order of "YYYY-MM" keys is the chronological order of the months |
| Analytics.Pad2Order | src/views/Analytics.tsx:22 | two-digit padded months compare as strings the way they compare as numbers |
| Analytics.MonthKeyInjective | src/views/Analytics.tsx:22 | two dates with the same key fall in the same month of the same year |
| Analytics.KeyOrderAcrossYearLengths | src/views/Analytics.tsx:35 | the string sort puts year 1000 before year 999 |
| Analytics.KeySet | src/views/Analytics.tsx:20-26 | every transaction's key is among the bucket keys |
| Analytics.EmptyBucket | src/views/Analytics.tsx:24-25 | a key no transaction has collects nothing |
| Analytics.KeySetAppend | src/views/Analytics.tsx:24-26 | one more transaction adds exactly its key to the bucket keys |
| Analytics.BucketAppend | src/views/Analytics.tsx:28-32 | one more transaction adds its amount to the income or the expense of its own bucket only |
| Analytics.InsertKey | src/views/Analytics.tsx:35 | inserting a new key into a strictly ascending list keeps it strictly ascending, adding exactly that key |
| Analytics.KeyFirst | src/views/Analytics.tsx:35 | a key below the first of an ascending list can go in front |
| Analytics.KeyPast | src/views/Analytics.tsx:35 | a key above the first, inserted into the rest, keeps the whole list ascending and adds exactly that key |
| Analytics.SortKeys | src/views/Analytics.tsx:35 | sorting distinct keys yields a strictly ascending permutation of them |
| Analytics.RowKeys | src/views/Analytics.tsx:38-52 | the key column lists the rows' keys in order |
| Analytics.AddToBucket | src/views/Analytics.tsx:20-32 | one turn of the `forEach` keeps the buckets equal to the sums over the transactions seen so far, with each key remembered once |
| Analytics.BucketByMonth | src/views/Analytics.tsx:18-33 | the buckets have exactly the transactions' keys, and each holds the income and expense sums of the transactions with its key |
| Analytics.RunningRows | src/views/Analytics.tsx:37-52 | one row per key, in order, carrying its bucket; the monthly result is income minus expense; the running balance is the sum of the results so far |
| Analytics.RunningStep | src/views/Analytics.tsx:38-41 | adding the month's result to the running balance keeps every row's balance the sum of the results up to it |
| Analytics.SortedBuckets | src/views/Analytics.tsx:18-35 | the sorted keys are strictly ascending, are exactly the transactions' keys, and each names its bucket of sums |
| Analytics.HistoryBy | src/views/Analytics.tsx:17-59 | the same promises as `HistoryData` for any way of naming a transaction's bucket |
| Analytics.HistoryData | src/views/Analytics.tsx:17-59 | the rows are the months with transactions in ascending key order, each with its income and expense sums; the ledger holds (running balances and totals) |
| Analytics.LastRunningBalanceIsTotal | src/views/Analytics.tsx:41-56 | the last running balance equals the total balance, which is 0 when there are no rows |
| Analytics.NoContribution | src/views/Analytics.tsx:28-32 | a transaction adds nothing to buckets other than its own |
| Analytics.SingleContribution | src/views/Analytics.tsx:28-32 | across distinct keys a transaction's amount is counted exactly once |
| Analytics.BucketsPartition | src/views/Analytics.tsx:20-33 | summing the buckets over all keys gives the sum over all transactions |
| Analytics.RowsSumBuckets | src/views/Analytics.tsx:54-55 | the column totals equal the bucket totals over the row keys |
| Analytics.HistoryTotalsMatchSummary | src/views/Analytics.tsx:54-56 | the ledger's total income and expense equal the income and non-income sums over all transactions |
| Analytics.Ids | src/views/Analytics.tsx:69 | the id column lists the entries' ids in order |
| Analytics.Upsert | src/views/Analytics.tsx:64-66 | adding to a category's total creates it at the end if new, otherwise adds to its value; the other totals are unchanged |
| Analytics.UpsertHead | src/views/Analytics.tsx:65 | adding to the first total changes its value only; ids and the other totals are unchanged |
| Analytics.UpsertConsIds | src/views/Analytics.tsx:65 | past a first entry with another id, the ids grow by the new id exactly when it was absent |
| Analytics.UpsertConsValues | src/views/Analytics.tsx:65 | past a first entry with another id, only the entry with the id (or the new last entry) gains the amount |
| Analytics.UpsertSum | src/views/Analytics.tsx:64-66 | each step of the reducer raises the grand total by the amount |
| Analytics.EmptyCategory | src/views/Analytics.tsx:65 | a category no transaction has totals 0 |
| Analytics.FilteredCategorySum | src/views/Analytics.tsx:62-66 | a category's total over the expenses equals its expense sum over all transactions |
| Analytics.RawTotals | src/views/Analytics.tsx:64-67 | the totals have distinct ids, exactly the categories present, each with the sum of its amounts |
| Analytics.RawTotalsSum | src/views/Analytics.tsx:64-67 | the totals add up to the sum of all amounts reduced |
| Analytics.CategoryEntries | src/views/Analytics.tsx:62-67 | one entry per expense category present, holding that category's expense sum; the entries add up to all expenses |
| Analytics.KeySetMembers | src/views/Analytics.tsx:65 | a key is present exactly when some transaction has it |
| Analytics.ExpenseCategoriesMembers | src/views/Analytics.tsx:62-65 | a category appears exactly when some expense (fixed or variable) has it |
| Analytics.CategoryHasExpense | src/views/Analytics.tsx:62-65 | a category that appears is carried by some expense |
| Analytics.ExpenseHasCategory | src/views/Analytics.tsx:62-65 | every expense's category appears |
| Analytics.DisplayName | src/views/Analytics.tsx:73 | the slice name is non-empty with no '/': the category's short name when it has one, "Outros" for an unknown category or an empty short name |
| Analytics.DisplayColor | src/views/Analytics.tsx:75 | the slice colour is non-empty: the category's colour classes when they are non-empty, "bg-slate-500" for an unknown category |
| Analytics.RawColor | src/views/Analytics.tsx:76-80 | the chart colour is one of the six palette values; violet for an unknown category; otherwise the hex of the first of cyan, fuchsia, red, emerald, yellow that the colour classes mention, and violet when they mention none |
| Analytics.RentIsCyan | src/views/Analytics.tsx:71-76 | looking up "rent" in the catalog and colouring it gives cyan |
| Analytics.RentColorIsCyan | src/views/Analytics.tsx:76 | the rent category's colour classes mention cyan |
| Analytics.Resolve | src/views/Analytics.tsx:70-82 | a slice carries the value of its entry, and the display name, colour classes and chart colour of the catalog entry with its id (the fallbacks when there is none) |
| Analytics.Resolved | src/views/Analytics.tsx:70-82 | each entry is resolved to its slice, in order |
| Analytics.ResolvedSum | src/views/Analytics.tsx:70-82 | resolving keeps the values, so the slices sum like the entries |
| Analytics.CategoryData | src/views/Analytics.tsx:61-84 | the slices are the resolved entries rearranged, sorted by descending value |
| Analytics.CategoryDataTotal | src/views/Analytics.tsx:61-84 | the slices add up to the total of all expenses |
| Analytics.CategoryDataSlices | src/views/Analytics.tsx:61-84 | every slice is the resolved total of an expense category that occurs |
| Analytics.SliceOfCategory | src/views/Analytics.tsx:61-84 | a given slice is the resolved total of an expense category that occurs |
| Planning.AddMonths | views/Planning.tsx:115-117 | stepping months yields a month in 1..12 |
| Planning.MonthSpanReachesDeadline | views/Planning.tsx:115-117 | a non-negative month difference is exactly the number of months to step from now to the deadline's month |
| Planning.MonthsUntil | views/Planning.tsx:118 | the months left are at least 1, at least the difference, and equal to it unless clamped to 1 |
| Planning.RequiredMonthly | views/Planning.tsx:120 | the required saving times the months is the remaining amount |
| Planning.PreviewVerdict | views/Planning.tsx:121 | the simulation is covered exactly when the capacity reaches the required saving; otherwise it is short by a positive gap that closes the difference |
| Planning.PreviewMeaning | views/Planning.tsx:107-121 | covered exactly when saving the capacity every month gathers the remaining amount in time; a shortfall's gap makes it exact |
| Planning.DeadlineVerdict | views/Planning.tsx:193-209 | "no savings" exactly when the capacity is not positive; on track exactly when it is positive and reaches the required saving; otherwise behind by the positive difference |
| Planning.VerdictsAgreeWithSavings | views/Planning.tsx:121 | with a positive capacity the simulation and the list give the same verdict and the same gap |
| Planning.VerdictsDifferAtZero | views/Planning.tsx:204-209 | with no capacity, a goal that needs nothing is covered in the simulation but "no savings" in the list |
| Planning.Ceil | views/Planning.tsx:216 | the ceiling is the least integer not below the number |
| Planning.NoDeadlineForecast | views/Planning.tsx:214-233 | without a deadline the view asks to raise savings exactly when the capacity is not positive |
| Planning.ForecastIsLeastMonths | views/Planning.tsx:216 | the forecast is the least number of whole months whose savings reach the remaining amount |
| Planning.FeedbackFor | views/Planning.tsx:183-234 | a goal with a deadline gets the months left until it (at least 1), a required saving that covers the remaining amount in them, and the verdict of the surplus against that saving; one without gets the forecast of the remaining amount at the surplus |
| Planning.Round | views/Planning.tsx:179 | rounding lands within half a unit, halves going up |
| Planning.Percentage | views/Planning.tsx:179 | the percentage never exceeds 100; it exists for every non-zero target, and for a zero target only when something is saved, where it is 100 (the infinite quotient capped); for a non-zero target it is the quotient × 100 rounded half up (`Round`) and capped at 100, negative progress included |
| Planning.PercentageRoundsHalfUp | views/Planning.tsx:179 | a progress of exactly 2.5% is shown as 3%: `Math.round` takes halves up |
| Planning.PercentageFullWhenReached | views/Planning.tsx:179 | a saved amount at or above a positive target shows 100 |
| Planning.PercentageIsNearest | views/Planning.tsx:179 | below the target it is the nearest whole percent of progress, never negative |
| Planning.GoalForm.constructor | views/Planning.tsx:14-15 | the form starts closed and empty |
| Planning.GoalForm.Open | views/Planning.tsx:157 | the form opens with its fields kept |
| Planning.GoalForm.Cancel | views/Planning.tsx:43 | the form closes with its fields kept |
| Planning.GoalForm.SetFields | views/Planning.tsx:55-96 | the inputs replace the fields; open or closed is kept |
| Planning.GoalForm.Simulate | views/Planning.tsx:101-138 | a simulation appears exactly when an amount and a deadline are filled in; it takes an empty saved amount as 0, its months are the months left until the deadline (at least one), its required saving covers the remainder in them, and its verdict is covered when the capacity reaches that saving and otherwise short by required − capacity |
| Planning.GoalForm.Save | views/Planning.tsx:24-37 | with a name and an amount it yields the goal (empty saved amount as 0, icon "Target") and clears and closes the form; otherwise it yields nothing and changes nothing |
| Investments.FutureValueIsBalance | src/views/Investments.tsx:44 | the closed form c((1+r)^m - 1)/r (c·m at rate 0) equals the balance of depositing c monthly at rate r for m months |
| Investments.BalanceWithoutRate | src/views/Investments.tsx:71-72 | at rate 0 the balance is the deposits |
| Investments.BalanceTimesRate | src/views/Investments.tsx:74 | rate times balance equals c((1+r)^m - 1) |
| Investments.BalanceTimesRateStep | src/views/Investments.tsx:74 | if the identity holds after m − 1 months it holds after m |
| Investments.FutureValueStartsAtZero | src/views/Investments.tsx:44 | at month 0 the value is 0 |
| Investments.YieldNotNegative | src/views/Investments.tsx:56 | with a positive rate and non-negative deposits the value is at least the amount invested |
| Investments.BalanceAtLeastDeposits | src/views/Investments.tsx:56 | the same, for the month-by-month balance |
| Investments.InvestedIsScaled | src/views/Investments.tsx:45-64 | the invested total at month m, summed investment by investment, is m times `totalMonthlyContribution` |
| Investments.MonthTotals | src/views/Investments.tsx:39-49 | the inner loop sums every investment's value and invested amount at the month |
| Investments.EveryThirdMonth | src/views/Investments.tsx:51 | the `month % 3 === 0` test keeps exactly the month 3n of the block 3n−2..3n |
| Investments.ProjectionData | src/views/Investments.tsx:34-62 | empty with no investments; otherwise 21 points for months 0, 3, ..., 60, each with the summed value, invested = month · total contribution, yield = total − invested, and the label |
| Investments.LabelInjective | src/views/Investments.tsx:57 | the point labels of distinct months differ: the years and the remaining months read back from the label |
| Investments.AmountAsWritten | src/views/Investments.tsx:43-44 | the unguarded formula is undefined exactly at rate 0 and agrees with the closed form elsewhere |
| Investments.ZeroRateBlanksChart | src/views/Investments.tsx:44 | one investment with a zero rate makes `TotalAsWritten`, the unguarded `totalAmount += amount` sum, undefined at every month and so blanks every chart point, although the investment's value is plainly c·m |
| Investments.AsWrittenAgreesOffZero | src/views/Investments.tsx:42-49 | when no rate is zero the unguarded chart equals the model's |
| Investments.CalculateProjection | src/views/Investments.tsx:66-78 | the projection after `years` is the sum of every investment's value at years·12 months, with the zero-rate branch included |
| Investments.ProjectionCoversDeposits | src/views/Investments.tsx:66-78 | with positive rates and non-negative contributions the projection is at least months × total contribution |
| Investments.InvestmentForm.constructor | src/views/Investments.tsx:13-14 | the form starts closed, empty, with rate 10 |
| Investments.InvestmentForm.Open | src/views/Investments.tsx:138 | the form opens with its fields kept |
| Investments.InvestmentForm.Cancel | src/views/Investments.tsx:84 | the form closes with its fields kept |
| Investments.InvestmentForm.SetFields | src/views/Investments.tsx:96-123 | the inputs replace the fields |
| Investments.InvestmentForm.Save | src/views/Investments.tsx:20-32 | with a name and an amount it yields the investment (given rate, start date today) and resets the form with rate 10; otherwise it yields nothing and changes nothing |

## Left out

- Browser storage (loading in src/App.tsx:15-56 becomes the `Store` constructor's arguments), the JSON export and import, `window.confirm` (taken as granted) and `alert`.
- Number, currency and date formatting (`Intl.NumberFormat`, `toLocaleString`): the month labels of the ledger rows (src/views/Analytics.tsx:45-46) and every formatted amount.
- The view navigation, JSX, charts, scroll and animation effects, and the navbar, icon mapper and settings screen.
- `changeMonth` (src/App.tsx:58-62): `Date.setMonth` overflow is not modelled; the selected month is a parameter.
- Date parsing and time zones: a transaction's date is its calendar day. The source parses the ISO string in UTC and reads the month in local time; the model does not capture a date that changes month across that shift. The time of day set on submit (src/views/AddTransaction.tsx:52-53) is not modelled. `DayRank` stands in for `getTime` and orders days, not instants.
- `Math.random` ids and the clock: both are parameters.
- `Math.pow(1 + rate/100, 1/12) - 1` is the parameter `monthlyRate`, because fractional powers of reals cannot be expressed exactly. IEEE rounding is not modelled.
- The first date kept in each ledger bucket (src/views/Analytics.tsx:25) feeds only the formatted labels and is not modelled.
- `Object.keys` and `Object.entries` list integer-like keys first. Month keys and catalog ids are never integer-like, so the model keeps first-insertion order for the category totals.
- Analytics.CategoryData: the sort is proved to be ordered and a permutation; its stability (ties keep insertion order) is not stated.
- App.MonthTransactions: the order of records dated the same day is not stated. Submit stamps every record at 12:00 (src/views/AddTransaction.tsx:52-53), so such ties are common; the model proves only the newest-first order of days.
- Investments.ZeroRateBlanksChart: an annual rate of 0 is taken to give a monthly rate of 0, because (1 + 0)^(1/12) − 1 = 0; `monthlyRate` is otherwise a parameter.
- The text under an empty statement (src/views/Dashboard.tsx:146) is display copy and is not modelled.
- Planning.NoDeadlineForecast: the "Indefinido" text is reached only when the capacity is not positive, where the view shows the raise-savings message instead. The model has no case for it.
- Investments.InvestmentForm.Save: the rate field is a `real`, so an unparseable rate (`NaN` in the source) is not modelled.
- Planning.Percentage: a negative current amount over a zero target gives `-Infinity`, which `Math.min` keeps. The model yields no percentage there, like `NaN`.
- Dashboard.Row: a category name starting with '/' would give an empty short name that the source treats as missing. No catalog name starts with '/'.

## Findings

| source | as written | input that shows it | evidently intended | confidence | as-written member | corrected member |
|---|---|---|---|---|---|---|
| src/views/Investments.tsx:44 | the chart divides by the monthly rate with no zero-rate guard | one investment with annualRate 0: (1^m − 1)/0 is NaN at every month, so every chart point is NaN | the zero-rate branch of `calculateProjection` (src/views/Investments.tsx:71-72): the value is contribution × months | not executed | Investments.ZeroRateBlanksChart | Investments.ProjectionData |
