# incomex — a verified model of the ledger core

incomex is a React Native app for a small business owner's daily cash book.
Each day the owner records income by payment channel (card, cash, app) and
the day's expenses. The app then shows day, month and year summaries, a
calendar with day markers, and per-source reports.

This Dafny project models the logic behind those screens and proves what it
promises:

- **Aggregation service** (`TransactionsService`, `PeriodSummaries`). It
  classifies signed ledger rows into income and expense and infers the
  payment channel. It folds transactions into totals and builds a day
  summary with an in-place sort. It builds the rows inserted for a day's
  form. For a month or a year it groups transactions by day, zero-fills
  every calendar day, and rolls the days up.
- **Second ledger model** (`Ledger`, `EntriesHooks`). Entries carry an
  explicit type and source. The module builds per-day calendar markers and
  the per-source report.
- **Screens and components**. Each keeps its pure rules as functions and
  its React state as a class whose methods update it:
  - `ReportsScreen` and `MonthlySummaryScreen`: month bucketing, month and
    year navigation, table rows and the total row. The shared table shapes
    are in `ReportTable`.
  - `AddTransactionScreen`: amount parsing, the save guard and the payload.
  - `Auth`: validators, check order, mode transitions.
  - `ResetPassword`: validation and submit.
  - `ProfileSheet`: the rgba→rgb rewrite, initials, name saving, header.
  - `EntryFormModal`: type/source consistency, reset, amount check, payload.
  - `EntriesScreen`: draft validation and amount text.
  - `DailyScreen`: day totals, calendar marks, create/update dispatch.
- **Shared models of JavaScript built-ins** (`Text`, `Numbers`, `Calendar`):
  - `trim`, `split`, `replace` of the first match, `toUpperCase`;
  - `length`, counted in UTF-16 code units;
  - `parseFloat` and `Number(string)` over exact decimals;
  - Gregorian days, `new Date(y, m - 1, 1)` month roll-over, and week days.

Amounts are exact `real`s. A JavaScript number produced from text is
`Numbers.Num`: finite, an infinity, or `NaN`. Day keys (`yyyy-MM-dd`) are
`Calendar.Day` values. Remote calls (the database and auth) take part only
through their outcomes, passed as parameters. Fetched tables are sequences
of rows.

Loops are methods proved against specification functions written as left
folds:

| method | specification |
|---|---|
| `ToTotals` | `TotalsOf` |
| `RollUp` | `RollUpOf` |
| `GroupByDay` | `OnDay` |
| `MonthlyBuckets` | `BucketsOf` / `OrderOf` |
| `AggregateBySource` | `ReportOf` |
| `DailyTotals` | `TypeTotal` |
| `MarkedDates` | `StyleFor` |

The properties the app relies on are lemmas about those functions.

## Model

| member | source | states |
|---|---|---|
| TransactionsService.MethodNamed | src/services/transactionsService.ts:7-8 | a category is in the channel set exactly when some channel bears that name, and then it is that channel |
| TransactionsService.EnsurePositive | src/services/transactionsService.ts:43-45 | result is never negative; it is the argument when that is present and > 0, else 0 |
| TransactionsService.InferMethod | src/services/transactionsService.ts:68-78 | a channel is inferred iff the row is income and its category names a channel, and the channel is the one the category names; expense rows never get one |
| TransactionsService.MapEntryToTransaction | src/services/transactionsService.ts:80-94 | income iff the numeric amount is >= 0 (so 0 and non-numbers are income); the signed amount equals the stored number and the amount is its magnitude; only income carries a channel; only expense carries a category, defaulting to 'general' |
| TransactionsService.MethodTotals.Add | src/services/transactionsService.ts:102 | adds to the named channel only, leaving the other two unchanged |
| TransactionsService.TotalsOf | src/services/transactionsService.ts:96-120 | every figure (income, expenses, income and expenses per channel) is the sum of that figure over the list |
| TransactionsService.ToTotals | src/services/transactionsService.ts:96-120 | the accumulating loop computes exactly TotalsOf of its input |
| TransactionsService.SumOfAppend | src/services/transactionsService.ts:97-119 | a figure's sum over a concatenation is the sum of the parts |
| TransactionsService.SumOfPermutation | src/services/transactionsService.ts:122-135 | reordering the transactions, as the sort does, changes no figure |
| TransactionsService.SumOfNonNegative | src/services/transactionsService.ts:96-120 | with non-negative amounts every figure is non-negative |
| TransactionsService.MethodTotalsWithinIncome | src/services/transactionsService.ts:99-103 | the three channel totals together never exceed total income |
| TransactionsService.MethodTotalsCoverIncome | src/services/transactionsService.ts:99-103 | when every income row has a channel, the channel totals add up to total income |
| TransactionsService.NoExpensesByMethod | src/services/transactionsService.ts:68-108 | on well-formed transactions (as the mapper produces) the expense-by-channel totals stay 0 |
| TransactionsService.SortByDateDescending | src/services/transactionsService.ts:133 | the in-place sort leaves the array in non-increasing date order and a permutation of its old contents |
| TransactionsService.InsertForward | src/services/transactionsService.ts:133 | one insertion step extends the sorted prefix by one element and permutes the array |
| TransactionsService.BuildDailySummary | src/services/transactionsService.ts:122-135 | the figures are TotalsOf the input; netTotal = income − expenses; dayOfWeek is the Spanish day name; the transactions are a permutation of the input sorted latest first |
| TransactionsService.ReadBack | src/services/transactionsService.ts:213-218 | the inserted rows come back one for one, each mapped by mapEntryToTransaction; every row keeps its id, day and note, its signed amount is the stored amount, and it is income iff that amount is >= 0 |
| TransactionsService.CreateTransactions | src/services/transactionsService.ts:160-219 | the rows built are PayloadRows; the insert runs iff there is a row; the result is the read-back of those rows |
| TransactionsService.PayloadRowsShape | src/services/transactionsService.ts:160-207 | every row has the user, the day and the note; there is a row for a channel iff its amount is positive, an expense row iff the expense is positive; no two rows share a category |
| TransactionsService.PayloadCategories | src/services/transactionsService.ts:169-207 | the categories appear in the order card, cash, app, expense, one per positive amount |
| TransactionsService.CategoryNamesDistinct | src/services/transactionsService.ts:174-204 | the channel names differ from each other and from 'expense' |
| TransactionsService.CreatedTotals | src/services/transactionsService.ts:160-218 | round trip: reading the built rows back through mapEntryToTransaction gives totals with each positive channel amount under its own channel, and the expense magnitude as the only expense |
| PeriodSummaries.FetchTransactions | src/services/transactionsService.ts:137-157 | no more results than rows; every result is well formed and lies in the requested range |
| PeriodSummaries.FetchedRows | src/services/transactionsService.ts:137-157 | exactly the user's rows in the range, mapped by mapEntryToTransaction: every result comes from such a row, and every such row is fetched |
| PeriodSummaries.DeleteTransaction | src/services/transactionsService.ts:221-226 | a row is kept iff it is not the user's row with that id |
| PeriodSummaries.GroupByDay | src/services/transactionsService.ts:241-248 | the map has a key exactly for each day present, holding that day's transactions in list order |
| PeriodSummaries.OnOwnDay | src/services/transactionsService.ts:242-247 | each transaction lands in the group of its own day |
| PeriodSummaries.GroupLookup | src/services/transactionsService.ts:252 | `grouped.get(key) ?? []` is exactly the day's transactions, empty for a day without any |
| PeriodSummaries.SummarizeDays | src/services/transactionsService.ts:250-254 | one summary per day, in the days' order, each the day summary of that day's transactions |
| PeriodSummaries.RollUpOf | src/services/transactionsService.ts:256-272 | every rolled-up figure is the sum of that figure over the days |
| PeriodSummaries.RollUp | src/services/transactionsService.ts:256-272 | the reduce computes exactly RollUpOf |
| PeriodSummaries.AddDay | src/services/transactionsService.ts:258-263 | one reduce step adds the day's value to every figure |
| PeriodSummaries.DaySumPartition | src/services/transactionsService.ts:250-272 | summing the summaries of distinct days counts every transaction on those days exactly once |
| PeriodSummaries.RollUpMatchesTotals | src/services/transactionsService.ts:250-282 | the roll-up equals the totals of all transactions falling on the summarised days |
| PeriodSummaries.MonthRangeDays | src/services/transactionsService.ts:236-238 | a valid day is in the month's start/end range iff it is a day of the month `new Date(year, month - 1, 1)` denotes |
| PeriodSummaries.YearRangeDays | src/services/transactionsService.ts:287-288 | a valid day is in the year's range iff it is a day of that year |
| PeriodSummaries.SummarizePeriod | src/services/transactionsService.ts:241-272 | one summary per day of an ascending day list, each SummarizesDay; totals = RollUpOf = TotalsOf the transactions on those days |
| PeriodSummaries.GetMonthlySummary | src/services/transactionsService.ts:235-284 | DaysInMonth entries, first to last day, each zero-filled or the day's summary; totals are the roll-up, equal to the fetched totals when the stored dates are valid; netTotal = income − expenses |
| PeriodSummaries.GetYearlySummary | src/services/transactionsService.ts:286-333 | one entry per day of the year (365 or 366, see Calendar.YearLength), each SummarizesDay; roll-up totals as for the month |
| PeriodSummaries.GetDailySummary | src/services/transactionsService.ts:228-233 | the day's fetched transactions, totalled and sorted latest first |
| Calendar.DaysInMonth | src/services/transactionsService.ts:238 | 28 to 31 days; 29 exactly for February of a leap year |
| Calendar.YearDays | src/services/transactionsService.ts:287-300 | the day list of a year holds exactly its valid days, strictly ascending |
| Calendar.YearLength | src/services/transactionsService.ts:300 | a year has 366 days if leap, else 365 |
| Calendar.MonthOf | src/services/transactionsService.ts:236 | the month denoted is in 1..12, and year*12+month is preserved (roll-over), years 0..99 read as 19xx |
| Calendar.NextDayWeekday | src/services/transactionsService.ts:127 | within a month the next day is the next day of the week |
| Calendar.NextDay | src/services/transactionsService.ts:287-300 | the next day is a valid day after the given one, and no valid day lies between them |
| Calendar.WeekCycle | src/services/transactionsService.ts:127 | the weekday advances by one from every day to the next, across month ends, year ends and leap days |
| Calendar.WeekdayExample | src/services/transactionsService.ts:127 | 15 March 2024 is named 'viernes'; with WeekCycle this fixes the name of every day |
| Calendar.MonthBounds | src/utils/dates.ts:24-29 | the first and last day of the reference's month, and the reference lies between them |
| Calendar.YearBounds | src/utils/dates.ts:31-36 | 1 January and 31 December of the reference's year: valid, and every valid day of that year lies between them |
| Ledger.SourceTable | src/constants/sources.ts:10-35 | the key order lists each source once, and no two sources share a label |
| EntriesHooks.MarkersOf | src/hooks/useEntries.ts:45-60 | no markers without data; otherwise a key for exactly each entry date present |
| EntriesHooks.MarkersSpec | src/hooks/useEntries.ts:45-59 | keys are exactly the entry dates; total is the plain sum of the day's amounts, income and expense alike; hasExpense iff some entry of that day is an expense |
| EntriesHooks.Aggregates | src/hooks/useEntries.ts:69-83 | every source has a record |
| EntriesHooks.AggregateValues | src/hooks/useEntries.ts:69-83 | each record holds exactly its own source's income and expense sums |
| EntriesHooks.AggregateBySource | src/hooks/useEntries.ts:68-107 | the loop computes exactly ReportOf |
| EntriesHooks.ReportListSpec | src/hooks/useEntries.ts:85-99 | a source is listed iff its total of that type is positive, with that total and its label, in key order, each at most once |
| EntriesHooks.ReportSpec | src/hooks/useEntries.ts:85-106 | both lists as ReportListSpec says, and each report total is the sum of its list |
| EntriesHooks.SourcesCoverType | src/hooks/useEntries.ts:76-83 | the four source totals of a type add up to the total of that type |
| EntriesHooks.ReportTotalIsTypeTotal | src/hooks/useEntries.ts:85-106 | with non-negative amounts each report total is the whole total of its type |
| EntriesHooks.ReportRange | src/hooks/useEntries.ts:110 | a valid day is in range iff it is in the reference's year (and month, in month mode) |
| EntriesHooks.ReportSummaryOf | src/hooks/useEntries.ts:118 | a report exists iff data exists, and it is ReportOf the data |
| ReportTable.TotalRow | src/screens/ReportsScreen.tsx:145-161 | labelled 'Total'; every cell is '0' without a summary, otherwise the period's own figure for that column |
| ReportsScreen.Bucket.Plus | src/screens/ReportsScreen.tsx:116-120 | adds the day's value to each of the five columns, keeping the month |
| ReportsScreen.EmptyBucket | src/screens/ReportsScreen.tsx:105-114 | a new bucket has its month and every column at 0 |
| ReportsScreen.MonthlyBuckets | src/screens/ReportsScreen.tsx:102-123 | the reduce computes exactly BucketsOf and the creation order OrderOf |
| ReportsScreen.OrderMatchesBuckets | src/screens/ReportsScreen.tsx:102-114 | one bucket per distinct month present, created once each, and no other |
| ReportsScreen.BucketsSpec | src/screens/ReportsScreen.tsx:116-120 | each bucket's columns are the sums of the corresponding daily figures over its month's days |
| ReportsScreen.BucketsPartition | src/screens/ReportsScreen.tsx:102-123 | summed over all buckets, each column equals the sum over all days, which is what the yearly roll-up (transactionsService.ts:306-322) sums |
| ReportsScreen.TableData | src/screens/ReportsScreen.tsx:134-143 | no rows without a summary; otherwise one row per bucket in creation order, each showing its month's sums |
| ReportsScreen.TotalRowIsColumnSum | src/screens/ReportsScreen.tsx:134-161 | for a rolled-up year, each total-row cell is the sum of its column in the table |
| ReportsScreen.OrderAscending | src/screens/ReportsScreen.tsx:134-135 | for a year's ascending day list the months come out in ascending order |
| ReportsScreen.ReportsScreenState.ChangeYear | src/screens/ReportsScreen.tsx:98-100 | the selected year moves by exactly delta; nothing else changes |
| ReportsScreen.ReportsScreenState.LoadYearlySummary | src/screens/ReportsScreen.tsx:70-90 | the summary becomes the fetched one, or none with the error toast when the fetch fails |
| MonthlySummaryScreen.MonthStep | src/screens/MonthlySummaryScreen.tsx:115-129 | in range the month moves by delta; above 12 it becomes January of the next year, below 1 December of the previous; for ±1 year*12+month moves by exactly delta |
| MonthlySummaryScreen.MonthStepIsMonthOf | src/screens/MonthlySummaryScreen.tsx:115-129 | for ±1 the step agrees with the JavaScript Date month roll-over |
| MonthlySummaryScreen.ActiveDays | src/screens/MonthlySummaryScreen.tsx:197 | keeps, in order, exactly the days with income > 0 or expenses > 0 |
| MonthlySummaryScreen.ActiveDaysAppend | src/screens/MonthlySummaryScreen.tsx:197 | the filter distributes over concatenation (order is kept) |
| MonthlySummaryScreen.DaysWithActivity | src/screens/MonthlySummaryScreen.tsx:197 | empty without a summary, else the active days |
| MonthlySummaryScreen.DayRow | src/screens/MonthlySummaryScreen.tsx:208-216 | date and day name as label; channel and expense cells show the value when positive and '0' otherwise; the total cell always shows income |
| MonthlySummaryScreen.TableData | src/screens/MonthlySummaryScreen.tsx:208-216 | one row per active day, in order |
| MonthlySummaryScreen.MonthTotalRow | src/screens/MonthlySummaryScreen.tsx:218-234 | all '0' without a summary, otherwise the month's figures |
| MonthlySummaryScreen.SummarizedDaySound | src/services/transactionsService.ts:122-135 | a day summary of well-formed transactions has non-negative totals, channel totals within income and no expense by channel |
| MonthlySummaryScreen.ActiveRowsSum | src/screens/MonthlySummaryScreen.tsx:197-216 | dropping inactive days loses nothing: each column of the rows sums to the sum over all days |
| MonthlySummaryScreen.TotalRowIsColumnSum | src/screens/MonthlySummaryScreen.tsx:208-234 | for a rolled-up month of sound days, each total-row cell is the sum of its column |
| MonthlySummaryScreen.MonthlySummaryState.ChangeMonth | src/screens/MonthlySummaryScreen.tsx:115-129 | (year, month) becomes MonthStep of the old pair |
| MonthlySummaryScreen.MonthlySummaryState.SelectMonthAndYear | src/screens/MonthlySummaryScreen.tsx:131-135 | sets month and year and closes the picker |
| MonthlySummaryScreen.MonthlySummaryState.LoadSummary | src/screens/MonthlySummaryScreen.tsx:87-108 | the summary becomes the fetched one, or none with the error toast |
| AddTransactionScreen.KeepDigitsAndCommas | src/screens/AddTransactionScreen.tsx:38 | only digits and commas of the text remain, and never more characters than the text has |
| AddTransactionScreen.KeepCounts | src/screens/AddTransactionScreen.tsx:38 | every digit and comma is kept as often as it occurs in the text, and every other character is dropped (multiset counts) |
| AddTransactionScreen.KeepAppend | src/screens/AddTransactionScreen.tsx:38 | cleaning a concatenation is concatenating the cleaned parts, so the kept characters stay in their order |
| AddTransactionScreen.KeepAll | src/screens/AddTransactionScreen.tsx:38 | text made of digits and commas only is kept whole |
| AddTransactionScreen.CleanAmount | src/screens/AddTransactionScreen.tsx:38 | the kept characters, except that the first comma (and only it) becomes '.'; there is at most one '.', no comma before it, and there is one whenever a comma was kept; the text starts with a digit or '.' |
| AddTransactionScreen.ParseAmount | src/screens/AddTransactionScreen.tsx:37-41 | never negative; 0 when parseFloat gives NaN; otherwise the finite number parseFloat reads from the cleaned text (an infinity also gives 0) |
| AddTransactionScreen.ParseAmountNonNegative | src/screens/AddTransactionScreen.tsx:37-41 | the parsed amount is never negative ('-' is stripped) and never an infinity |
| AddTransactionScreen.ParseAmountNoDigits | src/screens/AddTransactionScreen.tsx:37-41 | text without digits (the empty text included) parses to 0 |
| AddTransactionScreen.ParseAmountDecimal | src/screens/AddTransactionScreen.tsx:37-41 | `int,frac` parses to the decimal it spells |
| AddTransactionScreen.ParseAmountInteger | src/screens/AddTransactionScreen.tsx:37-41 | a digit string parses to its value |
| AddTransactionScreen.ParseAmountIgnoresOthers | src/screens/AddTransactionScreen.tsx:38 | characters other than digits and commas do not matter |
| AddTransactionScreen.PositiveOrAbsent | src/screens/AddTransactionScreen.tsx:112-115 | a field is set iff its amount is > 0, and then to that amount |
| AddTransactionScreen.SavePayload | src/screens/AddTransactionScreen.tsx:110-116 | the day is kept, no note, each amount present iff positive |
| AddTransactionScreen.SavePayloadRoundTrip | src/screens/AddTransactionScreen.tsx:101-118 | the service's ensurePositive recovers each amount; rows are built iff some amount is non-zero |
| AddTransactionScreen.OwnerAsWrittenHidesRows | src/screens/AddTransactionScreen.tsx:118 | with the access token as owner, a saved income is invisible to a read by user id |
| AddTransactionScreen.OwnerShowsRows | src/screens/DailySummaryScreen.tsx:89 | with the user id as owner, a day read returns exactly the saved rows read back, with the payload's totals |
| AddTransactionScreen.AddTransactionForm.HandleSaveTransactions | src/screens/AddTransactionScreen.tsx:95-131 | as written: all-zero amounts give the error toast and send nothing; otherwise the payload is sent with the session's access token as the rows' owner, a failed insert gives the error toast and keeps the fields, and a successful one reads the rows back, clears the four fields and shows the success toast |
| AddTransactionScreen.AddTransactionForm.HandleSaveTransactionsIntended | src/screens/AddTransactionScreen.tsx:95-131 | the same save with the user's id as owner, which the day view reads back (OwnerShowsRows) |
| AddTransactionScreen.AddTransactionForm.OnDateChange | src/screens/AddTransactionScreen.tsx:133-138 | a picked date replaces the selected day; dismissal keeps it |
| Auth.FirstFailure | src/components/Auth.tsx:154-173 | no failure iff all three checks hold; otherwise the message of the first failing check in the order e-mail, password, confirmation; the password length is counted in UTF-16 code units |
| Auth.CanSubmitIffNoFailure | src/components/Auth.tsx:154-157 | canSubmit iff not loading and handleSubmit finds no failing check |
| Auth.AstralPasswordAccepted | src/components/Auth.tsx:155-156 | three characters outside the Basic Multilingual Plane are six UTF-16 code units and pass the password check |
| Auth.SignInIgnoresConfirm | src/components/Auth.tsx:156 | when signing in the confirmation is irrelevant |
| Auth.EmailShapeIffPattern | src/components/Auth.tsx:154 | the e-mail pattern holds iff: no white space; one '@' with text before it; after it a '.' that is neither first nor last |
| Auth.EmailValidOneAt | src/components/Auth.tsx:154 | a valid trimmed e-mail has no white space and exactly one '@', not first |
| Auth.OutcomeFeedback | src/components/Auth.tsx:178-204 | error feedback iff the auth call failed, carrying its message when there is one |
| Auth.AuthForm.EnterMode | src/components/Auth.tsx:129-133 | entering signIn empties the confirmation; other fields kept |
| Auth.AuthForm.HandleModeChange | src/components/Auth.tsx:207-210 | sets the mode and clears feedback |
| Auth.AuthForm.HandleSubmit | src/components/Auth.tsx:159-205 | a failing check sets its message and sends nothing; otherwise the trimmed e-mail and the password are sent; a successful sign-up ends in signIn with the confirmation cleared; loading ends false |
| Auth.AuthForm.Proceed | src/components/Auth.tsx:159-205 | a known failure is shown and nothing is sent; otherwise the mode, the e-mail given and the password are sent and the outcome decides the feedback; only a successful sign-up switches to signIn and clears the confirmation; e-mail and password are kept |
| Auth.AuthForm.Authenticate | src/components/Auth.tsx:175-204 | the call's outcome decides the feedback; sign-up success switches to signIn |
| ResetPassword.ValidationFailure | src/components/ResetPassword.tsx:41-55 | passes iff the trimmed password has >= 6 UTF-16 code units and equals the confirmation untrimmed; the length check comes first |
| ResetPassword.UntrimmedComparison | src/components/ResetPassword.tsx:48 | a trailing space makes equal-looking passwords mismatch |
| ResetPassword.TrailingSpaceRefused | src/components/ResetPassword.tsx:42-48 | for any long enough password, a trailing space in one field only is refused as a mismatch although both fields trim to the same text |
| ResetPassword.AstralPasswordAccepted | src/components/ResetPassword.tsx:42 | three characters outside the Basic Multilingual Plane pass the length check |
| ResetPassword.ResetPasswordForm.Validate | src/components/ResetPassword.tsx:41-55 | returns true iff ValidationFailure is none; a failure sets its message; fields untouched |
| ResetPassword.ResetPasswordForm.HandleSubmit | src/components/ResetPassword.tsx:57-89 | a failing validation stops before any call; otherwise the trimmed password is sent, success clears both fields, failure reports its message; loading ends false; a sent password is its own trim and has >= 6 UTF-16 code units |
| ResetPassword.ResetPasswordForm.Update | src/components/ResetPassword.tsx:62-89 | sends the trimmed password; success shows the success message and clears both fields; failure shows the error message (or the default) and keeps them; loading ends false |
| ProfileSheet.FirstMatchNone | src/components/ProfileSheet.tsx:39 | the search finds nothing iff no position starts a match |
| ProfileSheet.FirstMatchAt | src/components/ProfileSheet.tsx:39 | a match with no match before it is what the search finds |
| ProfileSheet.FirstMatchLeftmost | src/components/ProfileSheet.tsx:39 | the search finds the leftmost match in the text |
| ProfileSheet.SheetBackground | src/components/ProfileSheet.tsx:37-46 | the colour is surfaceStrong when non-empty, else surface; without a match it comes back unchanged; otherwise it is rgb(r, g, b) built from the channels of the leftmost match |
| ProfileSheet.RgbaBecomesRgb | src/components/ProfileSheet.tsx:37-46 | `rgba(r,g,b,a)` with the four letters in any case and any white space around the commas, after any text without '(' and before any text, becomes `rgb(r, g, b)` |
| ProfileSheet.PaletteColorBecomesRgb | src/components/ProfileSheet.tsx:37-46 | a colour written `rgba(r, g, b, a)` (one space after each comma) becomes `rgb(r, g, b)` |
| ProfileSheet.MetadataDisplayName | src/components/ProfileSheet.tsx:55-58 | the metadata display name if it is a string, else '' |
| ProfileSheet.InitialsSourceOrder | src/components/ProfileSheet.tsx:61 | the first non-empty of display name, metadata name, e-mail, chosen before trimming |
| ProfileSheet.LeadingOfWords | src/components/ProfileSheet.tsx:66-70 | mapping to upper-cased first characters and then filtering gives one letter group per non-empty word |
| ProfileSheet.InitialsOfWords | src/components/ProfileSheet.tsx:60-74 | 'U' when the chosen source has no word; else the upper-cased first characters of its first one or two words |
| ProfileSheet.Initials | src/components/ProfileSheet.tsx:60-74 | the initials are never empty |
| ProfileSheet.BlankDisplayNameGivesU | src/components/ProfileSheet.tsx:61-64 | a white-space display name wins the choice and yields 'U' whatever the metadata name |
| ProfileSheet.TwoWordInitials | src/components/ProfileSheet.tsx:60-74 | two words give their two upper-cased first letters |
| ProfileSheet.HeaderTitle | src/components/ProfileSheet.tsx:175 | the display name if it is not blank, else the metadata name, else 'Bienvenido' |
| ProfileSheet.LoadedName | src/components/ProfileSheet.tsx:76-100 | the loaded name if the profile holds a string, else the metadata name |
| ProfileSheet.ProfileSheetState.LoadProfile | src/components/ProfileSheet.tsx:76-100 | the name is the loaded one; a failure reports its message; loading ends false |
| ProfileSheet.ProfileSheetState.HandleSave | src/components/ProfileSheet.tsx:110-135 | sends the trimmed name, or null when blank; failure keeps the name and reports; success reloads |
| ProfileSheet.ProfileSheetState.OnVisibleChange | src/components/ProfileSheet.tsx:102-108 | opening reloads the profile; closing clears feedback |
| Text.TrimEmptyIffAllSpace | src/screens/EntriesScreen.tsx:92 | trimming gives the empty text iff the text is all white space |
| Text.TrimIdempotent | src/components/ResetPassword.tsx:66 | trimming twice is trimming once |
| Text.SplitJoin | src/components/ProfileSheet.tsx:67 | joining the pieces of a split with its separator gives the text back |
| Text.NonBlankTrim | src/components/ProfileSheet.tsx:111-119 | the trimmed text, or none when it is blank |
| Text.Trim | src/components/ResetPassword.tsx:42 | the slice of the text after its leading white space (TrimOffset) that neither starts nor ends with white space; what is cut from the end is white space too |
| Text.Utf16Length | src/components/Auth.tsx:155-156 | between the number of characters and twice it, equal to it iff no character lies outside the Basic Multilingual Plane |
| Text.ReplaceFirst | src/components/EntryFormModal.tsx:111 | same length; only the first occurrence of the character is replaced, everything else kept |
| Text.Split | src/components/ProfileSheet.tsx:67 | at least one piece and no piece contains the separator (SplitJoin gives the round trip) |
| Numbers.ParseFloatDecimal | src/screens/AddTransactionScreen.tsx:39 | `parseFloat` of `int.frac` followed by a non-numeric rest is the decimal it spells |
| Numbers.ParseFloatNotNegative | src/screens/AddTransactionScreen.tsx:39 | without a leading '-' parseFloat never gives a negative number |
| Numbers.ParseFloatInteger | src/screens/AddTransactionScreen.tsx:39 | `parseFloat` of a digit string followed by a rest that does not start with a digit, '.', 'e' or 'E' is the integer it spells |
| Numbers.StringToNumberDecimal | src/components/EntryFormModal.tsx:111 | `Number` of a decimal text is the decimal it spells |
| EntryFormModal.SourceOptions | src/components/EntryFormModal.tsx:96 | non-empty, and exactly the sources that fit the type |
| EntryFormModal.TypeChanged | src/components/EntryFormModal.tsx:98-104 | sets the type and the matching default source (cash, or expense); other fields kept |
| EntryFormModal.TypeChangeIdempotent | src/components/EntryFormModal.tsx:98-104 | switching twice is switching once; re-selecting the type only resets a non-default source |
| EntryFormModal.SourceChangeConsistent | src/components/EntryFormModal.tsx:96-108 | a source picked from the options keeps the form consistent |
| EntryFormModal.InitialForm | src/components/EntryFormModal.tsx:74-94 | no entry: empty amount, income, cash, today; an entry: its fields copied |
| EntryFormModal.InitialFormConsistent | src/components/EntryFormModal.tsx:74-94 | a fresh form is consistent, an edited one iff the entry was |
| EntryFormModal.SubmitAmount | src/components/EntryFormModal.tsx:111-116 | accepted iff the comma-to-point text parses to a finite number > 0, and then that number |
| EntryFormModal.SubmitAmountDecimal | src/components/EntryFormModal.tsx:111-112 | `int,frac` and `int.frac` give the decimal they spell when positive; zero is refused |
| EntryFormModal.SubmitAmountRefusesBlankAndZero | src/components/EntryFormModal.tsx:113-116 | '' and '0' are refused |
| EntryFormModal.Submission | src/components/EntryFormModal.tsx:110-130 | alert iff the amount is refused; otherwise a payload with the positive amount, type, source, date and the trimmed note (none when blank), with the entry's id |
| EntryFormModal.SubmissionConsistent | src/components/EntryFormModal.tsx:96-128 | a consistent form submits a payload whose source fits its type and whose note is trimmed and non-empty |
| EntryFormModal.EditRoundTrip | src/components/EntryFormModal.tsx:74-130 | opening an entry and submitting unchanged sends its own fields back with its id |
| EntryFormModal.EntryForm.OnShow | src/components/EntryFormModal.tsx:74-94 | showing the modal resets the form to InitialForm |
| EntryFormModal.EntryForm.HandleTypeChange | src/components/EntryFormModal.tsx:98-104 | the form becomes TypeChanged |
| EntryFormModal.EntryForm.HandleSourceChange | src/components/EntryFormModal.tsx:106-108 | only the source changes |
| EntryFormModal.EntryForm.HandleDateChange | src/components/EntryFormModal.tsx:132-136 | a picked date replaces the date; dismissal keeps it |
| EntryFormModal.EntryForm.HandleSubmit | src/components/EntryFormModal.tsx:110-130 | the outcome is Submission of the form; a sent payload has a positive amount and the entry's id |
| EntriesScreen.FreshDraft | src/screens/EntriesScreen.tsx:81-89 | today's date, empty category, amount 0, empty note |
| EntriesScreen.AmountFromText | src/screens/EntriesScreen.tsx:210-212 | never NaN; the Number of the text with its first ',' made '.', with NaN read as 0 |
| EntriesScreen.AmountFromTextDecimal | src/screens/EntriesScreen.tsx:210-212 | a decimal typed with ',' or '.' becomes the number it spells |
| EntriesScreen.AmountFromBlank | src/screens/EntriesScreen.tsx:210-212 | blank text becomes 0 |
| EntriesScreen.DraftFailure | src/screens/EntriesScreen.tsx:92-100 | passes iff the category is not blank and the amount is neither NaN nor 0; a blank category is reported first |
| EntriesScreen.NegativeAmountAccepted | src/screens/EntriesScreen.tsx:97-100 | negative amounts and infinities pass |
| EntriesScreen.FreshDraftRefused | src/screens/EntriesScreen.tsx:81-95 | a fresh draft is refused for its missing category |
| EntriesScreen.DraftPayload | src/screens/EntriesScreen.tsx:103-107 | fields kept; the note trimmed, null only when absent |
| EntriesScreen.PayloadNoteKept | src/screens/EntriesScreen.tsx:106 | an empty or blank note is sent as '', and the sent note is trimmed |
| EntriesScreen.AmountTone | src/screens/EntriesScreen.tsx:118 | positive colour iff amount >= 0 |
| EntriesScreen.CategoryLabel | src/screens/EntriesScreen.tsx:123 | the category, or 'Sin categoría' |
| EntriesScreen.EntriesScreenState.HandleOpenModal | src/screens/EntriesScreen.tsx:81-89 | the draft is reset and the modal opens |
| EntriesScreen.EntriesScreenState.OnAmountText | src/screens/EntriesScreen.tsx:210-212 | only the draft's amount changes, to AmountFromText |
| EntriesScreen.EntriesScreenState.HandleSubmitEntry | src/screens/EntriesScreen.tsx:91-114 | a failing check alerts and changes nothing; otherwise the payload is sent; failure alerts and keeps the modal; success closes it and reloads |
| EntriesScreen.EntriesScreenState.LoadEntries | src/screens/EntriesScreen.tsx:46-63 | a fetched list replaces the entries without alert; a failed fetch keeps them and raises the load-error alert; the spinner, when used, ends off; draft and modal unchanged |
| DailyScreen.DailyTotals | src/screens/DailyScreen.tsx:46-59 | income is the sum of income entries; expense is the sum of all other entries; none without data |
| DailyScreen.DayTotalsSplit | src/screens/DailyScreen.tsx:46-59 | income plus expense is the day's plain total |
| DailyScreen.DayTotalsMatchMarker | src/screens/DailyScreen.tsx:46-59 | on a day's entries the two totals add up to that day's marker total (useEntries.ts:45-59) |
| DailyScreen.StyleFor | src/screens/DailyScreen.tsx:68-95 | the selected day is primary and bold; another day is danger iff it has an expense, primaryAlt otherwise |
| DailyScreen.MarkedDates | src/screens/DailyScreen.tsx:63-100 | keys are exactly the marker dates plus the selected date, each styled by StyleFor |
| DailyScreen.MarksFollowEntries | src/screens/DailyScreen.tsx:63-82 | a marked day other than the selected one has entries, and is danger iff one of them is an expense |
| DailyScreen.Dispatch | src/screens/DailyScreen.tsx:130-136 | an update iff a non-empty id is given, else a create, carrying the payload |
| DailyScreen.FormDispatch | src/screens/DailyScreen.tsx:130-136 | a form opened on an entry updates it; an empty form creates |
| DailyScreen.DailyScreenState.HandleSubmit | src/screens/DailyScreen.tsx:104-136 | success closes the modal (an update forgets the edited entry); failure raises the matching alert and changes nothing |
| DailyScreen.DailyScreenState.OpenEdit | src/screens/DailyScreen.tsx:144-148 | the entry to edit is set and the modal opens |
| DailyScreen.DailyScreenState.OpenCreate | src/screens/DailyScreen.tsx:138-142 | no entry is being edited and the modal opens |

## Left out

- Remote persistence and auth are left out. The model has no Supabase queries or inserts, and no `supabase.auth.*` calls (sign in/up, update user, refresh session, sign out, profile read/write). A fetch is a function over a given table of rows. The outcome of every other remote call is a method parameter.
- PeriodSummaries.FetchTransactions keeps the table's row order. The query's `order('entry_date')` is not modelled. A day summary re-sorts its transactions anyway, and no total depends on order.
- `normaliseToISO` and its fallback to the current time are not modelled. Stored rows carry a `Calendar.Day`, so a missing or unparsable date cannot occur.
- Day keys are not re-derived through `new Date`/`format` in local time. Time zones are not modelled.
- Formatting through date-fns and Intl (`formatNumber`, date labels) is not modelled. A table cell holds the number it shows.
- ReportsScreen keys its month buckets by the locale month abbreviation (`'MMM'`). Here the key is the month number. Within one year these give the same partition.
- Floating point is not modelled. Amounts are exact reals, so `+=` and `parseFloat` do not round. A decimal literal too large for a double does not overflow to Infinity.
- The model has no React Query caching or invalidation, and no effects scheduling, `setTimeout`, haptics or animations. Toasts are modelled by their message only. The model also leaves out the date-picker and password-visibility flags, and pull-to-refresh (`onRefresh`).
- TransactionsService.BuildDailySummary sorts a fresh array holding a copy of the transactions. The source sorts the caller's list in place, and that aliasing is not modelled. Its comparator never returns 0, so the order of equal dates is unspecified. The model proves only that the result is a permutation in non-increasing date order.
- DailyScreen `handleDelete` and the `remove` mutation are not modelled; they are a confirm dialog followed by a remote delete. `handleMonthChange` (calendar paging) is not modelled either. `handleUpdate`'s early return for a missing id cannot be reached through `handleSubmit`, which only calls it with an id.
- ProfileSheet `handleSignOut` is not modelled; it is a single remote call.
- ProfileSheet.InitialsOfWords: a word's first character is a whole code point here. `piece[0]` in the source takes one UTF-16 code unit, so a word starting outside the Basic Multilingual Plane gives half a surrogate pair there; this is not modelled.
- ProfileSheet.Initials: its own contract says only that the result is non-empty. The full characterisation is the lemma ProfileSheet.InitialsOfWords.
- Text.UpperOf covers ASCII and Latin-1 letters only. Upper-casing of other Unicode characters is not modelled.
- `useEntriesForDate`, `useEntryMutations` and `src/services/entries.ts` are not modelled; they are query and mutation wiring around remote calls.
- Rendering, styles, theming, ads and navigation are not part of this model.

## Findings

| source | as written | input that shows it | evidently intended | confidence | as-written member | corrected member |
|---|---|---|---|---|---|---|
| src/screens/AddTransactionScreen.tsx:118 | the rows are saved with `session.access_token` as their `user_id` | a session with user id "user-1" and token "token-1" saves a card income of 10; the day read by user id (DailySummaryScreen.tsx:89) returns nothing | rows are owned by `session.user.id`, the id every read and delete filters by (DailySummaryScreen.tsx:89,134) | not executed | AddTransactionScreen.OwnerAsWrittenHidesRows | AddTransactionScreen.OwnerShowsRows |
