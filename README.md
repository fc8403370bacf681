# TrackerDiplom core in Dafny

A model of the logic at the centre of TrackerDiplom, an Android personal
finance tracker. The model covers these parts:

- **Transaction list view.** Filtering by month, by type (income or expense) and by case-insensitive search, plus the monthly income and expense totals.
- **Statistics page.** The category breakdown behind the pie charts and the legend's sort order.
- **Add/edit dialog.** Pre-filling the fields and the Save rule.
- **PIN handling.** The two-step PIN setup screen and the PIN store.
- **Categories.** The category table, with default seeding and add/remove.
- **CSV export.** The text the export writes.

Each part has properties proved about it:

- **List view.** The filtered list holds exactly the transactions of the month that pass the type filter and the query, in their original order. The totals have the right signs and add up to the month's sum.
- **Breakdown.** There is one slice per distinct category, in first-seen order. Slice amounts add up to the total. For a list with a non-zero total the shares add up to 1, and each lies in (0, 1] when no amount is zero. The legend order is a sorted permutation of the slices.
- **Dates.** The text form of a date reads back as the same date, in both directions.
- **Add/edit dialog.** Saving an opened transaction without edits hands back the same transaction.
- **PIN setup.** Both PIN fields always hold at most four characters. A match stores the PIN, a mismatch starts over.
- **Category table.** Inserting with REPLACE keeps names unique and is idempotent. This takes the category's name to be the table key (see Left out).
- **CSV export.** When every date converts, the export cuts back into a header plus one line per transaction carrying its six fields, as long as no field contains a comma or a line break. A date that does not convert ends the export with no file.

The model is split into these modules:

- **Values.** `Transactions`, `TransactionMapper`, `TransactionUiState` and `Dates`.
- **Stock library behaviour.** `Text` (Kotlin string functions), `Seqs` (`filter`) and `Wrappers` (nullable values).
- **Pure computations.** `TransactionViewModel.ComputeView`, `StatsScreen.LabeledSlices`, `StatsScreen.Summarize` and `SettingsScreen.ExportCsv`.
- **Classes for state the app updates in place.** `TransactionViewModel`, `StatsScreenState`, `AddEditTransactionDialog`, `AuthManager`, `SetupPinScreen`, `CategoryTable`, `SettingsViewModel` and `SettingsScreen`. Their methods state the whole new state.

Decisions:

- **Amounts** are whole numbers (minor units), and shares are exact rationals (`real`).
- **`LocalDate.now()` and `YearMonth.now()`** are constructor parameters.
- **The CSV date column** comes from a `java.util.Date` built from the stored text. That conversion is a function parameter `renderDate` that may fail (`None`). A failure ends the export with no file, as the constructor's exception would.
- **The month filter runs `LocalDate.parse` on every stored date**, and that call throws on bad text. Callers therefore have to supply dates that parse (`AllDatesParse`).
- **The category row type** (`data/Category.kt`) is not part of this model. A category is taken to be its name, and the name is the table's key.

## Model

| member | source | states |
|---|---|---|
| Text.TrimStartDropsBlanks | app/src/main/java/com/mik0sta/trackerdiplom/ui/SettingsScreen.kt:91 | every character `trim()` removes from the front is whitespace |
| Text.TrimEndDropsBlanks | app/src/main/java/com/mik0sta/trackerdiplom/ui/SettingsScreen.kt:91 | every character `trim()` removes from the back is whitespace |
| Text.TrimStartKeepsNonBlank | app/src/main/java/com/mik0sta/trackerdiplom/ui/SettingsScreen.kt:91 | after `trim()` removes leading whitespace, what is left is empty or starts with a non-whitespace character |
| Text.TrimEndKeepsNonBlank | app/src/main/java/com/mik0sta/trackerdiplom/ui/SettingsScreen.kt:91 | after `trim()` removes trailing whitespace, what is left is empty or ends with a non-whitespace character |
| Text.TrimIsInfix | app/src/main/java/com/mik0sta/trackerdiplom/ui/SettingsScreen.kt:91 | `trim()` yields the contiguous part of the input that starts after the leading whitespace |
| Text.TrimHasNoOuterWhitespace | app/src/main/java/com/mik0sta/trackerdiplom/ui/SettingsScreen.kt:91 | the result of `trim()` has no whitespace at either end |
| Text.TrimEmptyIffBlank | app/src/main/java/com/mik0sta/trackerdiplom/ui/SettingsScreen.kt:90-91 | trimming leaves nothing exactly when the input is blank (`isNotBlank` guard ⇔ non-empty trimmed name) |
| Text.IsWhitespace | app/src/main/java/com/mik0sta/trackerdiplom/ui/SettingsScreen.kt:90 | the characters Kotlin's `isWhitespace` accepts (ASCII controls 9–13 and 28–31, space, and the Unicode space separators) |
| Text.IsBlank | app/src/main/java/com/mik0sta/trackerdiplom/ui/SettingsScreen.kt:90 | `isBlank`: every character is whitespace (so the empty text is blank) |
| Text.Trim | app/src/main/java/com/mik0sta/trackerdiplom/ui/SettingsScreen.kt:91 | `trim()`: leading whitespace dropped, then trailing whitespace |
| Text.Take | app/src/main/java/com/mik0sta/trackerdiplom/ui/auth/SetupPinScreen.kt:42 | `take(n)` is a prefix of at most n characters, the whole string when it is short enough, exactly n otherwise |
| Text.ContainsIgnoreCaseBasics | app/src/main/java/com/mik0sta/trackerdiplom/ui/TransactionViewModel.kt:42-43 | case-insensitive containment holds for the string itself and the empty query, and needs the query to be no longer |
| Text.Fold | app/src/main/java/com/mik0sta/trackerdiplom/ui/TransactionViewModel.kt:42-43 | the case fold behind `ignoreCase = true`: never an upper-case letter of the covered ranges, and only those letters change |
| Text.FoldIdempotent | app/src/main/java/com/mik0sta/trackerdiplom/ui/TransactionViewModel.kt:42-43 | folding a folded character changes nothing |
| Text.FoldAll | app/src/main/java/com/mik0sta/trackerdiplom/ui/TransactionViewModel.kt:42-43 | a string folded character by character, same length |
| Text.ContainsIgnoreCase | app/src/main/java/com/mik0sta/trackerdiplom/ui/TransactionViewModel.kt:42-43 | `contains(q, ignoreCase = true)`: some position where the query matches up to case |
| Text.ContainsIgnoreCaseIgnoresCase | app/src/main/java/com/mik0sta/trackerdiplom/ui/TransactionViewModel.kt:42-43 | folding the text or the query first does not change the answer |
| Text.IntToString | app/src/main/java/com/mik0sta/trackerdiplom/ui/SettingsScreen.kt:147 | the decimal text of an integer: non-empty, digits and a minus sign only |
| Text.NatToStringRoundTrip | app/src/main/java/com/mik0sta/trackerdiplom/ui/AddEditTransactionDialog.kt:38 | the decimal text of a magnitude reads back as that magnitude |
| Text.PadDigitsRoundTrip | app/src/main/java/com/mik0sta/trackerdiplom/ui/AddEditTransactionDialog.kt:73 | a zero-padded field of a date reads back as the number written |
| Text.PadDigitsCanonical | app/src/main/java/com/mik0sta/trackerdiplom/ui/AddEditTransactionDialog.kt:45 | a digit field is the padded form of its own value, so a parsed date writes back to the same text |
| Seqs.FilterMembers | app/src/main/java/com/mik0sta/trackerdiplom/ui/TransactionViewModel.kt:30-33 | `filter` keeps exactly the elements satisfying the predicate |
| Seqs.FilterIsSubsequence | app/src/main/java/com/mik0sta/trackerdiplom/ui/TransactionViewModel.kt:30-44 | `filter` keeps the original order and adds or duplicates nothing |
| Seqs.SubsequenceMultiset | app/src/main/java/com/mik0sta/trackerdiplom/ui/TransactionViewModel.kt:30-44 | a filtered list never holds more copies of a transaction than the input |
| Seqs.FilterFuse | app/src/main/java/com/mik0sta/trackerdiplom/ui/TransactionViewModel.kt:30-47 | filtering twice equals filtering once by both conditions |
| Seqs.FilterExtensional | app/src/main/java/com/mik0sta/trackerdiplom/ui/TransactionViewModel.kt:30-47 | filters by conditions that agree everywhere give the same list |
| Seqs.FilterCommutes | app/src/main/java/com/mik0sta/trackerdiplom/ui/TransactionViewModel.kt:35-44 | two filters applied in either order give the same list |
| Dates.YearMonth.Next | app/src/main/java/com/mik0sta/trackerdiplom/ui/TransactionViewModel.kt:77-79 | `plusMonths(1)` advances the month ordinal by exactly one, December rolling to January of the next year |
| Dates.YearMonth.Previous | app/src/main/java/com/mik0sta/trackerdiplom/ui/TransactionViewModel.kt:73-75 | `minusMonths(1)` moves the ordinal back by exactly one |
| Dates.NextPreviousInverse | app/src/main/java/com/mik0sta/trackerdiplom/ui/TransactionViewModel.kt:73-79 | next then previous, and previous then next, return to the same year-month |
| Dates.YearMonthOf | app/src/main/java/com/mik0sta/trackerdiplom/ui/TransactionViewModel.kt:32 | `YearMonth.from(date)` keeps year and month and drops the day |
| Dates.DaysInMonth | app/src/main/java/com/mik0sta/trackerdiplom/ui/AddEditTransactionDialog.kt:53 | every month has 28 to 31 days |
| Dates.FormatDate | app/src/main/java/com/mik0sta/trackerdiplom/ui/AddEditTransactionDialog.kt:73 | `LocalDate.toString` is ten characters with dashes at positions 4 and 7 |
| Dates.ParseDate | app/src/main/java/com/mik0sta/trackerdiplom/ui/TransactionViewModel.kt:31 | `LocalDate.parse` yields only real calendar days |
| Dates.ParseFormatRoundTrip | app/src/main/java/com/mik0sta/trackerdiplom/ui/AddEditTransactionDialog.kt:73 | parsing the text `toString` writes gives back the same date |
| Dates.FormatParseRoundTrip | app/src/main/java/com/mik0sta/trackerdiplom/ui/AddEditTransactionDialog.kt:45 | any text that parses is exactly what `toString` writes for the parsed date |
| Transactions.SumAmounts | app/src/main/java/com/mik0sta/trackerdiplom/ui/TransactionViewModel.kt:46-47 | `sumOf { it.amount }`, the sum of a list's amounts |
| Transactions.IncomeSumNonNegative | app/src/main/java/com/mik0sta/trackerdiplom/ui/TransactionViewModel.kt:46 | the income total is never negative |
| Transactions.ExpenseSumNonPositive | app/src/main/java/com/mik0sta/trackerdiplom/ui/TransactionViewModel.kt:47 | the expense total is never positive |
| Transactions.IncomeExpenseSplit | app/src/main/java/com/mik0sta/trackerdiplom/ui/TransactionViewModel.kt:46-47 | income total plus expense total equals the sum of all amounts (zero amounts are in neither) |
| TransactionMapper.ToModel | app/src/main/java/com/mik0sta/trackerdiplom/data/local/TransactionMapper.kt:6-12 | `toModel` copies every field unchanged |
| TransactionMapper.ToEntity | app/src/main/java/com/mik0sta/trackerdiplom/data/local/TransactionMapper.kt:14-20 | `toEntity` copies every field unchanged |
| TransactionMapper.ModelRoundTrip | app/src/main/java/com/mik0sta/trackerdiplom/data/local/TransactionMapper.kt:6-20 | entity → model → entity is the identity |
| TransactionMapper.EntityRoundTrip | app/src/main/java/com/mik0sta/trackerdiplom/data/local/TransactionMapper.kt:6-20 | model → entity → model is the identity |
| TransactionUiState.Initial | app/src/main/java/com/mik0sta/trackerdiplom/ui/state/TransactionUiState.kt:6-15 | the default state: empty lists, January, no filter, empty hidden search, zero totals |
| TransactionViewModel.ByTypeMembers | app/src/main/java/com/mik0sta/trackerdiplom/ui/TransactionViewModel.kt:35-39 | `true` keeps exactly amounts > 0, `false` exactly amounts < 0, `null` everything |
| TransactionViewModel.BySearchMembers | app/src/main/java/com/mik0sta/trackerdiplom/ui/TransactionViewModel.kt:41-44 | a blank query keeps everything; otherwise exactly the items whose title or category contains the untrimmed query up to case |
| TransactionViewModel.SelectionMembers | app/src/main/java/com/mik0sta/trackerdiplom/ui/TransactionViewModel.kt:30-44 | the month, type and search steps together keep exactly the transactions that all three admit |
| TransactionViewModel.SelectionIsSubsequence | app/src/main/java/com/mik0sta/trackerdiplom/ui/TransactionViewModel.kt:30-44 | the three steps together keep the transactions in their stored order |
| TransactionViewModel.ByMonth | app/src/main/java/com/mik0sta/trackerdiplom/ui/TransactionViewModel.kt:30-33 | the month step: `filter` by the parsed date's year-month |
| TransactionViewModel.ByType | app/src/main/java/com/mik0sta/trackerdiplom/ui/TransactionViewModel.kt:35-39 | the type step: `when (filter)` over amounts > 0, < 0 or everything |
| TransactionViewModel.BySearch | app/src/main/java/com/mik0sta/trackerdiplom/ui/TransactionViewModel.kt:41-44 | the search step: a blank query keeps the list, otherwise `filter` by title or category containing the query up to case |
| TransactionViewModel.SelectionIsFilter | app/src/main/java/com/mik0sta/trackerdiplom/ui/TransactionViewModel.kt:30-44 | the three steps together equal one `filter` by month ∧ type ∧ search over the stored list |
| TransactionViewModel.ComputeView | app/src/main/java/com/mik0sta/trackerdiplom/ui/TransactionViewModel.kt:26-59 | echoes inputs (month-of-year only); the filtered list is exactly `filter` of the stored list by month ∧ type ∧ search, so an ordered subsequence; the income total is the sum of the month's amounts > 0 and the expense total of its amounts < 0, so income ≥ 0, expense ≤ 0 and their sum is the month's sum |
| TransactionViewModel.TotalsIgnoreFilterAndSearch | app/src/main/java/com/mik0sta/trackerdiplom/ui/TransactionViewModel.kt:46-47 | the totals depend on neither the type filter nor the query nor the search box |
| TransactionViewModel.TypeAndSearchCommute | app/src/main/java/com/mik0sta/trackerdiplom/ui/TransactionViewModel.kt:35-44 | type-then-search equals search-then-type |
| TransactionViewModel.TransactionViewModel.constructor | app/src/main/java/com/mik0sta/trackerdiplom/ui/TransactionViewModel.kt:19-24 | starts with no transactions, the current month, no filter, empty hidden search |
| TransactionViewModel.TransactionViewModel.OnTransactions | app/src/main/java/com/mik0sta/trackerdiplom/ui/TransactionViewModel.kt:19-20 | a store snapshot replaces the list and nothing else |
| TransactionViewModel.TransactionViewModel.PreviousMonth | app/src/main/java/com/mik0sta/trackerdiplom/ui/TransactionViewModel.kt:73-75 | only the month changes, one month back |
| TransactionViewModel.TransactionViewModel.NextMonth | app/src/main/java/com/mik0sta/trackerdiplom/ui/TransactionViewModel.kt:77-79 | only the month changes, one month forward |
| TransactionViewModel.TransactionViewModel.SetFilter | app/src/main/java/com/mik0sta/trackerdiplom/ui/TransactionViewModel.kt:81-83 | only the filter changes |
| TransactionViewModel.TransactionViewModel.SetSearchQuery | app/src/main/java/com/mik0sta/trackerdiplom/ui/TransactionViewModel.kt:85-87 | only the query changes |
| TransactionViewModel.TransactionViewModel.ToggleSearchVisibility | app/src/main/java/com/mik0sta/trackerdiplom/ui/TransactionViewModel.kt:89-91 | only the visibility flips |
| TransactionViewModel.TransactionViewModel.UiState | app/src/main/java/com/mik0sta/trackerdiplom/ui/TransactionViewModel.kt:26-59 | the exposed state: the filtered list is the three steps over the stored list, and the two totals add up to the month's sum |
| TransactionViewModel.RoundTrips | app/src/main/java/com/mik0sta/trackerdiplom/ui/TransactionViewModel.kt:73-91 | next then previous month, and two toggles, leave the view model unchanged |
| StatsScreen.Categories | app/src/main/java/com/mik0sta/trackerdiplom/ui/StatsScreen.kt:273 | the group keys: distinct, and exactly the categories that occur |
| StatsScreen.FirstIndex | app/src/main/java/com/mik0sta/trackerdiplom/ui/StatsScreen.kt:273 | where a category first occurs |
| StatsScreen.BuildSlices | app/src/main/java/com/mik0sta/trackerdiplom/ui/StatsScreen.kt:283-290 | slice i carries key i, its group sum, share sum/total and colour i mod 12 |
| StatsScreen.LabeledSlices | app/src/main/java/com/mik0sta/trackerdiplom/ui/StatsScreen.kt:269-291 | empty when the total of absolute amounts is 0; otherwise one slice per key in key order, amount = group sum of \|amount\|, value = amount/total, colour = index mod 12 |
| StatsScreen.TotalAbs | app/src/main/java/com/mik0sta/trackerdiplom/ui/StatsScreen.kt:270 | `sumOf { abs(amount) }`; zero exactly when every amount is zero |
| StatsScreen.GroupAbs | app/src/main/java/com/mik0sta/trackerdiplom/ui/StatsScreen.kt:273-275 | one group's sum of absolute amounts, by category |
| StatsScreen.GroupAbsAbsent | app/src/main/java/com/mik0sta/trackerdiplom/ui/StatsScreen.kt:273-275 | a category that does not occur has group sum 0 |
| StatsScreen.GroupAbsBounded | app/src/main/java/com/mik0sta/trackerdiplom/ui/StatsScreen.kt:273-275 | no group sum exceeds the total |
| StatsScreen.GroupAbsPositive | app/src/main/java/com/mik0sta/trackerdiplom/ui/StatsScreen.kt:273-275 | an occurring category's group sum is positive when no amount is zero |
| StatsScreen.SumGroupsTotal | app/src/main/java/com/mik0sta/trackerdiplom/ui/StatsScreen.kt:270-275 | the group sums over all keys add up to the total |
| StatsScreen.SumGroupsSnoc | app/src/main/java/com/mik0sta/trackerdiplom/ui/StatsScreen.kt:273-275 | appending a transaction adds its \|amount\| to exactly its own group |
| StatsScreen.BuildSlicesSums | app/src/main/java/com/mik0sta/trackerdiplom/ui/StatsScreen.kt:283-290 | the built slices' amounts and values add up to the group sums and their share |
| StatsScreen.SliceAmountsSumToTotal | app/src/main/java/com/mik0sta/trackerdiplom/ui/StatsScreen.kt:270-275 | slice amounts sum to the total |
| StatsScreen.SliceValuesSumToOne | app/src/main/java/com/mik0sta/trackerdiplom/ui/StatsScreen.kt:270-287 | slice values sum to exactly 1 when the total is positive |
| StatsScreen.SlicesEmptyIffZeroTotal | app/src/main/java/com/mik0sta/trackerdiplom/ui/StatsScreen.kt:270-271 | the breakdown is empty exactly when the total is 0 |
| StatsScreen.SliceLabels | app/src/main/java/com/mik0sta/trackerdiplom/ui/StatsScreen.kt:273-290 | labels are pairwise distinct, cover every occurring category, and follow first occurrence |
| StatsScreen.CategoriesInFirstSeenOrder | app/src/main/java/com/mik0sta/trackerdiplom/ui/StatsScreen.kt:273 | `groupBy` keys come in order of first occurrence |
| StatsScreen.SliceValuesBounded | app/src/main/java/com/mik0sta/trackerdiplom/ui/StatsScreen.kt:287 | every share lies in [0, 1], and in (0, 1] when no amount is zero |
| StatsScreen.InsertByAmountPermutes | app/src/main/java/com/mik0sta/trackerdiplom/ui/StatsScreen.kt:231 | one insertion step adds exactly the inserted slice |
| StatsScreen.InsertByAmountBounded | app/src/main/java/com/mik0sta/trackerdiplom/ui/StatsScreen.kt:231 | one insertion step brings in no amount above a bound the inserted slice and the list already respect |
| StatsScreen.InsertByAmountSorted | app/src/main/java/com/mik0sta/trackerdiplom/ui/StatsScreen.kt:231 | one insertion step keeps the descending order |
| StatsScreen.SortByAmountDescending | app/src/main/java/com/mik0sta/trackerdiplom/ui/StatsScreen.kt:231 | the legend order is a permutation of the slices, sorted by amount descending |
| StatsScreen.MonthSides | app/src/main/java/com/mik0sta/trackerdiplom/ui/StatsScreen.kt:38-43 | the page's month, income and expense lists are single filters of all transactions, hold exactly the matching ones and keep their order |
| StatsScreen.Summarize | app/src/main/java/com/mik0sta/trackerdiplom/ui/StatsScreen.kt:38-49 | the month list is `filter` of all transactions by month, the income/expense lists `filter` of them by month ∧ amount > 0 / < 0 (ordered subsequences holding exactly those); each total is `sumOf` its list; the slices are `getLabeledSlices` of each list; totals' signs; balance = income + expense |
| StatsScreen.StatsScreenState.constructor | app/src/main/java/com/mik0sta/trackerdiplom/ui/StatsScreen.kt:36 | the page opens on the current year-month |
| StatsScreen.StatsScreenState.Summary | app/src/main/java/com/mik0sta/trackerdiplom/ui/StatsScreen.kt:38-49 | the page for the selected month: its month list is the month step over all transactions, and the balance is that list's sum |
| StatsScreen.StatsScreenState.PreviousMonth | app/src/main/java/com/mik0sta/trackerdiplom/ui/StatsScreen.kt:63 | the back arrow moves one month back |
| StatsScreen.StatsScreenState.NextMonth | app/src/main/java/com/mik0sta/trackerdiplom/ui/StatsScreen.kt:73 | the forward arrow moves one month forward |
| AddEditTransactionDialog.ParseAmount | app/src/main/java/com/mik0sta/trackerdiplom/ui/AddEditTransactionDialog.kt:65 | the model's reading of the amount text (an optional sign and decimal digits, a narrower set than `toDoubleOrNull`; see Left out): a plain digit string reads as its value; in the model, text starting with anything but a digit or a sign is rejected, and a result needs non-empty text |
| AddEditTransactionDialog.ParseAmountSigns | app/src/main/java/com/mik0sta/trackerdiplom/ui/AddEditTransactionDialog.kt:65 | a leading `-` negates, a leading `+` changes nothing |
| AddEditTransactionDialog.ParseAmountRejectsNoDigits | app/src/main/java/com/mik0sta/trackerdiplom/ui/AddEditTransactionDialog.kt:65 | the model's parse rejects text without digits, so in the model Save then does nothing |
| AddEditTransactionDialog.FormatAmount | app/src/main/java/com/mik0sta/trackerdiplom/ui/AddEditTransactionDialog.kt:38 | the pre-filled amount text is a non-empty digit string |
| AddEditTransactionDialog.ParseFormatAmount | app/src/main/java/com/mik0sta/trackerdiplom/ui/AddEditTransactionDialog.kt:38 | the pre-filled amount text reads back as the magnitude |
| AddEditTransactionDialog.InitialTitle | app/src/main/java/com/mik0sta/trackerdiplom/ui/AddEditTransactionDialog.kt:37 | the edited title, or "" for a new transaction |
| AddEditTransactionDialog.InitialAmountText | app/src/main/java/com/mik0sta/trackerdiplom/ui/AddEditTransactionDialog.kt:38 | "" for a new transaction, else text that reads as \|amount\| |
| AddEditTransactionDialog.InitialCategory | app/src/main/java/com/mik0sta/trackerdiplom/ui/AddEditTransactionDialog.kt:39 | the edited category, or "" |
| AddEditTransactionDialog.InitialIsIncome | app/src/main/java/com/mik0sta/trackerdiplom/ui/AddEditTransactionDialog.kt:40 | the switch starts on iff editing a transaction with amount ≥ 0 |
| AddEditTransactionDialog.SignedAmount | app/src/main/java/com/mik0sta/trackerdiplom/ui/AddEditTransactionDialog.kt:66 | keeps the magnitude; on gives a non-negative, off a non-positive amount for a non-negative input |
| AddEditTransactionDialog.SignedAmountRestores | app/src/main/java/com/mik0sta/trackerdiplom/ui/AddEditTransactionDialog.kt:38-66 | the pre-filled sign applied to the pre-filled magnitude restores the original amount |
| AddEditTransactionDialog.PickerMonth | app/src/main/java/com/mik0sta/trackerdiplom/ui/AddEditTransactionDialog.kt:56 | `monthValue - 1` is in 0..11 |
| AddEditTransactionDialog.FromPickerMonth | app/src/main/java/com/mik0sta/trackerdiplom/ui/AddEditTransactionDialog.kt:53 | `month + 1` of a picker month is in 1..12 |
| AddEditTransactionDialog.PickerMonthRoundTrip | app/src/main/java/com/mik0sta/trackerdiplom/ui/AddEditTransactionDialog.kt:53-56 | the two month conventions convert into each other losslessly |
| AddEditTransactionDialog.AddEditTransactionDialog.constructor | app/src/main/java/com/mik0sta/trackerdiplom/ui/AddEditTransactionDialog.kt:37-45 | fields pre-filled from the transaction; the date is the parsed stored date, or today |
| AddEditTransactionDialog.AddEditTransactionDialog.OnTitleChange | app/src/main/java/com/mik0sta/trackerdiplom/ui/AddEditTransactionDialog.kt:102 | only the title changes |
| AddEditTransactionDialog.AddEditTransactionDialog.OnAmountChange | app/src/main/java/com/mik0sta/trackerdiplom/ui/AddEditTransactionDialog.kt:113 | only the amount text changes, whatever it is |
| AddEditTransactionDialog.AddEditTransactionDialog.OnIncomeChange | app/src/main/java/com/mik0sta/trackerdiplom/ui/AddEditTransactionDialog.kt:144 | only the switch changes |
| AddEditTransactionDialog.AddEditTransactionDialog.OnChipClick | app/src/main/java/com/mik0sta/trackerdiplom/ui/AddEditTransactionDialog.kt:174-176 | the category becomes the chip's name and that chip shows selected; the category stays the initial one or a listed name |
| AddEditTransactionDialog.AddEditTransactionDialog.IsChipSelected | app/src/main/java/com/mik0sta/trackerdiplom/ui/AddEditTransactionDialog.kt:176 | a chip shows selected iff its name equals the chosen category |
| AddEditTransactionDialog.AddEditTransactionDialog.PickerSeed | app/src/main/java/com/mik0sta/trackerdiplom/ui/AddEditTransactionDialog.kt:55-57 | the picker's year, 0-based month and day convert back to the selected date |
| AddEditTransactionDialog.AddEditTransactionDialog.OnDatePicked | app/src/main/java/com/mik0sta/trackerdiplom/ui/AddEditTransactionDialog.kt:52-54 | the picked date is `(year, month + 1, day)`, nothing else changes |
| AddEditTransactionDialog.AddEditTransactionDialog.Confirm | app/src/main/java/com/mik0sta/trackerdiplom/ui/AddEditTransactionDialog.kt:64-76 | nothing saved iff the amount does not parse; else id kept (0 when new), title and category as entered, amount signed by the switch, date text reading back as the selected date |
| AddEditTransactionDialog.SaveUnedited | app/src/main/java/com/mik0sta/trackerdiplom/ui/AddEditTransactionDialog.kt:37-76 | opening a transaction and saving at once hands back the same transaction |
| AddEditTransactionDialog.SaveNewUntouched | app/src/main/java/com/mik0sta/trackerdiplom/ui/AddEditTransactionDialog.kt:37-76 | a new entry with the switch untouched is saved as an expense with id 0, no category and today's date |
| AuthManager.AuthManager.constructor | app/src/main/java/com/mik0sta/trackerdiplom/auth/AuthManager.kt:18-20 | the manager reads and writes the given preference store |
| AuthManager.AuthManager.IsPinSet | app/src/main/java/com/mik0sta/trackerdiplom/auth/AuthManager.kt:42 | true iff the store has the PIN key |
| AuthManager.AuthManager.StoredPin | app/src/main/java/com/mik0sta/trackerdiplom/auth/AuthManager.kt:54 | the stored PIN, "" when missing |
| AuthManager.AuthManager.VerifyPin | app/src/main/java/com/mik0sta/trackerdiplom/auth/AuthManager.kt:53-55 | exact equality with the stored PIN; with none stored only "" passes |
| AuthManager.AuthManager.SavePin | app/src/main/java/com/mik0sta/trackerdiplom/auth/AuthManager.kt:45-50 | writes the PIN key, other keys untouched; afterwards the PIN is set and exactly that PIN verifies |
| AuthManager.SaveTwice | app/src/main/java/com/mik0sta/trackerdiplom/auth/AuthManager.kt:45-50 | a later save overwrites the earlier PIN |
| SetupPinScreen.SetupPinScreen.constructor | app/src/main/java/com/mik0sta/trackerdiplom/ui/auth/SetupPinScreen.kt:20-23 | both fields empty, step 1, no error |
| SetupPinScreen.SetupPinScreen.FieldValue | app/src/main/java/com/mik0sta/trackerdiplom/ui/auth/SetupPinScreen.kt:40 | the field shows the PIN in step 1 and the confirmation in step 2 |
| SetupPinScreen.SetupPinScreen.OnValueChange | app/src/main/java/com/mik0sta/trackerdiplom/ui/auth/SetupPinScreen.kt:41-44 | the text cut to four characters goes into the current step's field only; error cleared; step kept; at most four characters in each field, four in `pin` during step 2 |
| SetupPinScreen.SetupPinScreen.OnButtonClick | app/src/main/java/com/mik0sta/trackerdiplom/ui/auth/SetupPinScreen.kt:62-81 | step 1 advances iff the PIN has four characters, else the length error; step 2 saves a matching 4-character PIN and leaves, a mismatch sets the mismatch error, clears both fields and returns to step 1 |
| SetupPinScreen.SetPinTwice | app/src/main/java/com/mik0sta/trackerdiplom/ui/auth/SetupPinScreen.kt:62-81 | entering the same four characters twice stores them as the PIN |
| SetupPinScreen.MismatchStartsOver | app/src/main/java/com/mik0sta/trackerdiplom/ui/auth/SetupPinScreen.kt:71-81 | a different confirmation stores nothing and starts over |
| SetupPinScreen.ShortPinRejected | app/src/main/java/com/mik0sta/trackerdiplom/ui/auth/SetupPinScreen.kt:64-70 | a short PIN never gets past step 1 |
| CategoryStore.WithoutName | app/src/main/java/com/mik0sta/trackerdiplom/data/local/CategoryDao.kt:16-17 | removes exactly the rows with that name, keeping the rest in order |
| CategoryStore.Inserted | app/src/main/java/com/mik0sta/trackerdiplom/data/local/CategoryDao.kt:13-14 | after REPLACE the new row is present and the only row with its name |
| CategoryStore.Deleted | app/src/main/java/com/mik0sta/trackerdiplom/data/local/CategoryDao.kt:16-17 | after delete no row has that name and every other row stays |
| CategoryStore.InsertedKeepsDistinct | app/src/main/java/com/mik0sta/trackerdiplom/data/local/CategoryDao.kt:13-14 | REPLACE keeps names unique |
| CategoryStore.InsertIdempotent | app/src/main/java/com/mik0sta/trackerdiplom/data/local/CategoryDao.kt:13-14 | inserting the same category twice equals inserting it once |
| CategoryStore.DeleteAfterInsert | app/src/main/java/com/mik0sta/trackerdiplom/data/local/CategoryDao.kt:13-17 | deleting what was just inserted leaves exactly the other rows |
| CategoryStore.CategoryTable.constructor | app/src/main/java/com/mik0sta/trackerdiplom/data/local/CategoryDao.kt:13-17 | a table starts from rows with distinct names, the invariant every change keeps |
| CategoryStore.CategoryTable.Insert | app/src/main/java/com/mik0sta/trackerdiplom/data/local/CategoryDao.kt:13-14 | the table becomes `Inserted(old, c)` |
| CategoryStore.CategoryTable.Delete | app/src/main/java/com/mik0sta/trackerdiplom/data/local/CategoryDao.kt:16-17 | the table becomes `Deleted(old, c)` |
| SettingsViewModel.Seeded | app/src/main/java/com/mik0sta/trackerdiplom/ui/SettingsViewModel.kt:21-39 | a non-empty table is untouched, an empty one gets the defaults; the result is never empty and names stay distinct |
| SettingsViewModel.SeedingIdempotent | app/src/main/java/com/mik0sta/trackerdiplom/ui/SettingsViewModel.kt:21-39 | seeding twice is seeding once; there are eight defaults |
| SettingsViewModel.SettingsViewModel.constructor | app/src/main/java/com/mik0sta/trackerdiplom/ui/SettingsViewModel.kt:21-40 | the insert loop leaves `Seeded(old table)`; theme starts light |
| SettingsViewModel.SettingsViewModel.AddCategory | app/src/main/java/com/mik0sta/trackerdiplom/ui/SettingsViewModel.kt:42-46 | inserts a category named exactly as given |
| SettingsViewModel.SettingsViewModel.RemoveCategory | app/src/main/java/com/mik0sta/trackerdiplom/ui/SettingsViewModel.kt:48-52 | deletes exactly that category |
| SettingsViewModel.SettingsViewModel.ToggleTheme | app/src/main/java/com/mik0sta/trackerdiplom/ui/SettingsViewModel.kt:57-59 | the dark-theme flag flips |
| SettingsScreen.AddedName | app/src/main/java/com/mik0sta/trackerdiplom/ui/SettingsScreen.kt:90-91 | nothing iff the input is blank; otherwise exactly `trim()` of the input, which is non-empty, has no whitespace at either end and is no longer than the input |
| SettingsScreen.SettingsScreen.AddEnabled | app/src/main/java/com/mik0sta/trackerdiplom/ui/SettingsScreen.kt:106 | "+" is enabled iff an add would insert a name |
| SettingsScreen.SettingsScreen.OnValueChange | app/src/main/java/com/mik0sta/trackerdiplom/ui/SettingsScreen.kt:85 | the input becomes the typed text |
| SettingsScreen.SettingsScreen.OnAdd | app/src/main/java/com/mik0sta/trackerdiplom/ui/SettingsScreen.kt:100-104 | a non-blank input inserts its trimmed form and clears the field; a blank one changes nothing |
| SettingsScreen.SettingsScreen.OnDelete | app/src/main/java/com/mik0sta/trackerdiplom/ui/SettingsScreen.kt:69 | the row's category is deleted |
| SettingsScreen.SettingsScreen.OnThemeSwitch | app/src/main/java/com/mik0sta/trackerdiplom/ui/SettingsScreen.kt:54 | the theme flips |
| SettingsScreen.AddFromScreen | app/src/main/java/com/mik0sta/trackerdiplom/ui/SettingsScreen.kt:88-104 | a category added from the screen never has a blank or untrimmed name |
| SettingsScreen.ThemeSwitchTwice | app/src/main/java/com/mik0sta/trackerdiplom/ui/SettingsScreen.kt:54 | two flips restore the theme |
| SettingsScreen.TypeLabel | app/src/main/java/com/mik0sta/trackerdiplom/ui/SettingsScreen.kt:147 | "Income" iff amount > 0, otherwise "Expense" (zero included) |
| SettingsScreen.CsvFields | app/src/main/java/com/mik0sta/trackerdiplom/ui/SettingsScreen.kt:147 | six fields: the id's decimal text, the title, the amount's decimal text, the converted date, the category and the type label; defined only when the date converts |
| SettingsScreen.SplitJoin | app/src/main/java/com/mik0sta/trackerdiplom/ui/SettingsScreen.kt:147 | fields joined by a separator they do not contain cut back into the same fields |
| SettingsScreen.ExportCsv | app/src/main/java/com/mik0sta/trackerdiplom/ui/SettingsScreen.kt:139-148 | no file iff some transaction's date does not convert; otherwise the header followed by one row per transaction in order, with the header as a prefix |
| SettingsScreen.RowReadsBack | app/src/main/java/com/mik0sta/trackerdiplom/ui/SettingsScreen.kt:147 | a row without commas or line breaks in its fields cuts back into its six fields |
| SettingsScreen.ExportReadsBack | app/src/main/java/com/mik0sta/trackerdiplom/ui/SettingsScreen.kt:145-148 | when every date converts and no field holds a comma or line break, the export cuts into the header line, one line per transaction with exactly its fields, and a final empty piece |
| SettingsScreen.JoinSeparatorInField | app/src/main/java/com/mik0sta/trackerdiplom/ui/SettingsScreen.kt:147 | fields are written without quoting: a field holding the separator joins to the same text as the two fields on either side of it |
| SettingsScreen.CommaInTitleAddsColumn | app/src/main/java/com/mik0sta/trackerdiplom/ui/SettingsScreen.kt:147 | fields are not quoted: a comma in a title yields a seventh column |
| SettingsScreen.ExportFromSettings | app/src/main/java/com/mik0sta/trackerdiplom/ui/SettingsScreen.kt:125-129 | the screen exports an always-empty list, so a file is always written and it is just the header |
| SettingsScreen.CsvRow | app/src/main/java/com/mik0sta/trackerdiplom/ui/SettingsScreen.kt:147 | one row: the fields joined by commas, ending in a line break |
| SettingsScreen.CsvBody | app/src/main/java/com/mik0sta/trackerdiplom/ui/SettingsScreen.kt:146-148 | the rows of the transactions, concatenated in list order |
| SettingsScreen.CsvBodySnoc | app/src/main/java/com/mik0sta/trackerdiplom/ui/SettingsScreen.kt:146-148 | each loop step appends exactly the next transaction's row |
| SettingsScreen.LinesReadBack | app/src/main/java/com/mik0sta/trackerdiplom/ui/SettingsScreen.kt:145-148 | header and rows without line breaks, written one per line, cut back into the same lines and a final empty piece |

## Left out

- Compose rendering, layout, colours, icons, toasts and navigation. `MainActivity`, `AppScreen`, `TransactionScreen`, `PinAuthScreen` and the theme are not part of this model.
- Storage I/O and coroutines are left out. The Room flows, `add`/`update`/`delete` in `TransactionViewModel` (store calls with no logic of their own), `stateIn` timing and the asynchronous seeding race are all outside the model. A store snapshot arrives through `OnTransactions`.
- Biometrics, the KeyStore, the cipher and `EncryptedSharedPreferences` encryption are left out. The PIN store is a plain map.
- The file, `FileProvider` and share `Intent` around the CSV export are left out, and so is the `IOException` path.
- Floating point is left out. Amounts are whole numbers and shares exact rationals, so `Double` rounding, `toFloat()` and `"%,.2f"` formatting are not captured.
- AddEditTransactionDialog.ParseAmount: accepts only an optional sign followed by decimal digits. `toDoubleOrNull` accepts more: leading and trailing characters up to U+0020, a `d`/`D`/`f`/`F` suffix, fractions and exponents (including whole values such as `12.0`, `1e3`, ` 12` and `12d`), `NaN` and `Infinity`. The model rejects all of these, so for them the app saves where the model does nothing.
- AddEditTransactionDialog.ParseAmountRejectsNoDigits: is a fact about the model's parse only. In the app `NaN` and `Infinity` have no digits, parse, and are saved.
- AddEditTransactionDialog.FormatAmount: writes the magnitude as plain digits. `Double.toString` writes `150.0` or `1.0E7`. The read-back property holds for the model's text form.
- SettingsScreen.CsvFields: the amount column is the integer's decimal text, not `Double.toString`. The date column's `java.util.Date` text is the parameter `renderDate`.
- SettingsScreen.ExportCsv: the conversion `renderDate` is a parameter, so the model does not fix what `Date(String)` does. The JDK's deprecated `Date(String)` parser does not accept the stored `yyyy-MM-dd` text and throws `IllegalArgumentException`, which the `IOException` handler does not catch. With the real conversion every non-empty export therefore ends in `None` (in the app, an uncaught exception), and only the empty list the settings screen passes yields a file. The read-back lemmas hold only for a conversion that succeeds.
- CategoryStore.Inserted: `data/Category.kt` is not part of this model. The category is taken to be its name and the name to be the primary key, so REPLACE is modelled as replacing the row with the same name. A different key would change what REPLACE removes.
- StatsScreen.Summarize: requires every stored date to parse (`AllDatesParse`). The page calls `LocalDate.parse` on each date and would crash otherwise, and that crash is not modelled. The same holds for `StatsScreen.StatsScreenState.Summary`.
- AddEditTransactionDialog.AddEditTransactionDialog.constructor: requires the edited transaction's date to parse. `LocalDate.parse` throws on bad text, and that crash is not modelled.
- Dates.YearMonth.Next: years are unbounded. `plusMonths` and `minusMonths` throw beyond year ±999,999,999, and the model does not; the same holds for `Dates.YearMonth.Previous`.
- Dates.ParseDate: covers only four-digit years 0..9999, the form `LocalDate.toString` writes for them. Signed or longer years are not modelled.
- Text.Fold: the case fold covers Latin A–Z and Cyrillic U+0400..U+042F only. Locale-specific and other-script case mapping are left out.
- Text.Take: counts Unicode scalar values. Kotlin's `take(4)` counts UTF-16 code units, so the two differ for characters outside the Basic Multilingual Plane.
- TransactionViewModel.ComputeView: requires every stored date to parse. The app throws `DateTimeParseException` otherwise, and that crash is not modelled.
- StatsScreen.SortByAmountDescending: states sortedness and permutation but not the stability of `sortedByDescending` among equal amounts.
- AddEditTransactionDialog.AddEditTransactionDialog.OnDatePicked: requires a real calendar day. The platform picker offers nothing else, and `LocalDate.of` would throw.
- The delete button of the dialog only forwards to the caller's `onDelete`, so it is not modelled.
