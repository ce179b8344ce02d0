# zeni-app core in Dafny

zeni-app is a personal-finance dashboard. A user records income and expense
transactions and sees the projected balance of every day of a month on a
calendar and in a day list. Draft ("preview") transactions live for 60
seconds before they are saved or discarded. This project models the logic
behind those views, and proves what the views promise:

- the preview store (add, remove, save, sweep) as a class over a sequence;
- the merge of server daily balances with the previews of a month. This is an
  imperative pipeline: index maps, a first pass that builds the result, and an
  in-place splice that fills missing days. It is written as methods with loop
  invariants and proved against a functional specification (`Combine`/`Merge`);
- the merged transaction list and its three-band order (today, then future
  dates ascending, then past dates descending);
- the month grid of the calendar, the day list's past/future split, and the
  date and month pickers (classes with their state);
- ISO and `dd-MM-yyyy` date formatting and the date-only string parser;
- the rule sets sitting in the pages: the currency text sanitizer, the
  countdown display and colour tiers, month filtering and grouping, monthly
  totals, threshold validation for preferences, the keyword categories and
  insight thresholds, and the smart text input (its AI acceptance guard,
  fallback regex parser and submit flow).

Modelling conventions:

- Money is an `int` number of cents.
- Dates are `(year, month, day)` triples in one frame. Day ordinals count from
  0001-01-01 in the proleptic Gregorian calendar, with Sunday as weekday 0.
- Where the source compares `"YYYY-MM-DD"` strings, the model compares the
  strings produced by `FormatISODate`. Lemmas show that for four-digit years
  this string order equals date order.
- Clocks, random id suffixes, the server's answers, `parseFloat` and the
  status classifier `getBalanceStatus` are parameters.
- JavaScript's `new Date(y, m, d)` normalisation is modelled by
  `Format.JsLocalDate`. That includes the shift of years 0..99 into the 1900s.
- JavaScript's `Array.prototype.sort` is `Sorting.SortBy`, a stable insertion
  sort.

## Model

| member | source | states |
|---|---|---|
| BalanceMerge.IndexBalances | src/lib/utils/dailyBalanceWithPreview.ts:20-24 | the map filled by `forEach`/`set` holds, for every date present in the server list, the last server entry of that date; the keys in first-seen order are the distinct dates |
| BalanceMerge.GroupByDate | src/lib/utils/dailyBalanceWithPreview.ts:37-44 | the previews of each date, in input order, under that date; the first-seen order of dates is the distinct preview dates |
| BalanceMerge.BackendMap | src/lib/utils/dailyBalanceWithPreview.ts:20-24 | a date is a key exactly when some server entry has it, and the entry stored under it carries that date |
| BalanceMerge.DayEntry | src/lib/utils/dailyBalanceWithPreview.ts:55-82 | one iteration of the first pass yields the specification's entry for that date |
| BalanceMerge.OverlayDates | src/lib/utils/dailyBalanceWithPreview.ts:52-83 | the indexed loop that pushes one entry per sorted date, reading `result[i-1]`, builds exactly the specification's first pass |
| BalanceMerge.Overlay | src/lib/utils/dailyBalanceWithPreview.ts:54-83 | the first pass has one entry per sorted date, carrying that date |
| BalanceMerge.MissingDays | src/lib/utils/dailyBalanceWithPreview.ts:90-102 | for a gap of `daysDiff > 1` days the insertions are the `daysDiff - 1` days after the previous entry, each with its balance and status |
| BalanceMerge.SpliceGap | src/lib/utils/dailyBalanceWithPreview.ts:86-105 | one iteration of the second loop splices the gap before position i and moves the index past the spliced days and the current entry |
| BalanceMerge.FillGapsInPlace | src/lib/utils/dailyBalanceWithPreview.ts:85-106 | the in-place splice loop computes exactly the gap-filled sequence of the first pass |
| BalanceMerge.CombineDailyBalancesWithPreviews | src/lib/utils/dailyBalanceWithPreview.ts:13-109 | the whole function returns the specification `Combine` of its inputs |
| BalanceMergeFacts.MonthFilterExact | src/lib/utils/dailyBalanceWithPreview.ts:26-33 | for a four-digit year, a preview passes the string bounds of the month exactly when it is dated in that month |
| BalanceMergeFacts.MonthBounds | src/lib/utils/dailyBalanceWithPreview.ts:26-27 | `new Date(year, month - 1, 1)` and `new Date(year, month, 0)` are the first and last day of the month |
| BalanceMergeFacts.CombineIgnoresOtherMonths | src/lib/utils/dailyBalanceWithPreview.ts:31-33 | previews outside the month have no effect: dropping them first changes nothing (server balances are not filtered) |
| BalanceMergeFacts.ImpactAppend | src/lib/utils/dailyBalanceWithPreview.ts:59-61 | the impact of two lists of previews, one after the other, is the sum of their impacts |
| BalanceMergeFacts.ImpactPermutation | src/lib/utils/dailyBalanceWithPreview.ts:59-61 | a day's preview impact does not depend on the order of its previews |
| BalanceMergeFacts.LookupGroups | src/lib/utils/dailyBalanceWithPreview.ts:37-57 | looking a date up in the grouping yields exactly the previews dated that day, in order (and nothing for a date without previews) |
| BalanceMergeFacts.SortedDatesMembers | src/lib/utils/dailyBalanceWithPreview.ts:46-50 | the sorted date list holds each server date and each preview date exactly once, and nothing else |
| BalanceMergeFacts.SortedDatesAscending | src/lib/utils/dailyBalanceWithPreview.ts:50 | with valid four-digit dates, the `localeCompare` sort puts the dates in strictly ascending calendar order |
| BalanceMergeFacts.IsoOrderOrdinal | src/lib/utils/dailyBalanceWithPreview.ts:50 | comparing the ISO strings of two valid four-digit dates agrees with comparing their day ordinals |
| BalanceMergeFacts.IsoOrderConsistent | src/lib/utils/dailyBalanceWithPreview.ts:50 | the string comparator is antisymmetric and transitive, so the sort is well defined |
| BalanceMergeFacts.OverlayAt | src/lib/utils/dailyBalanceWithPreview.ts:66-76 | a server-backed date gets its server balance plus the day's impact, with the classifier's status under preferences and the server status otherwise; a date without server entry gets the day's impact, added to the previous entry's balance unless it is the first date, with the classifier's status or none |
| BalanceMergeFacts.MergeEmpty | src/lib/utils/dailyBalanceWithPreview.ts:46-54 | the merge is empty exactly when there are no server balances and no previews |
| BalanceMergeFacts.CombineEmpty | src/lib/utils/dailyBalanceWithPreview.ts:13-109 | the result is empty exactly when there are no server balances and no previews in the month |
| BalanceMergeFacts.MergeSpan | src/lib/utils/dailyBalanceWithPreview.ts:46-106 | the result's dates are consecutive ascending days from the earliest to the latest input date; the first and last are input dates and every input date appears |
| BalanceMergeFacts.FillGapsSpan | src/lib/utils/dailyBalanceWithPreview.ts:85-106 | filling the gaps of an ascending list yields consecutive days covering exactly the span from its first to its last date, and keeps every date |
| BalanceMergeFacts.FillGapsShape | src/lib/utils/dailyBalanceWithPreview.ts:85-106 | the filled list starts and ends with the input's ends and its j-th entry is j days after the first date |
| BalanceMergeFacts.FillGapsAt | src/lib/utils/dailyBalanceWithPreview.ts:103-104 | every entry of the first pass reappears unchanged at the offset of its date from the first date |
| BalanceMergeFacts.FillGapsPrefixOf | src/lib/utils/dailyBalanceWithPreview.ts:85-106 | the gap fill of the first m entries is a prefix of the gap fill of the whole list, so later entries never change earlier days |
| BalanceMergeFacts.FillGapsCopyAt | src/lib/utils/dailyBalanceWithPreview.ts:97-101 | an inserted day copies the balance and status of the entry just before it |
| BalanceMergeFacts.GapAt | src/lib/utils/dailyBalanceWithPreview.ts:92-101 | the k-th insertion is the day k + 1 days after the previous entry, with its balance and status |
| BalanceMergeFacts.MergeBackendDay | src/lib/utils/dailyBalanceWithPreview.ts:66-68 | in the output, a server-backed date has that day's server balance plus only that day's preview impact, and the classifier's status or the server status |
| BalanceMergeFacts.MergePreviewDay | src/lib/utils/dailyBalanceWithPreview.ts:69-75 | in the output, a preview-only date has its impact if it is the earliest date and otherwise the balance of the entry before it plus its impact; its status is the classifier's or none |
| BalanceMergeFacts.MergeGapDay | src/lib/utils/dailyBalanceWithPreview.ts:90-104 | an output day that is no input date copies the balance and status of the entry before it |
| BalanceMergeFacts.BackendMapLast | src/lib/utils/dailyBalanceWithPreview.ts:22-24 | when a server date repeats, the last entry with that date is the one kept |
| BalanceMergeFacts.BackendMapFrom | src/lib/utils/dailyBalanceWithPreview.ts:22-24 | every entry of the map is one of the server balances |
| PreviewStore.PreviewIdFor | src/contexts/PreviewTransactionContext.tsx:27 | every generated id starts with `preview-` |
| PreviewStore.Find | src/contexts/PreviewTransactionContext.tsx:47-48 | the first preview with the id, or none exactly when no preview has it |
| PreviewStore.PreviewStore.constructor | src/contexts/PreviewTransactionContext.tsx:23 | the store starts empty |
| PreviewStore.PreviewStore.AddPreview | src/contexts/PreviewTransactionContext.tsx:25-40 | exactly one new preview is appended at the end and the others are untouched; distinct ids and well-formed entries are kept |
| PreviewStore.NewPreviewFields | src/contexts/PreviewTransactionContext.tsx:29-37 | the new preview copies description, amount, type and date, drops the category, is created now and expires 60000 ms later |
| PreviewStore.PreviewStore.RemovePreview | src/contexts/PreviewTransactionContext.tsx:42-44 | the list becomes the old list without the entries of that id |
| PreviewStore.WithoutIdMember | src/contexts/PreviewTransactionContext.tsx:42-44 | an entry remains after removal exactly when it was there and has another id |
| PreviewStore.WithoutUnknownId | src/contexts/PreviewTransactionContext.tsx:42-44 | removing an id no entry has changes nothing |
| PreviewStore.WithoutIdTwice | src/contexts/PreviewTransactionContext.tsx:42-44 | removing twice is removing once |
| PreviewStore.WithoutPresentId | src/contexts/PreviewTransactionContext.tsx:42-44 | with distinct ids, removing a present id removes exactly one entry |
| PreviewStore.PreviewStore.SavePreview | src/contexts/PreviewTransactionContext.tsx:46-61 | an absent id sends nothing and changes nothing; otherwise the preview's four fields are sent and the entry is removed only when the create call succeeds |
| PreviewStore.PreviewStore.ClearExpired | src/contexts/PreviewTransactionContext.tsx:63-66 | the list becomes the entries with `expiresAt > now`, in order |
| PreviewStore.LiveMember | src/contexts/PreviewTransactionContext.tsx:63-66 | an entry survives a sweep exactly when it expires after `now` |
| PreviewStore.Survives | src/contexts/PreviewTransactionContext.tsx:36-66 | a preview survives a sweep at time t exactly when t < createdAt + 60000 |
| PreviewStore.LiveLater | src/contexts/PreviewTransactionContext.tsx:63-66 | a sweep followed by a later sweep equals the later sweep alone; at one `now` the sweep is idempotent |
| PreviewStore.LiveMonotone | src/contexts/PreviewTransactionContext.tsx:63-66 | whatever survives a later sweep survives an earlier one |
| PreviewStore.FilterKeepsValid | src/contexts/PreviewTransactionContext.tsx:42-66 | filtering keeps the ids distinct and every entry well-formed |
| PreviewStore.AppendKeepsValid | src/contexts/PreviewTransactionContext.tsx:39 | appending a well-formed preview with a fresh id keeps the store's invariant |
| MergedView.AsTransaction | src/hooks/useTransactionsWithPreview.ts:11-20 | a preview becomes a transaction with user 0, no category, and the preview's description, amount, type and date |
| MergedView.AsTransactions | src/hooks/useTransactionsWithPreview.ts:11-20 | one transaction per preview, in order |
| MergedView.AllTransactionsContents | src/hooks/useTransactionsWithPreview.ts:9-20 | the merged list is exactly the real transactions plus the converted previews, so its length is their sum |
| MergedView.CompareViewMeaning | src/hooks/useTransactionsWithPreview.ts:21-49 | `a` may precede `b` exactly when: a is today; or neither is today and a is future while b is past; or both are future and a is not later; or both are past and a is not earlier |
| MergedView.CompareViewZero | src/hooks/useTransactionsWithPreview.ts:39-45 | two entries compare equal exactly when they have the same date |
| MergedView.ViewOrderConsistent | src/hooks/useTransactionsWithPreview.ts:21-49 | the comparator is antisymmetric and transitive |
| MergedView.AllTransactionsOrdered | src/hooks/useTransactionsWithPreview.ts:21-49 | every pair of entries in the merged list is in the three-band order |
| MergedView.AllTransactionsSameDay | src/hooks/useTransactionsWithPreview.ts:9-49 | the entries of one date keep their input order: that date's real transactions, then its previews |
| MergedView.SameDayMember | src/hooks/useTransactionsWithPreview.ts:39-45 | an entry is among t's ties exactly when it has t's date |
| Calendar.GetDaysInMonth | src/lib/utils/calendar.ts:5-26 | the three counting loops with `unshift`/`push` build exactly the specification grid |
| Calendar.GridShape | src/lib/utils/calendar.ts:10-23 | the grid has whole weeks, from 28 to 42 cells; its length is the leading cells plus the month's days plus 6 minus the last day's weekday |
| Calendar.GridWeekday | src/lib/utils/calendar.ts:10-23 | cell k falls on weekday k mod 7 |
| Calendar.GridWeekdays | src/lib/utils/calendar.ts:10-23 | the first cell is a Sunday and the last a Saturday |
| Calendar.GridConsecutive | src/lib/utils/calendar.ts:11-22 | each cell is the day after the one before it |
| Calendar.GridLeading | src/lib/utils/calendar.ts:11-14 | the leading cells belong to the previous month |
| Calendar.GridLeadingEnd | src/lib/utils/calendar.ts:12-13 | the leading cells built by `unshift` end at the previous month's last day |
| Calendar.GridMonthDay | src/lib/utils/calendar.ts:16-18 | the cells after the leading ones are days 1 to the last day of the month, in order |
| Calendar.GridTrailing | src/lib/utils/calendar.ts:20-23 | the trailing cells belong to the next month |
| Calendar.TrailingDay | src/lib/utils/calendar.ts:21-22 | `new Date(year, month, i)` is the trailing cell at the matching position |
| Calendar.MonthSpan | src/lib/utils/calendar.ts:6-7 | the first and last day are those of the month that JavaScript's date normalisation shows, the month has `lastDay.getDate()` days, and the last day's weekday follows from the first's |
| Calendar.GetBalanceForDate | src/lib/utils/calendar.ts:28-31 | none exactly when no balance has the cell's date; otherwise the first balance with that date |
| Calendar.IsoSameDay | src/lib/utils/calendar.ts:29-30 | comparing date strings is comparing dates |
| Calendar.GridSameMonth | src/lib/utils/calendar.ts:33-35 | a grid cell is marked as in the month exactly when it is one of the month's own days; only the month number is compared |
| Dates.DaysInMonth | src/components/ui/DatePicker.tsx:48-50 | months have 28 to 31 days; 28 exactly for February of a common year and 29 for February of a leap year |
| Dates.Weekday | src/lib/utils/calendar.ts:10 | `getDay` is a weekday from 0 (Sunday) to 6 |
| Dates.AddDaysOrdinal | src/lib/utils/dailyBalanceWithPreview.ts:93-94 | `setDate(getDate() + n)` on a valid date moves its ordinal by exactly n and stays valid |
| Dates.NextDayOrdinal | src/lib/utils/calendar.ts:16-22 | the next day of a valid date is valid and one ordinal later |
| Dates.PrevDayOrdinal | src/components/SmartTransactionInput.tsx:124-125 | the previous day is valid, one ordinal earlier and its next day is the date again |
| Dates.JsMonthSpan | src/lib/utils/calendar.ts:6-7 | `new Date(y, mi, 1)` and `new Date(y, mi + 1, 0)` are the first and last day of the normalised month for any month index |
| Dates.MonthBoundaries | src/components/ui/DatePicker.tsx:72-86 | the day after a month's last day is the next month's first day, and the day before its first day is the previous month's last day |
| Dates.OrdinalOrder | src/lib/utils/dailyBalanceWithPreview.ts:88 | for valid dates, date order is ordinal order and equal ordinals mean equal dates |
| DayList.AllDaysRow | src/components/DayList.tsx:23-32 | row i is day i + 1 of the shown month, with that date's balance and ISO string |
| DayList.AllDaysLength | src/components/DayList.tsx:18-23 | the list has exactly the month's number of days |
| DayList.PastMonotone | src/components/DayList.tsx:29 | past days form a prefix of the list |
| DayList.ExpandedIsAllDays | src/components/DayList.tsx:34-36 | the past and future lists partition all days, and the expanded list `pastDays ++ futureDays` is all days |
| DayList.CollapsedShowsFuture | src/components/DayList.tsx:36 | collapsed, a row is shown exactly when it is a day of the month that is not past |
| DayList.ButtonShown | src/components/DayList.tsx:42-52 | the "view past" button appears exactly when the list is collapsed and some day is past |
| DayList.CurrentMonthDays | src/components/DayList.tsx:28-29 | in the current month, today is marked today and not past, earlier days are past, later days are neither |
| DayList.StatusLabel | src/components/DayList.tsx:89-91 | green is good, yellow regular, red bad, and unconfigured or none is not configured |
| DatePicker.Navigate | src/components/ui/DatePicker.tsx:72-86 | the month index stays in 0..11 and the month count moves by exactly one in the chosen direction, wrapping the year |
| DatePicker.NavigateIsMonthStep | src/components/ui/DatePicker.tsx:74-84 | next is the calendar's next month and prev its previous month, wrapping December to January and back |
| DatePicker.NavigateInverse | src/components/ui/DatePicker.tsx:72-86 | next after prev, and prev after next, are the identity |
| DatePicker.DaysMatchGrid | src/components/ui/DatePicker.tsx:95-97 | the cells are `firstDay` nulls followed by 1..`daysInMonth`, so the length is their sum, and each numbered cell is the calendar grid's date at that position |
| DatePicker.SelectionOfCell | src/components/ui/DatePicker.tsx:66-70 | a numbered cell emits the ISO string of the valid date shown in it |
| DatePicker.SelectionRoundTrip | src/components/ui/DatePicker.tsx:66-70 | for a four-digit year, the emitted string parses back to that day of the shown month |
| DatePicker.TodayShown | src/components/ui/DatePicker.tsx:88-93 | after "Hoje", today's day number is one of the cells |
| DatePicker.Picker.constructor | src/components/ui/DatePicker.tsx:24-27 | the picker opens on the month of the starting date, closed, holding the initial value |
| DatePicker.Picker.Toggle | src/components/ui/DatePicker.tsx:103 | the open flag flips, nothing else changes, and the shown month stays valid |
| DatePicker.Picker.NavigateMonth | src/components/ui/DatePicker.tsx:72-86 | the view becomes the navigated month and the rest is unchanged |
| DatePicker.Picker.HandleDateSelect | src/components/ui/DatePicker.tsx:66-70 | the day's ISO string is emitted and held, the picker closes, and the shown month stays valid |
| DatePicker.Picker.GoToToday | src/components/ui/DatePicker.tsx:88-93 | the view moves to today's month, today's ISO string is emitted, and the picker closes |
| MonthPicker.StepYear | src/components/ui/MonthPicker.tsx:53-55 | the year moves by exactly one in the chosen direction; a NaN year stays NaN |
| MonthPicker.NavigateYearInverse | src/components/ui/MonthPicker.tsx:53-55 | next then prev, and prev then next, are the identity |
| MonthPicker.MonthValueIsKey | src/components/ui/MonthPicker.tsx:47-51 | the emitted value is `"<year>-<MM>"` with MM = index + 1 padded to two digits |
| MonthPicker.MonthValueSplit | src/components/ui/MonthPicker.tsx:42 | splitting an emitted value at `-` gives the year's digits and the two-digit month |
| MonthPicker.MonthValueRoundTrip | src/components/ui/MonthPicker.tsx:20-42 | parsing an emitted value gives back its year and month index |
| MonthPicker.SelectedExactly | src/components/ui/MonthPicker.tsx:123 | a month is marked selected exactly when the displayed year is the value's year and the index is the value's month |
| MonthPicker.YearPrefix | src/components/ui/MonthPicker.tsx:123 | the value starts with the displayed year and a dash only when that is its year |
| MonthPicker.Picker.constructor | src/components/ui/MonthPicker.tsx:20-26 | the picker starts closed on the value's year (today's year without a value) |
| MonthPicker.Picker.Toggle | src/components/ui/MonthPicker.tsx:73 | the open flag flips and nothing else changes |
| MonthPicker.Picker.HandleMonthSelect | src/components/ui/MonthPicker.tsx:47-51 | the month's value for the displayed year is emitted and held, and the picker closes |
| MonthPicker.Picker.NavigateYear | src/components/ui/MonthPicker.tsx:53-55 | the displayed year steps by one and the rest is unchanged |
| MonthPicker.Picker.GoToCurrentMonth | src/components/ui/MonthPicker.tsx:57-63 | the year becomes today's, today's month key is emitted, and the picker closes |
| Numbers.ParseIntOfNat | src/components/ui/MonthPicker.tsx:23 | `parseInt` of a number's decimal string gives that number back |
| Numbers.ParseIntOfDigits | src/components/ui/MonthPicker.tsx:23 | `parseInt` reads the leading run of digits and stops at the first other character |
| Numbers.ParseIntNaN | src/components/ui/MonthPicker.tsx:23 | `parseInt` is NaN exactly when the text, after leading spaces and an optional sign, does not begin with a digit |
| Format.IsoShape | src/lib/utils/format.ts:24-29 | for a four-digit year the ISO string is date-only: the year, the month and the day zero-padded to two digits, separated by dashes; its first seven characters are the month key |
| Format.IsoInjective | src/lib/utils/format.ts:24-29 | different dates give different ISO strings |
| Format.IsoCompare | src/lib/utils/format.ts:24-29 | for four-digit years, comparing ISO strings character by character is comparing the dates |
| Format.MonthKeyCompare | src/app/dashboard/transactions/page.tsx:75-84 | comparing month keys is comparing the months' first days |
| Format.ParseDateStringToLocal | src/lib/utils/format.ts:37-44 | only a string of four digits, dash, two digits, dash, two digits is split and built as a local date; any other string goes to the native parser |
| Format.SplitIsoDateOnly | src/lib/utils/format.ts:40-41 | splitting a date-only string at `-` gives its three fields |
| Format.ParseOfFormat | src/lib/utils/format.ts:24-44 | parsing the ISO string of a valid four-digit date gives the date back |
| Format.FormatOfParse | src/lib/utils/format.ts:16-44 | for a valid date-only string with a four-digit year, parsing and formatting returns the input, and `formatDate` returns `"DD-MM-YYYY"` |
| Format.TwoDigitYearShift | src/lib/utils/format.ts:43 | a date-only string with a year up to 99 is read in the 1900s, as `new Date(y, m, d)` does |
| CurrencyInput.SanitizeShape | src/components/CurrencyInput.tsx:51-59 | the sanitized text holds only digits and commas, at most one comma, and at most two digits after it |
| CurrencyInput.MoneyTextChars | src/components/CurrencyInput.tsx:51-59 | every character of such a text is a digit or its single first comma |
| CurrencyInput.SanitizeIntegerPart | src/components/CurrencyInput.tsx:56 | the part before the first comma is the input's digits before its first comma, in order (dots are dropped as well) |
| CurrencyInput.CleanedPrefix | src/components/CurrencyInput.tsx:52 | after cleaning, the text before the first comma is the input's digits before its first comma |
| CurrencyInput.MoneyTextFixed | src/components/CurrencyInput.tsx:52-59 | a text already in the sanitized shape is left unchanged |
| CurrencyInput.SanitizeIdempotent | src/components/CurrencyInput.tsx:52-59 | sanitizing twice is sanitizing once |
| CurrencyInput.Take | src/components/CurrencyInput.tsx:58 | `slice(0, n)` is the longest prefix of at most n characters |
| CurrencyInput.ReplaceFirst | src/components/CurrencyInput.tsx:37 | only the first occurrence of the character is replaced |
| CurrencyInput.ParseTextBlank | src/components/CurrencyInput.tsx:34-40 | empty or whitespace-only input, and only that, is 0 without parsing |
| CurrencyInput.ParseTextPoint | src/components/CurrencyInput.tsx:36-37 | the text given to `parseFloat` is the input without dots, with only its first comma turned into a point |
| CurrencyInput.SanitizedParse | src/components/CurrencyInput.tsx:34-59 | a non-empty sanitized text reaches `parseFloat` as a decimal with the same integer part |
| CurrencyInput.ReplaceFirstFresh | src/components/CurrencyInput.tsx:37 | replacing the first comma by a point leaves a single point where the comma was and the rest as it was |
| PreviewCountdown.JsRem60 | src/components/PreviewCountdown.tsx:15 | JavaScript's `% 60` keeps the sign of the dividend and is below 60 in magnitude |
| PreviewCountdown.MinutesSeconds | src/components/PreviewCountdown.tsx:14-15 | for a non-negative count, minutes and seconds are its division by 60, and minutes are positive exactly from 60 s |
| PreviewCountdown.DisplayWithMinutes | src/components/PreviewCountdown.tsx:16 | from 60 s the display is `m:ss`, seconds padded to two digits, and reads back as the count |
| PreviewCountdown.DisplayUnderMinute | src/components/PreviewCountdown.tsx:16 | under a minute the display is the seconds followed by `s` |
| PreviewCountdown.DisplayNegative | src/components/PreviewCountdown.tsx:14-16 | a negative count shows the truncated remainder and `s` |
| PreviewCountdown.ColorTier | src/components/PreviewCountdown.tsx:18-40 | red up to 10 s, orange from 11 to 30 s, yellow above 30 s |
| PreviewCountdown.MarkerIsRed | src/components/PreviewCountdown.tsx:89 | the `!` marker appears exactly in the red tier |
| PreviewCountdown.TierMonotone | src/components/PreviewCountdown.tsx:18-40 | as time runs out the tier only grows more urgent |
| TransactionsPage.FilterByMonthMember | src/app/dashboard/transactions/page.tsx:61-65 | a transaction is kept exactly when it is in the list and the filter is empty or equals the first 7 characters of its date |
| TransactionsPage.EmptyFilterKeepsAll | src/app/dashboard/transactions/page.tsx:61-65 | an empty filter keeps everything, and no data stays no data |
| TransactionsPage.TxMonthIsKey | src/app/dashboard/transactions/page.tsx:61-75 | for a four-digit year the date's first 7 characters are the group key |
| TransactionsPage.DefaultFilterKeepsCurrentMonth | src/app/dashboard/transactions/page.tsx:38 | the default filter `"<year>-<MM>"` keeps exactly the transactions of today's month |
| TransactionsPage.FillGroups | src/app/dashboard/transactions/page.tsx:71-81 | the `forEach` fills one entry per distinct key, each holding that key's transactions in input order, and every transaction's key is present |
| TransactionsPage.GroupTransactionsByMonth | src/app/dashboard/transactions/page.tsx:68-90 | no data gives no groups; otherwise keys strictly descending, each group exactly its month's transactions in order and non-empty, every transaction in a group |
| TransactionsPage.SortedKeys | src/app/dashboard/transactions/page.tsx:83-84 | distinct keys sorted descending are the same keys in strictly descending order |
| TransactionsPage.DescendingConsistent | src/app/dashboard/transactions/page.tsx:83-84 | the descending key comparator is antisymmetric and transitive |
| TransactionsPage.OneGroupEach | src/app/dashboard/transactions/page.tsx:73-81 | each transaction lies in exactly one group |
| TransactionsPage.GroupSizesSum | src/app/dashboard/transactions/page.tsx:68-90 | the group sizes add up to the number of transactions |
| TransactionsPage.SubmitRequest | src/app/dashboard/transactions/page.tsx:102-108 | update with the editing id when one is set, create otherwise, always with the form's data |
| TransactionsPage.TransactionForm.constructor | src/app/dashboard/transactions/page.tsx:43-48 | the form starts with an empty draft dated today, not editing, hidden and without error |
| TransactionsPage.TransactionForm.HandleSubmit | src/app/dashboard/transactions/page.tsx:97-124 | the chosen request is sent; success resets the form, failure keeps it and shows the message |
| Dashboard.MonthlyExact | src/app/dashboard/page.tsx:22-47 | for a four-digit year, the string bounds keep exactly the transactions dated in the month |
| Dashboard.MonthlyOfNone | src/app/dashboard/page.tsx:45-54 | without data nothing is counted and the balance is 0 |
| Dashboard.BalanceIsSignedSum | src/app/dashboard/page.tsx:48-54 | income total minus expense total is the sum of the signed amounts |
| Dashboard.TotalsAppend | src/app/dashboard/page.tsx:48-53 | totals of two lists one after the other are the sums of their totals |
| Dashboard.TotalsNonNegative | src/app/dashboard/page.tsx:48-53 | non-negative amounts give non-negative totals |
| Dashboard.Tone | src/app/dashboard/page.tsx:91-94 | the positive tone appears exactly when the balance is at least 0 |
| Dashboard.Panel | src/app/dashboard/page.tsx:124-139 | loading while either query loads; otherwise calendar and day list on the raw server balances exactly when that list is non-empty |
| Profile.Decide | src/app/dashboard/profile/page.tsx:67-96 | NaN anywhere is refused first, then thresholds out of order; otherwise exactly one endpoint is called, the update one when preferences are configured, with the three thresholds |
| Profile.ErrorAfter | src/app/dashboard/profile/page.tsx:98-102 | a refusal shows its message; a sent request clears the error on success and shows the failure message otherwise |
| Profile.Edit | src/app/dashboard/profile/page.tsx:241 | editing a field changes only that threshold |
| Profile.ClearedIsZero | src/app/dashboard/profile/page.tsx:241 | clearing a field sets that threshold to 0 |
| Profile.DefaultsAccepted | src/app/dashboard/profile/page.tsx:34-38 | the defaults 0, 500, 1500 are accepted as they are |
| Profile.EqualAccepted | src/app/dashboard/profile/page.tsx:84-89 | equal thresholds are accepted |
| Profile.LoadedRoundTrip | src/app/dashboard/profile/page.tsx:40-75 | loaded preferences in order are sent back unchanged |
| Profile.UnparsedRejected | src/app/dashboard/profile/page.tsx:77-82 | an input that does not parse keeps the form from being sent |
| MoneyTime.FirstRule | src/app/dashboard/moneytime/page.tsx:44-57 | an expense falls in the first keyword group that matches, or in Outros when none does |
| MoneyTime.ExpenseCategory | src/app/dashboard/moneytime/page.tsx:43-57 | an expense is in Transporte, Alimentação, Assinaturas, Contas Fixas or Saúde exactly when that is the first group whose keywords occur in its lower-cased description, and in Outros exactly when none occurs |
| MoneyTime.FirstRuleIs | src/app/dashboard/moneytime/page.tsx:46-56 | with distinct group names, the chain gives group j exactly when group j is the first to match |
| MoneyTime.CategorySpending | src/app/dashboard/moneytime/page.tsx:42-60 | the dictionary filled by the `forEach` has the categories met as keys, in first-seen order, each holding the total of its expenses |
| MoneyTime.EntriesTotals | src/app/dashboard/moneytime/page.tsx:59-62 | a category is listed exactly when some expense has it, and its amount is that category's total |
| MoneyTime.Take3 | src/app/dashboard/moneytime/page.tsx:64 | at most the first three entries |
| MoneyTime.SortedCategories | src/app/dashboard/moneytime/page.tsx:62-64 | the method yields the top categories of the specification |
| MoneyTime.TopAreLargest | src/app/dashboard/moneytime/page.tsx:62-64 | the top categories are at most three, in decreasing order, and none left out has a larger total |
| MoneyTime.ByAmountConsistent | src/app/dashboard/moneytime/page.tsx:63 | the decreasing-total comparator is antisymmetric and transitive |
| MoneyTime.CategoryInsight | src/app/dashboard/moneytime/page.tsx:66-93 | share above 40% is a warning; otherwise above 25% a tip; otherwise a success only for the largest category |
| MoneyTime.PushCategoryInsights | src/app/dashboard/moneytime/page.tsx:66-94 | the loop pushes each top category's insight in order |
| MoneyTime.SavingsInsight | src/app/dashboard/moneytime/page.tsx:96-115 | with income, a rate under 10% is a warning and 20% or more a success; nothing else, and never a tip |
| MoneyTime.NoIncomeNoSavings | src/app/dashboard/moneytime/page.tsx:97-99 | without income there is no savings insight |
| MoneyTime.PushSavingsInsight | src/app/dashboard/moneytime/page.tsx:99-115 | the savings insight, if any, is appended |
| MoneyTime.HighInsightExact | src/app/dashboard/moneytime/page.tsx:117-128 | the high-spending tip appears exactly when some expense exceeds twice the mean |
| MoneyTime.PushHighInsight | src/app/dashboard/moneytime/page.tsx:117-128 | the high-spending tip, if any, is appended |
| MoneyTime.AnalyzeTransactions | src/app/dashboard/moneytime/page.tsx:22-131 | the method returns the specification's insights for the month |
| MoneyTime.NoTransactionsNoInsights | src/app/dashboard/moneytime/page.tsx:23-32 | no transactions in the month (or none at all) give no insights |
| MoneyTime.AtMostFive | src/app/dashboard/moneytime/page.tsx:66-128 | there are at most five insights |
| SmartInput.ParseWithAI | src/components/SmartTransactionInput.tsx:65-91 | the server's answer is used exactly when all four fields are present, the amount is positive and the type is income or expense; otherwise (or on an exception) the local parser decides |
| SmartInput.ServerAnswerFirst | src/components/SmartTransactionInput.tsx:69-90 | a full answer wins; an exception or a NaN amount falls back to the local parser |
| SmartInput.RegexParse | src/components/SmartTransactionInput.tsx:93-134 | none exactly when the lower-cased, trimmed command has no digit or a zero amount; otherwise the amount, income exactly when an income word occurs, the stripped description or Receita/Despesa, and the shifted date |
| SmartInput.MatchAmount | src/components/SmartTransactionInput.tsx:101 | the amount is the first run of digits, with the fraction after a `,` or `.`; no match exactly when there is no digit |
| SmartInput.Fraction | src/components/SmartTransactionInput.tsx:101 | one or two digits after a separator, only when a digit follows it |
| SmartInput.Cents | src/components/SmartTransactionInput.tsx:104-105 | the amount is zero exactly when the whole and fractional digits are all zero |
| SmartInput.WholeAmount | src/components/SmartTransactionInput.tsx:101-104 | a whole number after text without digits, not followed by a separator, is read as that many units |
| SmartInput.FirstPrefix | src/components/SmartTransactionInput.tsx:109-112 | the first alternative of the pattern that matches at a position |
| SmartInput.RemoveFirst | src/components/SmartTransactionInput.tsx:109-111 | removing the first match never lengthens the text |
| SmartInput.RemoveAll | src/components/SmartTransactionInput.tsx:112 | removing all matches never lengthens the text |
| SmartInput.RemoveFirstLeftmost | src/components/SmartTransactionInput.tsx:109-111 | when an alternative matches at p and at no earlier position, replace without the g flag removes exactly the chosen alternative's characters at p and keeps the text before and after it |
| SmartInput.RemoveFirstNoMatch | src/components/SmartTransactionInput.tsx:109-111 | when no alternative matches at any position, replace without the g flag leaves the text unchanged |
| SmartInput.RemoveAllLeftmost | src/components/SmartTransactionInput.tsx:112 | when an alternative matches at p and at no earlier position, replace with the g flag keeps the text before p, removes that match, and continues on the text after it |
| SmartInput.RemoveAllNoMatch | src/components/SmartTransactionInput.tsx:112 | when no alternative matches at any position, replace with the g flag leaves the text unchanged |
| SmartInput.RemoveAmount | src/components/SmartTransactionInput.tsx:110 | removing the amount never lengthens the text; what it cuts out is stated by the two lemmas below |
| SmartInput.RemoveAmountWhole | src/components/SmartTransactionInput.tsx:101-110 | a whole number after digit-free text, not followed by a separator, white space or a unit, is cut out and the text on both sides is kept |
| SmartInput.RemoveAmountWithUnit | src/components/SmartTransactionInput.tsx:101-110 | a number followed by a space and `reais` is cut out together with the space and the unit |
| SmartInput.FirstDigit | src/components/SmartTransactionInput.tsx:101 | the position of the first digit, or the end when there is none |
| SmartInput.SpaceRun | src/components/SmartTransactionInput.tsx:101 | the run of whitespace after the number |
| SmartInput.MatchEnd | src/components/SmartTransactionInput.tsx:101 | the match ends within the text |
| SmartInput.AnteontemIsYesterday | src/components/SmartTransactionInput.tsx:123-129 | `anteontem` shifts the date only one day back, because the `ontem` test runs first |
| SmartInput.ParseIgnoresCase | src/components/SmartTransactionInput.tsx:94 | the local parser gives the same result on a command and its lower-case form |
| SmartInput.LowerIdempotent | src/components/SmartTransactionInput.tsx:94 | lower-casing twice is lower-casing once |
| SmartInput.NoDigitNoCommand | src/components/SmartTransactionInput.tsx:101-102 | without the server's answer, a command without digits gives nothing |
| SmartInput.ErrorMessage | src/components/SmartTransactionInput.tsx:164-182 | `detail.detail`, then a string `detail`, then `message` from the body; without a body `err.message`; otherwise the default |
| SmartInput.ErrorText | src/components/SmartTransactionInput.tsx:167-181 | the if-chain computes that message |
| SmartInput.ErrorPrecedence | src/components/SmartTransactionInput.tsx:167-181 | the server's detail wins over the client's message, and a body without detail or message hides the client's message |
| SmartInput.SubmitToast | src/components/SmartTransactionInput.tsx:145-182 | a failed parse shows the parse-failure toast, a created transaction the success toast, a failed create the error toast with the message |
| SmartInput.Settle | src/components/SmartTransactionInput.tsx:145-182 | the toast of the outcome, and the command is cleared exactly when a parsed command was created |
| SmartInput.FailureShowsError | src/components/SmartTransactionInput.tsx:145-182 | a submission ends in an error toast exactly when the parse fails or the create call fails |
| SmartInput.SmartForm.constructor | src/components/SmartTransactionInput.tsx:15-17 | the input starts empty and idle |
| SmartInput.SmartForm.Type | src/components/SmartTransactionInput.tsx:216 | typing replaces the command |
| SmartInput.SmartForm.BeginSubmit | src/components/SmartTransactionInput.tsx:138-140 | a submission starts exactly when the trimmed command is non-blank and none is processing |
| SmartInput.SmartForm.FinishSubmit | src/components/SmartTransactionInput.tsx:142-185 | the request is the parse of the command, the toast that of the outcome, the command is cleared only after a created transaction, and processing ends |

## Left out

- Time zones: `new Date("YYYY-MM-DD")` reads UTC while local getters read local time; the model uses one frame, so no day shift at those call sites is reproduced.
- The clock, `setInterval`/`setTimeout`, and `Math.random`: `now`, `today` and the id suffix are parameters; the one-second sweep timer of the preview store is not modelled.
- `getBalanceStatus` is not defined in the repository's `status.ts`; it is the parameter `classify`, and no thresholds are assumed.
- Floating point and locale: amounts are exact cents; `formatCurrency`, `parseNumber`, `toLocaleString`, `toFixed` message texts and the countdown progress bar are not modelled; `parseFloat` is a parameter where its result matters.
- The network, the API client, the services and the query cache, including query invalidation and `onSuccess` callbacks: the server's answers are parameters (`createSucceeds`, `succeeded`, `AiOutcome`, `CreateOutcome`).
- Speech recognition and its toggle in the smart input, and its example buttons.
- `localeCompare` is taken as code-unit order of the date strings, which is how it orders digits and dashes.
- `created_at`/`updated_at` of transactions are not part of the data model.
- `savePreview` runs as one step: concurrent removal while the create call is pending is not modelled.
- PreviewStore.PreviewStore.AddPreview: requires a non-blank description, a positive amount and a fresh id, which is the floating button's guard and the random suffix's freshness.
- Lemmas about string order and the ISO round trip require four-digit years (1000 to 9999), where string order and date order agree.
- Years 0 to 99 are modelled only in date parsing and in the calendar grid (via `JsLocalDate`), not in the pickers' initial state.
- The status label texts stand for the translated strings; the row colours are not modelled.
- `getBalanceForDate` formats the cell with `toISOString`; the model compares the dates themselves (Calendar.IsoSameDay shows the two agree).
- `isToday` in calendar.ts, and the DatePicker's `isToday` and `isSelected` highlighting, are not modelled; DayList's `isToday` uses the clock parameter.
- DatePicker and MonthPicker `displayValue`, styling and click-outside closing are not modelled.
- `parseInt` with a `0x` prefix or a radix is not modelled; only decimal digits are read.
- CurrencyInput `formatValue`, `handleBlur` and the `useEffect` sync from the outer value are not modelled (they format with `toLocaleString`).
- The transactions page's `handleDelete` with its confirm dialog and `openEdit` are not modelled; `editingId` 0 counts as unset, as in JavaScript.
- The dashboard's `toAmount` is the identity on whole cents.
- MoneyTime's month test uses the date fields directly rather than `new Date(t.transaction_date)` in local time.
- MoneyTime insight message texts and percentages are not modelled; the thresholds are stated as exact integer comparisons.
- The profile form's `handleProfileSubmit` and its toasts are not modelled.
- `error.ts` is not part of this model: it always yields its generic message because the client throws plain objects.
- SmartInput.RemoveAmount: its own contract is only a length bound; what it removes is stated for whole numbers, with and without the unit `reais`, by SmartInput.RemoveAmountWhole and SmartInput.RemoveAmountWithUnit, not for decimal amounts.
- SmartInput.SmartForm.Type: requires that no submission is processing, because the input is disabled then.
- Unicode: lower-casing covers ASCII and Latin-1 letters, and whitespace is a fixed set of characters.
- The success toast's text is the tuple of type, description and amount, not the formatted string.
- No shown file calls `combineDailyBalancesWithPreviews`; the dashboard passes the raw server balances to its views, as Dashboard.Panel states.
