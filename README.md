# Daily cash ledger — a Dafny model

The application keeps a small personal cash ledger. Each
business day has one record under a date key `<year>-<MM>-<DD>`. A record holds
the day's income, the day's expenses and the history of individual movements.
Saving a movement appends it to the selected day and raises the totals.
Deleting removes every movement with the given id and recomputes the totals
from what is left. The screens show four figures:
- the net of the selected day;
- the rollup of the Monday-to-Sunday week around it;
- the rollup of its calendar month;
- the all-time balance.

The project models that ledger in four modules:

- `Calendar` (calendar.dfy) holds:
  - proleptic Gregorian dates;
  - a day-number line with weekdays (0 = Sunday, as `getDay()`);
  - JavaScript's `setDate`, with its overflow into neighbouring months;
  - the 04:00 business-day cutoff;
  - the Monday-start week window of `getWeekRange`.
- `DateKeys` (date_keys.dfy) renders date keys exactly as `getDateKey` builds
  them. `String(n)` and `padStart(2, '0')` are written out, and the year is left
  unpadded. A parser reads keys back. The module proves the round trip and the
  month-prefix test that the monthly rollup relies on.
- `Ledger` (ledger.dfy) holds:
  - the store (`map<string, DayRecord>`);
  - the copy-on-write updaters of save and delete, with the save's both-zero
    guard and the delete's missing-id failure as a `Result`;
  - the selected day's net;
  - the invariant that every day's totals are the sums over its history.
- `Stats` (stats.dfy) holds the three rollups as methods with loops:
  - the weekly `for` loop over seven consecutive keys;
  - the monthly and global `forEach` scans, which take keys in an arbitrary
    order.

  Each method is proved against a specification function: a sum over a sequence
  of keys, or a sum over a set of keys. Lemmas state what the rollups promise
  and how saving and deleting move them.

## Model

| member | source | states |
|---|---|---|
| Calendar.InitialDate | src/App.jsx:8-19 | before 04:00 the business day is the calendar day before (day number one less); from 04:00 on the moment is unchanged; the time of day is always kept |
| Calendar.CutoffIsPreviousDay | src/App.jsx:13-19 | before the cutoff the date is the previous calendar day, which on the 1st is the last day of the previous month and on 1 January is 31 December of the previous year |
| Calendar.CutoffOnMarch15 | src/App.jsx:13-19 | at 03:59 on 2024-03-15 the business day is 2024-03-14; at 04:00 it is 2024-03-15 |
| Calendar.SetDate | src/App.jsx:16 | `setDate(n)` gives the date `n - getDate()` days away, rolling over month and year ends |
| Calendar.AddDays | src/App.jsx:16 | the date `k` days away is valid and lies `k` steps along the day-number line |
| Calendar.AddDaysWeekday | src/App.jsx:112 | moving `k` days shifts `getDay()` by `k` modulo 7 |
| Calendar.Weekday | src/App.jsx:112 | `getDay()`: the position on the day-number line modulo 7, with 0 for Sunday and 1 for Monday (0001-01-01 is a Monday) |
| Calendar.GetWeekRange | src/App.jsx:110-121 | the window starts on a Monday, `(weekday + 6) % 7` days before the base date (six for a Sunday), and ends six days after its start |
| Calendar.MondayOnOrBefore | src/App.jsx:112-118 | the two `setDate` calls land on the Monday `(weekday + 6) % 7` days back and on the day six after it |
| Calendar.WeekRangeUnique | src/App.jsx:110-121 | the window's start is the only Monday at most six days before the base date, so the base date lies within the window |
| Calendar.WeekOfMarch15 | src/App.jsx:110-121 | the week of Friday 2024-03-15 runs from Monday 2024-03-11 to Sunday 2024-03-17 |
| DateKeys.DateKey | src/App.jsx:102-107 | `getDateKey`: year, dash, two-digit month, dash, two-digit day; every key reads back through an independent parser as the date it was made from |
| DateKeys.KeyRoundTrip | src/App.jsx:102-107 | the year, padded month and padded day joined by dashes parse back as the date |
| DateKeys.DateKeyInjective | src/App.jsx:102-107 | distinct dates have distinct keys |
| DateKeys.Pad2RoundTrip | src/App.jsx:104-105 | a month or day pads to exactly two digits that read back as itself |
| DateKeys.IntRoundTrip | src/App.jsx:103-106 | the unpadded year `String(year)` reads back as the year, negative years included |
| DateKeys.KeyShape | src/App.jsx:102-107 | a key is six characters longer than the year: the year (digits after its first character), a dash, two digits, a dash and two digits |
| DateKeys.NatToString | src/App.jsx:104-105 | `String(n)` for a non-negative number: at least one decimal digit, with no leading zero unless the number is 0; `NatRoundTrip` reads the digits back as the number |
| DateKeys.IntToString | src/App.jsx:103-106 | `String(year)`: the first character is a minus sign exactly when the year is negative, and a digit otherwise; the rest are digits, so the year is written unpadded |
| DateKeys.PadStart2 | src/App.jsx:104-105 | `padStart(2, '0')`: a string shorter than two characters gets zeros in front up to length two; a longer one is unchanged |
| DateKeys.Pad2 | src/App.jsx:104-105 | `String(n).padStart(2, '0')`, as for the month and day of a key and the month of the prefix (line 144) |
| DateKeys.StartsWith | src/App.jsx:150 | `key.startsWith(prefix)`: the prefix is no longer than the key and equals the key's first characters |
| DateKeys.MonthPrefix | src/App.jsx:142-145 | the `${year}-${monthKey}` prefix: the unpadded year, a dash and the two-digit month |
| DateKeys.MonthPrefixIff | src/App.jsx:142-145 | a key starts with a date's `<year>-<MM>` prefix exactly when its date has the same year and month |
| DateKeys.KeyOfMarch5 | src/App.jsx:102-107 | the key of 2024-03-05 is `"2024-03-05"` |
| Ledger.DayOrEmpty | src/App.jsx:191 | a day without a record reads as `{0, 0, []}`, as `prev[dateKey] \|\| {...}` and the selected-day lookup at line 241 do |
| Ledger.HasId | src/App.jsx:216 | `history.find(i => i.id === itemId)` finds an entry: some entry of the history carries the id |
| Ledger.AppendEntry | src/App.jsx:188-204 | the entry goes to the end of the day's history; income and expenses grow by its two amounts, a missing day starting from `{0, 0, []}`; every other key is unchanged |
| Ledger.HandlePreSave | src/App.jsx:160-167 | a save fails with `EmptyFields` exactly when both amounts are zero; otherwise it is the append on the selected day's key |
| Ledger.RemoveEntries | src/App.jsx:228-234 | the new history is the old one without the entries carrying the id; both totals are the sums over it; every other key is unchanged |
| Ledger.HandleDeleteItem | src/App.jsx:214-234 | a delete fails with `EntryNotFound` exactly when no entry of the day carries the id; otherwise it is the removal on the selected day |
| Ledger.DayNet | src/App.jsx:240-242 | the selected day's net is income minus expenses, zero when the day has no record |
| Ledger.WithoutId | src/App.jsx:230 | `filter(item => item.id !== itemId)`: the history without the entries carrying the id, in order |
| Ledger.SumIncome | src/App.jsx:231 | `reduce` of the income amounts from 0, in history order |
| Ledger.SumExpense | src/App.jsx:232 | `reduce` of the expense amounts from 0, in history order |
| Ledger.SumConcat | src/App.jsx:231-232 | the sums over a concatenation are the sums of the parts |
| Ledger.WithoutIdConcat | src/App.jsx:230 | filtering by id distributes over concatenation, so the entries it keeps stay in order |
| Ledger.WithoutAbsentId | src/App.jsx:230 | filtering out an id no entry carries changes nothing |
| Ledger.WithoutIdMembers | src/App.jsx:230 | the filter keeps exactly the entries whose id differs |
| Ledger.SumSplitById | src/App.jsx:230-232 | a history's sums split into the sums of what the filter keeps and what it drops |
| Ledger.AppendKeepsBalance | src/App.jsx:191-203 | if every day's totals are the sums over its history, a save keeps it so |
| Ledger.RemoveKeepsBalance | src/App.jsx:229-233 | if every day's totals are the sums over its history, a delete keeps it so |
| Ledger.RemoveSubtractsRemoved | src/App.jsx:228-234 | on a balanced day a delete lowers each total by exactly the amounts of the removed entries |
| Ledger.AppendThenRemove | src/App.jsx:191-203 | deleting the id of the entry just saved (its id new to a balanced day) restores the store, a day that had no record keeping the empty one |
| Ledger.SaveThenDeleteOnFreshDay | src/App.jsx:188-234 | saving 100 and 30 on a fresh day and then deleting that entry leaves the day at `{0, 0, []}` |
| Ledger.PreSaveKeepsInvariants | src/App.jsx:160-204 | a save keeps the store balanced and keyed by date keys, and moves the selected day's net by the income minus the expense saved |
| Ledger.DayNetOfHistory | src/App.jsx:240-242 | on a balanced store a day's net is the income minus the expenses of its history |
| Stats.CalculateWeeklyStats | src/App.jsx:123-139 | the window starts at `getWeekRange(date).start`; the totals and worked days are the rollup of the seven keys from there; the net is income minus expenses; at most seven days are worked |
| Stats.WeekTotals | src/App.jsx:125-137 | the `for` loop's three accumulators end as the rollup of the seven keys from the start, with at most seven worked days |
| Stats.DayTally | src/App.jsx:132-135 | what one key adds to a rollup: nothing without a record, else its income and expenses and one worked day when either is positive (also lines 150-153) |
| Stats.WeekDayKey | src/App.jsx:129-131 | the key the loop reads at step `i` (a copy of the start moved by `setDate(getDate() + i)`) is the key `i` days after the start |
| Stats.DayAtAddDays | src/App.jsx:130 | walking `i` days forward one at a time reaches the date `i` days away |
| Stats.DayKeyAtDayAt | src/App.jsx:131 | the key `i` days on is the key of the date `i` days on |
| Stats.AddDayTally | src/App.jsx:132-136 | one key adds nothing when the store lacks it, and otherwise adds its income and expenses, plus a worked day when either is positive |
| Stats.SeqTallyStep | src/App.jsx:128-137 | extending the keys read so far by one adds that key's tally |
| Stats.SeqTallyDays | src/App.jsx:128-137 | a rollup of `n` keys counts at most `n` worked days |
| Stats.WeekKeysCoverWeek | src/App.jsx:128-131 | the week's seven keys are distinct; key `i` is the key of the day `i` days after the Monday; the selected date's own key is among them |
| Stats.CalculateMonthlyStats | src/App.jsx:141-157 | the totals and worked days are the rollup of exactly the keys starting with the selected date's `<year>-<MM>`, whatever order the keys come in; the net is income minus expenses |
| Stats.MonthlyScansSelectedMonth | src/App.jsx:142-155 | on a store keyed by date keys, a key is scanned exactly when its date is in the selected date's year and month |
| Stats.MonthlyIgnoresOtherMonths | src/App.jsx:149-155 | two stores that agree on every key with the month's prefix have the same monthly rollup |
| Stats.MonthlyUnchangedBySaveElsewhere | src/App.jsx:149-155 | a save on a day of another month leaves the monthly rollup as it was |
| Stats.MonthlyDaysBound | src/App.jsx:149-155 | a month counts at most one worked day per scanned key |
| Stats.MarchKeys | src/App.jsx:149-150 | over keys 2024-03-01, 2024-03-15 and 2024-04-01, the `"2024-03"` scan takes the first two |
| Stats.MarchRollup | src/App.jsx:149-156 | for that store the March rollup is income 50, expenses 20 and two worked days; April's 999 is not counted |
| Stats.MarchPrefix | src/App.jsx:142-145 | the prefix for a date in March 2024 is `"2024-03"` |
| Stats.CalculateGlobalTotal | src/App.jsx:68-78 | the result is the all-time income minus the all-time expenses over every day of the store, whatever order the days come in |
| Stats.SetTallySplit | src/App.jsx:72-75 | any key can be taken first, so a rollup over a set of keys does not depend on the visiting order |
| Stats.SetTallyAgree | src/App.jsx:72-75 | stores that agree on a set of keys have the same rollup over it |
| Stats.SetTallyDays | src/App.jsx:149-155 | a rollup over a set of keys counts at most one worked day per key |
| Stats.SetTallyReplace | src/App.jsx:72-75 | replacing one day's record changes a rollup covering that day by exactly the difference of the two records |
| Stats.GlobalNetAfterSave | src/App.jsx:68-78 | a confirmed save raises the all-time balance by its income minus its expense |
| Stats.GlobalNetAfterDelete | src/App.jsx:68-78 | on a balanced store a confirmed delete lowers the all-time balance by the net of the removed entries |

## Left out

- Loading and saving the store in `localStorage` through `JSON.parse` and `JSON.stringify` is left out: it is browser I/O. The store is an input.
- Browser-history navigation, the PWA install prompt and the rendered screens are left out: they are user-interface plumbing with no ledger logic.
- The confirmation dialogs and toasts are left out: they are asynchronous UI. A save or delete is modelled as the confirmed case, and a cancelled dialog changes nothing.
- The entry id comes from `Date.now()` and the time label from `toLocaleTimeString`. Both are parameters, because they come from the clock and the locale. Ids are not assumed unique.
- `parseFloat(x) || 0` is left out, and so is IEEE floating-point rounding. Amounts are `real`s already parsed, and sums are exact.
- Time zones and daylight-saving shifts are left out. Dates are local calendar dates. A `Moment` carries a date and its hour, minute, second and millisecond; the cutoff reads the hour and keeps the others.
- `Calendar.GetWeekRange`: the 00:00:00.000 and 23:59:59.999 times set on the window's two ends are not modelled; a window holds two dates.
- `Stats.CalculateGlobalTotal`: does not model `day.income || 0`, because every record has both totals as numbers, so the default makes no difference.
- The order `Object.keys` and `Object.values` list keys in is not modelled. Each scan takes an arbitrary remaining key, so the proofs hold for every order.
- `Ledger.HandleDeleteItem` requires the selected day to have a record. The source reads `dailyData[dateKey].history` unguarded and fails on a day without one.
- `Ledger.HandleDeleteItem` turns a missing id into `Err(EntryNotFound)` with the store unchanged. In the source, `find` yields `undefined` and reading its `time` fails before any dialog opens.
- `DateKeys.DateKey` does not pad the year. The calendar-date form of ISO 8601 pads the year to four digits, but the code writes `String(year)` as it is (src/App.jsx:103,106). The model follows the code, so a year below 1000 gives a shorter key.
