/** The rollups read from the store: the week of the selected date, its month,
    and the all-time balance. */
module Stats {
  import opened Calendar
  import opened DateKeys
  import opened Ledger

  /** Running totals of a rollup: income, expenses and the number of worked days. */
  datatype Tally = Tally(income: real, expense: real, days: nat)

  const NoTally: Tally := Tally(0.0, 0.0, 0)

  function Plus(a: Tally, b: Tally): Tally {
    Tally(a.income + b.income, a.expense + b.expense, a.days + b.days)
  }

  /** What one key adds to a rollup: nothing when the store has no record for it,
      and a worked day only when the day's income or expenses are positive. */
  function DayTally(store: Store, key: string): Tally {
    if key in store then
      var day := store[key];
      Tally(day.income, day.expenses, if day.income > 0.0 || day.expenses > 0.0 then 1 else 0)
    else NoTally
  }

  /** The rollup of a sequence of keys, taken in order. */
  function SeqTally(store: Store, keys: seq<string>): Tally {
    if keys == [] then NoTally
    else Plus(SeqTally(store, keys[..|keys| - 1]), DayTally(store, keys[|keys| - 1]))
  }

  /** The rollup of a set of keys, taken in no particular order. */
  ghost function SetTally(store: Store, keys: set<string>): Tally
    decreases keys
  {
    if keys == {} then NoTally
    else
      var k :| k in keys;
      Plus(DayTally(store, k), SetTally(store, keys - {k}))
  }

  /** The keys `calculateMonthlyStats` adds up: those that start with `prefix`. */
  function Matching(keys: set<string>, prefix: string): set<string> {
    set k | k in keys && StartsWith(k, prefix)
  }

  /** The day `i` days after `d`, reached one day at a time. This is `AddDays(d, i)`
      (`DayAtAddDays`) restricted to forward steps; the weekly proofs use it because
      its steps carry no day-number arithmetic. */
  function DayAt(d: Date, i: nat): (r: Date)
    requires Valid(d)
    ensures Valid(r)
    decreases i
  {
    if i == 0 then d else DayAt(NextDay(d), i - 1)
  }

  /** The key of the day `i` days after `d`: `DateKey(AddDays(d, i))` (see
      `DayKeyAtDayAt` and `WeekKeysCoverWeek`), written as a walk so that the weekly
      loop's proof does not unfold date keys of day-number arithmetic. */
  function DayKeyAt(d: Date, i: nat): string
    requires Valid(d)
    decreases i
  {
    if i == 0 then DateKey(d) else DayKeyAt(NextDay(d), i - 1)
  }

  /** The seven consecutive keys of the week that starts at `start`. */
  function WeekKeys(start: Date): (keys: seq<string>)
    requires Valid(start)
    ensures |keys| == 7
  {
    seq(7, i requires 0 <= i < 7 => DayKeyAt(start, i))
  }

  /** The all-time balance: income minus expenses over every day of the store. */
  ghost function GlobalNet(store: Store): real {
    SetTally(store, store.Keys).income - SetTally(store, store.Keys).expense
  }

  datatype WeeklyStats = WeeklyStats(totalIncome: real, totalExpense: real, net: real, startDate: Date, daysWorked: nat)

  datatype MonthlyStats = MonthlyStats(totalIncome: real, totalExpense: real, net: real, daysWorked: nat)

  // ---------------------------------------------------------------------------
  // The three rollups

  /** `calculateWeeklyStats`: adds up the seven days from the Monday of the selected
      date's week; days without a record add nothing. */
  method CalculateWeeklyStats(store: Store, date: Date) returns (stats: WeeklyStats)
    requires Valid(date)
    ensures stats.startDate == GetWeekRange(date).start
    ensures Tally(stats.totalIncome, stats.totalExpense, stats.daysWorked) == SeqTally(store, WeekKeys(stats.startDate))
    ensures stats.net == stats.totalIncome - stats.totalExpense
    ensures stats.daysWorked <= 7
  {
    var start := GetWeekRange(date).start;
    var totalIncome, totalExpense, daysWithData := WeekTotals(store, start);
    stats := WeeklyStats(totalIncome, totalExpense, totalIncome - totalExpense, start, daysWithData);
  }

  /** The `for` loop of `calculateWeeklyStats` over the seven days from `start`. It
      is its own method so that its proof sees only that `start` is a valid date,
      not the day-number arithmetic of the week window. */
  method WeekTotals(store: Store, start: Date) returns (totalIncome: real, totalExpense: real, daysWithData: nat)
    requires Valid(start)
    ensures Tally(totalIncome, totalExpense, daysWithData) == SeqTally(store, WeekKeys(start))
    ensures daysWithData <= 7
  {
    totalIncome, totalExpense, daysWithData := 0.0, 0.0, 0;
    ghost var keys := WeekKeys(start);
    for i := 0 to 7
      invariant Tally(totalIncome, totalExpense, daysWithData) == SeqTally(store, keys[..i])
    {
      var key := WeekDayKey(start, i);
      SeqTallyStep(store, keys, i);
      AddDayTally(store, key, Tally(totalIncome, totalExpense, daysWithData));
      if key in store {
        totalIncome := totalIncome + store[key].income;
        totalExpense := totalExpense + store[key].expenses;
        if store[key].income > 0.0 || store[key].expenses > 0.0 {
          daysWithData := daysWithData + 1;
        }
      }
    }
    assert keys[..7] == keys;
    SeqTallyDays(store, keys);
  }

  /** The key the weekly loop reads at step `i`: a copy of the start date moved
      with `setDate(start.getDate() + i)`, then rendered by `getDateKey`. */
  method WeekDayKey(start: Date, i: nat) returns (key: string)
    requires Valid(start)
    ensures key == DayKeyAt(start, i)
  {
    var loopDate := SetDate(start, start.day + i);
    key := DateKey(loopDate);
    SetDateForward(start, i);
    DayAtAddDays(start, i);
    DayKeyAtDayAt(start, i);
  }

  /** `calculateMonthlyStats`: scans every key of the store, in whatever order, and
      adds up those that start with the selected date's `<year>-<MM>`. */
  method CalculateMonthlyStats(store: Store, date: Date) returns (stats: MonthlyStats)
    requires Valid(date)
    ensures Tally(stats.totalIncome, stats.totalExpense, stats.daysWorked) ==
      SetTally(store, Matching(store.Keys, MonthPrefix(date)))
    ensures stats.net == stats.totalIncome - stats.totalExpense
  {
    var prefix := MonthPrefix(date);
    var totalIncome, totalExpense := 0.0, 0.0;
    var daysWithData: nat := 0;
    var rest := store.Keys;
    while rest != {}
      invariant rest <= store.Keys
      invariant Tally(totalIncome, totalExpense, daysWithData) == SetTally(store, Matching(store.Keys - rest, prefix))
      decreases rest
    {
      var key :| key in rest;
      ghost var done := store.Keys - rest;
      if StartsWith(key, prefix) {
        assert Matching(done + {key}, prefix) - {key} == Matching(done, prefix);
        SetTallySplit(store, Matching(done + {key}, prefix), key);
        AddDayTally(store, key, Tally(totalIncome, totalExpense, daysWithData));
        totalIncome := totalIncome + store[key].income;
        totalExpense := totalExpense + store[key].expenses;
        if store[key].income > 0.0 || store[key].expenses > 0.0 {
          daysWithData := daysWithData + 1;
        }
      } else {
        assert Matching(done + {key}, prefix) == Matching(done, prefix);
      }
      rest := rest - {key};
      assert store.Keys - rest == done + {key};
    }
    assert store.Keys - rest == store.Keys;
    stats := MonthlyStats(totalIncome, totalExpense, totalIncome - totalExpense, daysWithData);
  }

  /** `calculateGlobalTotal`: income minus expenses over every day of the store,
      visited in whatever order. */
  method CalculateGlobalTotal(store: Store) returns (total: real)
    ensures total == GlobalNet(store)
  {
    var globalIncome, globalExpense := 0.0, 0.0;
    var rest := store.Keys;
    while rest != {}
      invariant rest <= store.Keys
      invariant globalIncome == SetTally(store, store.Keys - rest).income
      invariant globalExpense == SetTally(store, store.Keys - rest).expense
      decreases rest
    {
      var key :| key in rest;
      ghost var done := store.Keys - rest;
      assert (done + {key}) - {key} == done;
      SetTallySplit(store, done + {key}, key);
      var day := store[key];
      globalIncome := globalIncome + day.income;
      globalExpense := globalExpense + day.expenses;
      rest := rest - {key};
      assert store.Keys - rest == done + {key};
    }
    assert store.Keys - rest == store.Keys;
    total := globalIncome - globalExpense;
  }

  // ---------------------------------------------------------------------------
  // Rollups over sets of keys

  /** Any key of a set can be taken out first: the rollup of a set does not depend
      on the order its keys are visited in. */
  lemma SetTallySplit(store: Store, keys: set<string>, k: string)
    requires k in keys
    ensures SetTally(store, keys) == Plus(DayTally(store, k), SetTally(store, keys - {k}))
    decreases keys
  {
    var j :| j in keys && SetTally(store, keys) == Plus(DayTally(store, j), SetTally(store, keys - {j}));
    if j != k {
      var both := keys - {j} - {k};
      assert keys - {k} - {j} == both;
      SetTallySplit(store, keys - {j}, k);
      SetTallySplit(store, keys - {k}, j);
      PlusSwap(DayTally(store, j), DayTally(store, k), SetTally(store, both));
    }
  }

  lemma PlusSwap(a: Tally, b: Tally, c: Tally)
    ensures Plus(a, Plus(b, c)) == Plus(b, Plus(a, c))
  {
  }

  /** Walking `i` days forward one at a time lands on `AddDays(d, i)`. */
  lemma {:induction false} DayAtAddDays(d: Date, i: nat)
    requires Valid(d)
    ensures DayAt(d, i) == AddDays(d, i)
    decreases i
  {
    if i > 0 {
      DayAtAddDays(NextDay(d), i - 1);
    }
  }

  /** The key `i` days after `d` is the key of the date `i` days after `d`. */
  lemma {:induction false} DayKeyAtDayAt(d: Date, i: nat)
    requires Valid(d)
    ensures DayKeyAt(d, i) == DateKey(DayAt(d, i))
    decreases i
  {
    if i > 0 {
      DayKeyAtDayAt(NextDay(d), i - 1);
    }
  }

  /** Adding one key's tally to running totals, spelled out the way the rollup loops
      update their three variables. */
  lemma AddDayTally(store: Store, key: string, t: Tally)
    ensures key !in store ==> Plus(t, DayTally(store, key)) == t
    ensures key in store ==>
      Plus(t, DayTally(store, key)) ==
        Tally(t.income + store[key].income, t.expense + store[key].expenses,
              if store[key].income > 0.0 || store[key].expenses > 0.0 then t.days + 1 else t.days)
  {
  }

  /** Extending a prefix of keys by one key adds that key's tally. */
  lemma SeqTallyStep(store: Store, keys: seq<string>, i: nat)
    requires i < |keys|
    ensures SeqTally(store, keys[..i + 1]) == Plus(SeqTally(store, keys[..i]), DayTally(store, keys[i]))
  {
    assert keys[..i + 1][..i] == keys[..i];
  }

  /** Two stores that agree on a set of keys have the same rollup over it. */
  lemma {:induction false} SetTallyAgree(s1: Store, s2: Store, keys: set<string>)
    requires forall k :: k in keys ==> DayTally(s1, k) == DayTally(s2, k)
    ensures SetTally(s1, keys) == SetTally(s2, keys)
    decreases keys
  {
    if keys != {} {
      var k :| k in keys;
      SetTallySplit(s1, keys, k);
      SetTallySplit(s2, keys, k);
      SetTallyAgree(s1, s2, keys - {k});
    }
  }

  /** A rollup counts at most one worked day per key. */
  lemma {:induction false} SetTallyDays(store: Store, keys: set<string>)
    ensures SetTally(store, keys).days <= |keys|
    decreases keys
  {
    if keys != {} {
      var k :| k in keys;
      SetTallySplit(store, keys, k);
      SetTallyDays(store, keys - {k});
    }
  }

  /** Replacing the record of `key` changes a rollup that covers `key` by exactly
      the difference between the two records. */
  lemma SetTallyReplace(store: Store, key: string, day: DayRecord, keys: set<string>)
    requires key in keys
    ensures var r := store[key := day]; var before := SetTally(store, keys); var after := SetTally(r, keys);
      after.income == before.income - DayTally(store, key).income + day.income &&
      after.expense == before.expense - DayTally(store, key).expense + day.expenses
  {
    var r := store[key := day];
    SetTallySplit(store, keys, key);
    SetTallySplit(r, keys, key);
    SetTallyAgree(store, r, keys - {key});
  }

  // ---------------------------------------------------------------------------
  // What the rollups promise

  /** The week's seven keys are distinct; key `i` names the day `i` days after the
      start, and the selected date's own key is one of them. */
  lemma WeekKeysCoverWeek(date: Date)
    requires Valid(date)
    ensures var start := GetWeekRange(date).start; var keys := WeekKeys(start);
      (forall i, j :: 0 <= i < j < 7 ==> keys[i] != keys[j]) &&
      (forall i :: 0 <= i < 7 ==> keys[i] == DateKey(AddDays(start, i)) &&
                                  DayNumber(AddDays(start, i)) == DayNumber(start) + i) &&
      DateKey(date) in keys
  {
    var start := GetWeekRange(date).start;
    var keys := WeekKeys(start);
    forall i | 0 <= i < 7
      ensures keys[i] == DateKey(AddDays(start, i))
    {
      DayAtAddDays(start, i);
      DayKeyAtDayAt(start, i);
    }
    forall i, j | 0 <= i < j < 7
      ensures keys[i] != keys[j]
    {
      assert AddDays(start, i) != AddDays(start, j);
    }
    var k := DayNumber(date) - DayNumber(start);
    DayNumberInjective(AddDays(start, k), date);
    assert keys[k] == DateKey(date);
  }

  /** A rollup over a sequence of keys counts at most one worked day per key; so a
      week has at most seven. */
  lemma {:induction false} SeqTallyDays(store: Store, keys: seq<string>)
    ensures SeqTally(store, keys).days <= |keys|
  {
    if keys != [] {
      SeqTallyDays(store, keys[..|keys| - 1]);
    }
  }

  /** The month's rollup depends only on the days of that month: two stores that
      agree on every key with the month's prefix give the same monthly totals. */
  lemma MonthlyIgnoresOtherMonths(s1: Store, s2: Store, prefix: string)
    requires forall k :: StartsWith(k, prefix) ==> (k in s1 <==> k in s2)
    requires forall k :: StartsWith(k, prefix) && k in s1 && k in s2 ==> s1[k] == s2[k]
    ensures SetTally(s1, Matching(s1.Keys, prefix)) == SetTally(s2, Matching(s2.Keys, prefix))
  {
    assert Matching(s1.Keys, prefix) == Matching(s2.Keys, prefix);
    SetTallyAgree(s1, s2, Matching(s1.Keys, prefix));
  }

  /** On a store whose keys are all date keys, the monthly scan picks exactly the
      days of the selected date's month. */
  lemma MonthlyScansSelectedMonth(store: Store, date: Date)
    requires Valid(date) && WellKeyed(store)
    ensures forall key :: key in store ==>
      (key in Matching(store.Keys, MonthPrefix(date)) <==>
       ParseKey(key).value.year == date.year && ParseKey(key).value.month == date.month)
  {
    forall key | key in store
      ensures key in Matching(store.Keys, MonthPrefix(date)) <==>
        ParseKey(key).value.year == date.year && ParseKey(key).value.month == date.month
    {
      MonthPrefixIff(date, ParseKey(key).value);
    }
  }

  /** Saving on a day of another month leaves the selected month's rollup as it was. */
  lemma MonthlyUnchangedBySaveElsewhere(store: Store, date: Date, selected: Date, entry: Entry)
    requires Valid(date) && Valid(selected)
    requires selected.year != date.year || selected.month != date.month
    ensures var prefix := MonthPrefix(date); var r := AppendEntry(store, DateKey(selected), entry);
      SetTally(r, Matching(r.Keys, prefix)) == SetTally(store, Matching(store.Keys, prefix))
  {
    MonthPrefixIff(date, selected);
    MonthlyIgnoresOtherMonths(AppendEntry(store, DateKey(selected), entry), store, MonthPrefix(date));
  }

  /** A month counts at most one worked day per matching key. */
  lemma MonthlyDaysBound(store: Store, prefix: string)
    ensures SetTally(store, Matching(store.Keys, prefix)).days <= |Matching(store.Keys, prefix)|
  {
    SetTallyDays(store, Matching(store.Keys, prefix));
  }

  /** A confirmed save raises the all-time balance by its income minus its expense. */
  lemma GlobalNetAfterSave(store: Store, selected: Date, id: int, cash: real, expense: real, time: string)
    requires Valid(selected)
    ensures var r := HandlePreSave(store, selected, id, cash, expense, time);
      r.Ok? ==> GlobalNet(r.value) == GlobalNet(store) + cash - expense
  {
    var key := DateKey(selected);
    var r := AppendEntry(store, key, Entry(id, cash, expense, time));
    SetTallyReplace(store, key, r[key], r.Keys);
    assert r == store[key := r[key]];
    if key !in store {
      SetTallySplit(store, r.Keys, key);
      assert r.Keys - {key} == store.Keys;
    } else {
      assert r.Keys == store.Keys;
    }
  }

  /** On a balanced store a confirmed delete lowers the all-time balance by the net
      of the removed entries. */
  lemma GlobalNetAfterDelete(store: Store, selected: Date, id: int)
    requires Valid(selected) && DateKey(selected) in store && StoreBalanced(store)
    ensures var r := HandleDeleteItem(store, selected, id); var gone := WithId(store[DateKey(selected)].history, id);
      r.Ok? ==> GlobalNet(r.value) == GlobalNet(store) - (SumIncome(gone) - SumExpense(gone))
  {
    var key := DateKey(selected);
    var r := RemoveEntries(store, key, id);
    RemoveSubtractsRemoved(store, key, id);
    SetTallyReplace(store, key, r[key], store.Keys);
    assert r == store[key := r[key]];
  }

  /** Three days across two months, each with one entry that its totals sum up:
      income on March 1, an expense on March 15 and income on April 1. */
  function MarchStore(): Store {
    map["2024-03-01" := DayRecord(50.0, 0.0, [Entry(1, 50.0, 0.0, "09:00")]),
        "2024-03-15" := DayRecord(0.0, 20.0, [Entry(2, 0.0, 20.0, "18:30")]),
        "2024-04-01" := DayRecord(999.0, 0.0, [Entry(3, 999.0, 0.0, "12:00")])]
  }

  /** The March scan picks March 1 and March 15 and skips April 1. */
  lemma MarchKeys()
    ensures Matching(MarchStore().Keys, "2024-03") == {"2024-03-01", "2024-03-15"}
  {
    var keys := MarchStore().Keys;
    assert keys == {"2024-03-01", "2024-03-15", "2024-04-01"};
    assert StartsWith("2024-03-01", "2024-03") && StartsWith("2024-03-15", "2024-03");
    assert "2024-04-01"[..7][6] != "2024-03"[6];
  }

  /** The March rollup of that store takes the income of March 1 and the expense of
      March 15, counts both days as worked, and ignores April 1. */
  lemma MarchRollup()
    ensures SetTally(MarchStore(), Matching(MarchStore().Keys, "2024-03")) == Tally(50.0, 20.0, 2)
  {
    MarchKeys();
    MarchDays();
    TwoKeyTally(MarchStore(), "2024-03-01", "2024-03-15");
  }

  /** March 1 brings 50 of income and March 15 20 of expenses, each a worked day. */
  lemma MarchDays()
    ensures DayTally(MarchStore(), "2024-03-01") == Tally(50.0, 0.0, 1)
    ensures DayTally(MarchStore(), "2024-03-15") == Tally(0.0, 20.0, 1)
  {
  }

  /** The rollup of two distinct keys adds their two tallies. */
  lemma TwoKeyTally(store: Store, a: string, b: string)
    requires a != b
    ensures SetTally(store, {a, b}) == Plus(DayTally(store, a), DayTally(store, b))
  {
    assert SetTally(store, {a, b} - {a}) == DayTally(store, b) by {
      assert {a, b} - {a} == {b};
      OneKeyTally(store, b);
    }
    SetTallySplit(store, {a, b}, a);
  }

  /** The rollup of a single key is that key's tally. */
  lemma OneKeyTally(store: Store, k: string)
    ensures SetTally(store, {k}) == DayTally(store, k)
  {
    assert SetTally(store, {k} - {k}) == NoTally by {
      assert {k} - {k} == {};
    }
    SetTallySplit(store, {k}, k);
  }

  /** The prefix the monthly scan uses for a date in March 2024 is `"2024-03"`. */
  lemma MarchPrefix()
    ensures MonthPrefix(Date(2024, 3, 20)) == "2024-03"
  {
    KeyOfMarch5();
  }
}
