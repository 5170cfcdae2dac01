/** The ledger store (`dailyData`): a map from a date key to that business day's
    record, changed only by the copy-on-write updaters of `saveData` and
    `handleDeleteItem`. */
module Ledger {
  import opened Calendar
  import opened DateKeys

  /** One recorded movement. `time` is the display label captured when it was saved. */
  datatype Entry = Entry(id: int, incomeAmount: real, expenseAmount: real, time: string)

  /** All activity of one business day: its two totals and its entries in saving order. */
  datatype DayRecord = DayRecord(income: real, expenses: real, history: seq<Entry>)

  type Store = map<string, DayRecord>

  datatype LedgerError =
    | EmptyFields    // both amounts of a save are zero
    | EntryNotFound  // no entry of the day carries the id to delete

  datatype Result<T> = Ok(value: T) | Err(error: LedgerError)

  /** The record a day has before anything was saved on it. */
  const EmptyDay: DayRecord := DayRecord(0.0, 0.0, [])

  /** `prev[dateKey] || { income: 0, expenses: 0, history: [] }`. */
  function DayOrEmpty(store: Store, key: string): DayRecord {
    if key in store then store[key] else EmptyDay
  }

  /** `history.reduce((acc, item) => acc + item.incomeAmount, 0)`. */
  function SumIncome(h: seq<Entry>): real {
    if h == [] then 0.0 else SumIncome(h[..|h| - 1]) + h[|h| - 1].incomeAmount
  }

  /** `history.reduce((acc, item) => acc + item.expenseAmount, 0)`. */
  function SumExpense(h: seq<Entry>): real {
    if h == [] then 0.0 else SumExpense(h[..|h| - 1]) + h[|h| - 1].expenseAmount
  }

  /** A day's totals are the sums of its entries' amounts. */
  predicate Balanced(day: DayRecord) {
    day.income == SumIncome(day.history) && day.expenses == SumExpense(day.history)
  }

  predicate StoreBalanced(store: Store) {
    forall key :: key in store ==> Balanced(store[key])
  }

  /** Every key of the store is the key `getDateKey` gives for some date. */
  predicate WellKeyed(store: Store) {
    forall key :: key in store ==> ParseKey(key).Some? && DateKey(ParseKey(key).value) == key
  }

  /** `history.find(i => i.id === itemId)` finds something. */
  predicate HasId(h: seq<Entry>, id: int) {
    exists i :: 0 <= i < |h| && h[i].id == id
  }

  /** `history.filter(item => item.id !== itemId)`. */
  function WithoutId(h: seq<Entry>, id: int): seq<Entry> {
    if h == [] then []
    else
      var last := h[|h| - 1];
      WithoutId(h[..|h| - 1], id) + (if last.id == id then [] else [last])
  }

  /** The entries the filter drops: those carrying `id`, in order. */
  function WithId(h: seq<Entry>, id: int): seq<Entry> {
    if h == [] then []
    else
      var last := h[|h| - 1];
      WithId(h[..|h| - 1], id) + (if last.id == id then [last] else [])
  }

  // ---------------------------------------------------------------------------
  // Saving a movement

  /** The `setDailyData` updater of `saveData`: the entry goes to the end of the day's
      history and the day's totals grow by its amounts; a day without a record
      starts from the empty day. */
  function AppendEntry(store: Store, key: string, entry: Entry): (r: Store)
    ensures r.Keys == store.Keys + {key}
    ensures r[key].history == DayOrEmpty(store, key).history + [entry]
    ensures r[key].income == DayOrEmpty(store, key).income + entry.incomeAmount
    ensures r[key].expenses == DayOrEmpty(store, key).expenses + entry.expenseAmount
    ensures forall k :: k in store && k != key ==> r[k] == store[k]
  {
    var day := DayOrEmpty(store, key);
    store[key := DayRecord(day.income + entry.incomeAmount, day.expenses + entry.expenseAmount, day.history + [entry])]
  }

  /** `handlePreSave` followed by a confirmed `saveData` on the selected day: a save
      with both amounts zero is refused and changes nothing; any other appends one
      entry under the selected day's key. */
  function HandlePreSave(store: Store, selected: Date, id: int, cash: real, expense: real, time: string): (r: Result<Store>)
    requires Valid(selected)
    ensures r.Err? <==> cash == 0.0 && expense == 0.0
    ensures r.Err? ==> r.error == EmptyFields
    ensures r.Ok? ==> r.value == AppendEntry(store, DateKey(selected), Entry(id, cash, expense, time))
  {
    if cash == 0.0 && expense == 0.0 then Err(EmptyFields)
    else Ok(AppendEntry(store, DateKey(selected), Entry(id, cash, expense, time)))
  }

  // ---------------------------------------------------------------------------
  // Deleting entries

  /** The `setDailyData` updater of `handleDeleteItem`: every entry of the day that
      carries `id` goes, the others keep their order, and both totals are summed
      afresh over what is left. */
  function RemoveEntries(store: Store, key: string, id: int): (r: Store)
    requires key in store
    ensures r.Keys == store.Keys
    ensures r[key].history == WithoutId(store[key].history, id)
    ensures Balanced(r[key])
    ensures forall k :: k in store && k != key ==> r[k] == store[k]
  {
    var history := WithoutId(store[key].history, id);
    store[key := DayRecord(SumIncome(history), SumExpense(history), history)]
  }

  /** `handleDeleteItem` on the selected day, confirmed: when no entry carries `id`
      the lookup of its time label fails before anything changes; otherwise the
      entries carrying `id` are removed. The day must have a record. */
  function HandleDeleteItem(store: Store, selected: Date, id: int): (r: Result<Store>)
    requires Valid(selected) && DateKey(selected) in store
    ensures r.Err? <==> !HasId(store[DateKey(selected)].history, id)
    ensures r.Err? ==> r.error == EntryNotFound
    ensures r.Ok? ==> r.value == RemoveEntries(store, DateKey(selected), id)
  {
    var key := DateKey(selected);
    if !HasId(store[key].history, id) then Err(EntryNotFound)
    else Ok(RemoveEntries(store, key, id))
  }

  // ---------------------------------------------------------------------------
  // The selected day

  /** `dayNet`: income minus expenses of the selected day; a day without a record
      reads as zero. */
  function DayNet(store: Store, selected: Date): (net: real)
    requires Valid(selected)
    ensures DateKey(selected) !in store ==> net == 0.0
    ensures DateKey(selected) in store ==>
      net == store[DateKey(selected)].income - store[DateKey(selected)].expenses
  {
    var day := DayOrEmpty(store, DateKey(selected));
    day.income - day.expenses
  }

  // ---------------------------------------------------------------------------
  // Sums over histories

  lemma {:induction false} SumConcat(a: seq<Entry>, b: seq<Entry>)
    ensures SumIncome(a + b) == SumIncome(a) + SumIncome(b)
    ensures SumExpense(a + b) == SumExpense(a) + SumExpense(b)
    decreases |b|
  {
    if b == [] {
      assert a + b == a;
    } else {
      var b' := b[..|b| - 1];
      assert (a + b)[..|a + b| - 1] == a + b';
      assert (a + b)[|a + b| - 1] == b[|b| - 1];
      SumConcat(a, b');
    }
  }

  /** Filtering distributes over concatenation: it keeps the order of what it keeps. */
  lemma {:induction false} WithoutIdConcat(a: seq<Entry>, b: seq<Entry>, id: int)
    ensures WithoutId(a + b, id) == WithoutId(a, id) + WithoutId(b, id)
    ensures WithId(a + b, id) == WithId(a, id) + WithId(b, id)
    decreases |b|
  {
    if b == [] {
      assert a + b == a;
    } else {
      var b' := b[..|b| - 1];
      assert (a + b)[..|a + b| - 1] == a + b';
      assert (a + b)[|a + b| - 1] == b[|b| - 1];
      WithoutIdConcat(a, b', id);
    }
  }

  /** Filtering a history in which no entry carries `id` changes nothing. */
  lemma {:induction false} WithoutAbsentId(h: seq<Entry>, id: int)
    requires !HasId(h, id)
    ensures WithoutId(h, id) == h
    ensures WithId(h, id) == []
  {
    if h != [] {
      var h' := h[..|h| - 1];
      WithoutAbsentId(h', id);
    }
  }

  /** The filter keeps exactly the entries that do not carry `id`. */
  lemma {:induction false} WithoutIdMembers(h: seq<Entry>, id: int)
    ensures forall e :: e in WithoutId(h, id) <==> e in h && e.id != id
  {
    if h != [] {
      var h' := h[..|h| - 1];
      WithoutIdMembers(h', id);
      assert h == h' + [h[|h| - 1]];
    }
  }

  /** A history's sums split into the sums of what the filter keeps and what it drops. */
  lemma {:induction false} SumSplitById(h: seq<Entry>, id: int)
    ensures SumIncome(h) == SumIncome(WithoutId(h, id)) + SumIncome(WithId(h, id))
    ensures SumExpense(h) == SumExpense(WithoutId(h, id)) + SumExpense(WithId(h, id))
  {
    if h != [] {
      var h' := h[..|h| - 1];
      var last := h[|h| - 1];
      SumSplitById(h', id);
      assert SumIncome([last]) == last.incomeAmount && SumExpense([last]) == last.expenseAmount by {
        assert [last][..0] == [];
      }
      if last.id == id {
        assert WithoutId(h, id) == WithoutId(h', id) + [] == WithoutId(h', id);
        assert WithId(h, id) == WithId(h', id) + [last];
        SumConcat(WithId(h', id), [last]);
      } else {
        assert WithoutId(h, id) == WithoutId(h', id) + [last];
        assert WithId(h, id) == WithId(h', id) + [] == WithId(h', id);
        SumConcat(WithoutId(h', id), [last]);
      }
    }
  }

  // ---------------------------------------------------------------------------
  // The balance invariant

  /** Saving keeps every day's totals equal to the sums over its history. */
  lemma AppendKeepsBalance(store: Store, key: string, entry: Entry)
    requires StoreBalanced(store)
    ensures StoreBalanced(AppendEntry(store, key, entry))
  {
    SumConcat(DayOrEmpty(store, key).history, [entry]);
  }

  /** Deleting keeps every day's totals equal to the sums over its history. */
  lemma RemoveKeepsBalance(store: Store, key: string, id: int)
    requires key in store && StoreBalanced(store)
    ensures StoreBalanced(RemoveEntries(store, key, id))
  {
  }

  /** On a balanced day, deleting lowers each total by exactly the amounts of the
      removed entries. */
  lemma RemoveSubtractsRemoved(store: Store, key: string, id: int)
    requires key in store && Balanced(store[key])
    ensures var h := store[key].history; var r := RemoveEntries(store, key, id);
      r[key].income == store[key].income - SumIncome(WithId(h, id)) &&
      r[key].expenses == store[key].expenses - SumExpense(WithId(h, id))
  {
    SumSplitById(store[key].history, id);
  }

  /** Deleting the id of an entry just saved undoes the save, when no earlier entry
      of that day carries the id and the day was balanced: the store is as before,
      except that a day that had no record now has the empty one. */
  lemma AppendThenRemove(store: Store, key: string, entry: Entry)
    requires key in store ==> Balanced(store[key]) && !HasId(store[key].history, entry.id)
    ensures RemoveEntries(AppendEntry(store, key, entry), key, entry.id) == store[key := DayOrEmpty(store, key)]
  {
    var h := DayOrEmpty(store, key).history;
    WithoutIdConcat(h, [entry], entry.id);
    assert WithoutId([entry], entry.id) == [] by {
      assert [entry][..0] == [];
    }
    WithoutAbsentId(h, entry.id);
    assert WithoutId(h + [entry], entry.id) == h + [];
    assert h + [] == h;
  }

  /** Saving 100 income and 30 expenses on a fresh day and then deleting that entry
      leaves the day at `{0, 0, []}`. */
  lemma SaveThenDeleteOnFreshDay(store: Store, selected: Date, id: int, time: string)
    requires Valid(selected) && DateKey(selected) !in store
    ensures var saved := HandlePreSave(store, selected, id, 100.0, 30.0, time);
      saved.Ok? && HandleDeleteItem(saved.value, selected, id) == Ok(store[DateKey(selected) := EmptyDay])
  {
    var key := DateKey(selected);
    var saved := AppendEntry(store, key, Entry(id, 100.0, 30.0, time));
    assert saved[key].history[0].id == id;
    AppendThenRemove(store, key, Entry(id, 100.0, 30.0, time));
  }

  /** A save on the selected day keeps the store balanced and keyed by dates, and
      moves that day's net by exactly the income minus the expense saved. */
  lemma PreSaveKeepsInvariants(store: Store, selected: Date, id: int, cash: real, expense: real, time: string)
    requires Valid(selected) && StoreBalanced(store) && WellKeyed(store)
    ensures var r := HandlePreSave(store, selected, id, cash, expense, time);
      r.Ok? ==> StoreBalanced(r.value) && WellKeyed(r.value) &&
                DayNet(r.value, selected) == DayNet(store, selected) + cash - expense
  {
    AppendKeepsBalance(store, DateKey(selected), Entry(id, cash, expense, time));
  }

  /** On a balanced store a day's net is the net of its history. */
  lemma DayNetOfHistory(store: Store, selected: Date)
    requires Valid(selected) && StoreBalanced(store)
    ensures var h := DayOrEmpty(store, DateKey(selected)).history;
      DayNet(store, selected) == SumIncome(h) - SumExpense(h)
  {
  }
}
