/** The daily usage gate (hooks/useUsageTracker.ts): a counter of today's
    generations kept under one storage key, and an in-memory copy of it that
    decides whether the limit is reached. */
module Usage {
  import opened Common
  import opened Storage

  /** Generations allowed per calendar day (hooks/useUsageTracker.ts:3). */
  const USAGE_LIMIT: int := 5

  /** The only key the gate touches (hooks/useUsageTracker.ts:4). */
  const USAGE_KEY: string := "mvp-generator-usage"

  /** The gate's state: the hook's `usageCount` and the store it reads. */
  datatype UsageState = UsageState(usageCount: int, store: StoreModel)

  /** Today's count as the stored record states it: the record's count when
      it is dated today, and zero in every other case. `today` is the text
      `new Date().toDateString()` gives, taken as an input. */
  function TodaysCount(s: StoreModel, today: string): int
  {
    if USAGE_KEY in s.items && s.items[USAGE_KEY].UsageRecord? && s.items[USAGE_KEY].date == today
    then s.items[USAGE_KEY].count
    else 0
  }

  /** The usage key holds nothing a read would purge: it is missing, blank,
      or a record dated today. */
  predicate Settled(s: StoreModel, today: string)
  {
    USAGE_KEY !in s.items
    || s.items[USAGE_KEY].Blank?
    || (s.items[USAGE_KEY].UsageRecord? && s.items[USAGE_KEY].date == today)
  }

  /** `getUsageCount` (hooks/useUsageTracker.ts:12-31), branch by branch:
      getItem throwing sends it to the `catch`, whose removeItem then throws
      too and escapes; a missing or blank text returns 0; a record with
      another date is removed and gives 0; a record dated today gives its
      count; an unparsable text (the `catch`), or a parsed value without a
      date (the date check), is removed and gives 0.
      Its meaning: it returns today's count, keeps a settled key as it is,
      purges anything else, and touches no other key. */
  function ReadUsage(s: StoreModel, today: string): (r: (Completion<int>, StoreModel))
    ensures SameExcept(s, r.1, USAGE_KEY)
    ensures !s.available ==> r == (Throw, s)
    ensures s.available ==> r.0 == Normal(TodaysCount(s, today))
    ensures s.available ==> Settled(r.1, today)
    ensures Settled(s, today) ==> r.1 == s
    ensures s.available && !Settled(s, today) ==> USAGE_KEY !in r.1.items
  {
    var got := Get(s, USAGE_KEY);
    if got.Throw? then
      var (removed, s1) := Remove(s, USAGE_KEY);
      if removed then (Normal(0), s1) else (Throw, s1)
    else if got.value.None? then
      (Normal(0), s)
    else match got.value.value
      case Blank => (Normal(0), s)
      case UsageRecord(count, date) =>
        if date != today then
          var (_, s1) := Remove(s, USAGE_KEY);
          (Normal(0), s1)
        else
          (Normal(count), s)
      case HistoryList(_) =>
        var (_, s1) := Remove(s, USAGE_KEY);
        (Normal(0), s1)
      case Unparsable =>
        var (_, s1) := Remove(s, USAGE_KEY);
        (Normal(0), s1)
  }

  /** `isLimitReached` (hooks/useUsageTracker.ts:39): it compares the
      in-memory count, not the store, with the limit. */
  predicate IsLimitReached(u: UsageState)
  {
    u.usageCount >= USAGE_LIMIT
  }

  /** The mount effect (hooks/useUsageTracker.ts:35-37): the in-memory count
      becomes the count read from the store. If the read throws, the effect
      throws and nothing changes. */
  function MountEffect(u: UsageState, today: string): (r: (Completion<()>, UsageState))
    ensures SameExcept(u.store, r.1.store, USAGE_KEY)
    ensures r.0.Throw? <==> !u.store.available
    ensures r.0.Throw? ==> r.1 == u
    ensures r.0.Normal? ==> r.1.usageCount == TodaysCount(u.store, today) && Settled(r.1.store, today)
    ensures r.0.Normal? ==> r.1.store == ReadUsage(u.store, today).1
  {
    var (read, s1) := ReadUsage(u.store, today);
    if read.Throw? then (Throw, u)
    else (Normal(()), UsageState(read.value, s1))
  }

  /** `incrementUsage` (hooks/useUsageTracker.ts:41-52): re-read the store
      (purging a stale record), then write `{count: read + 1, date: today}` and
      copy the new count into memory, both inside one `try`. The read sits
      outside that `try`, so a throwing read escapes; a failed write leaves
      memory as it was. */
  function Increment(u: UsageState, today: string, fits: bool): (r: (Completion<()>, UsageState))
    ensures SameExcept(u.store, r.1.store, USAGE_KEY)
    ensures r.0.Throw? <==> !u.store.available
    ensures r.0.Throw? ==> r.1 == u
    ensures r.0.Normal? && fits ==>
      && r.1.usageCount == TodaysCount(u.store, today) + 1
      && USAGE_KEY in r.1.store.items
      && r.1.store.items[USAGE_KEY] == UsageRecord(r.1.usageCount, today)
    ensures r.0.Normal? && !fits ==>
      r.1.usageCount == u.usageCount && r.1.store == ReadUsage(u.store, today).1
  {
    var (read, s1) := ReadUsage(u.store, today);
    if read.Throw? then (Throw, u)
    else
      var newCount := read.value + 1;
      var (written, s2) := Set(s1, USAGE_KEY, UsageRecord(newCount, today), fits);
      (Normal(()), UsageState(if written then newCount else u.usageCount, s2))
  }

  /** Memory and store agree on today's count. */
  predicate InSync(u: UsageState, today: string)
  {
    u.store.available && u.usageCount == TodaysCount(u.store, today)
  }

  /** After mounting on a working store, memory agrees with the store. */
  lemma MountSyncs(u: UsageState, today: string)
    requires u.store.available
    ensures MountEffect(u, today).0.Normal? && InSync(MountEffect(u, today).1, today)
  {
    var r := MountEffect(u, today);
    assert Settled(r.1.store, today);
    assert TodaysCount(r.1.store, today) == TodaysCount(u.store, today);
  }

  /** A successful increment keeps memory and store in agreement and adds
      exactly one to the count. */
  lemma IncrementKeepsSync(u: UsageState, today: string)
    requires InSync(u, today)
    ensures var r := Increment(u, today, true);
      r.0.Normal? && InSync(r.1, today) && r.1.usageCount == u.usageCount + 1
  {
  }

  /** After a stale or malformed record, a successful increment starts the
      day over: the count becomes 1, stored with today's date. */
  lemma IncrementAfterPurge(u: UsageState, today: string)
    requires u.store.available && USAGE_KEY in u.store.items
    requires !(u.store.items[USAGE_KEY].UsageRecord? && u.store.items[USAGE_KEY].date == today)
    ensures var r := Increment(u, today, true).1;
      r.usageCount == 1 && USAGE_KEY in r.store.items && r.store.items[USAGE_KEY] == UsageRecord(1, today)
  {
  }

  /** Once in agreement, the gate closes exactly when today's stored count
      reaches the limit. */
  lemma GateFollowsStoreWhenInSync(u: UsageState, today: string)
    requires InSync(u, today)
    ensures IsLimitReached(u) <==> TodaysCount(u.store, today) >= USAGE_LIMIT
  {
  }

  /** The date rollover: with yesterday's record at the limit, or at any
      count, mounting today leaves the gate open, purges the record, and the
      next successful increment counts 1. */
  lemma RolloverOnMount(count: int, yesterday: string, today: string)
    requires yesterday != today
    ensures var u := UsageState(0, StoreModel(map[USAGE_KEY := UsageRecord(count, yesterday)], true));
      var m := MountEffect(u, today).1;
      && !IsLimitReached(m)
      && USAGE_KEY !in m.store.items
      && Increment(m, today, true).1.usageCount == 1
  {
    var u := UsageState(0, StoreModel(map[USAGE_KEY := UsageRecord(count, yesterday)], true));
    assert !Settled(u.store, today);
  }

  /** Because the gate reads memory, a session left open across midnight
      stays closed: the stored record is yesterday's, so today's count is 0,
      but the in-memory count still holds yesterday's total until the next
      mount. */
  lemma StaleMemoryAcrossMidnight()
    ensures var u := UsageState(5, StoreModel(map[USAGE_KEY := UsageRecord(5, "Tue Oct 13 2026")], true));
      && InSync(u, "Tue Oct 13 2026")
      && IsLimitReached(u)
      && TodaysCount(u.store, "Wed Oct 14 2026") == 0
  {
  }

  /** The hook's state object; the store is passed in, as the hook reaches
      the one global `localStorage`. */
  class UsageTracker {
    var usageCount: int

    /** `useState<number>(0)` (hooks/useUsageTracker.ts:33). */
    constructor ()
      ensures usageCount == 0
    {
      usageCount := 0;
    }

    function State(store: Store): UsageState
      reads this, store
    {
      UsageState(usageCount, store.Model())
    }

    /** `getUsageCount`, as the code runs it. */
    method GetUsageCount(store: Store, today: string) returns (r: Completion<int>)
      modifies store
      ensures (r, store.Model()) == ReadUsage(old(store.Model()), today)
    {
      var got := store.GetItem(USAGE_KEY);
      if got.Throw? {
        // catch: purge the bad record; on an unavailable store this throws too
        var removed := store.RemoveItem(USAGE_KEY);
        if !removed {
          return Throw;
        }
        return Normal(0);
      }
      var stored := got.value;
      if stored.None? {
        return Normal(0);
      }
      match stored.value {
        case Blank =>
          // `if (storedUsage)` is false for the empty text
          return Normal(0);
        case UsageRecord(count, date) =>
          if date != today {
            var _ := store.RemoveItem(USAGE_KEY);
            return Normal(0);
          }
          return Normal(count);
        case HistoryList(_) =>
          // parses, but has no `date`, so the date check fails
          var _ := store.RemoveItem(USAGE_KEY);
          return Normal(0);
        case Unparsable =>
          // `JSON.parse` throws: the catch purges the record
          var _ := store.RemoveItem(USAGE_KEY);
          return Normal(0);
      }
    }

    /** The mount effect. */
    method Mount(store: Store, today: string) returns (c: Completion<()>)
      modifies this, store
      ensures (c, State(store)) == MountEffect(old(State(store)), today)
    {
      var read := GetUsageCount(store, today);
      if read.Throw? {
        return Throw;
      }
      usageCount := read.value;
      return Normal(());
    }

    /** `incrementUsage`. */
    method IncrementUsage(store: Store, today: string, fits: bool) returns (c: Completion<()>)
      modifies this, store
      ensures (c, State(store)) == Increment(old(State(store)), today, fits)
    {
      var current := GetUsageCount(store, today);
      if current.Throw? {
        return Throw;
      }
      var newCount := current.value + 1;
      var written := store.SetItem(USAGE_KEY, UsageRecord(newCount, today), fits);
      if written {
        usageCount := newCount;
      }
      return Normal(());
    }
  }
}
