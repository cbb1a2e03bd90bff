/** The history store (hooks/useHistory.ts): the list of past generations,
    most recent first, kept in memory and mirrored, on a best-effort basis, to
    one storage key. */
module History {
  import opened Common
  import opened Types
  import opened Storage

  /** The only key the store touches (hooks/useHistory.ts:4). */
  const HISTORY_KEY: string := "mvp-generator-history"

  /** The hook's `history` state and the store it mirrors to. */
  datatype HistoryState = HistoryState(history: seq<HistoryEntry>, store: StoreModel)

  /** The store holds exactly the in-memory list. */
  predicate Persisted(h: HistoryState)
  {
    HISTORY_KEY in h.store.items && h.store.items[HISTORY_KEY] == HistoryList(h.history)
  }

  /** A non-empty text that does not read as a list of entries. */
  predicate Malformed(v: StoredValue)
  {
    v.Unparsable? || v.UsageRecord?
  }

  /** The mount effect (hooks/useHistory.ts:9-19). A missing or blank text
      leaves the list alone; a parsed list replaces it; an unparsable text is
      caught and purged, the list left alone. When getItem throws, the
      `catch`'s removeItem throws as well and escapes the effect. */
  function LoadEffect(h: HistoryState): (r: (Completion<()>, HistoryState))
    ensures SameExcept(h.store, r.1.store, HISTORY_KEY)
    ensures r.0.Throw? <==> !h.store.available
    ensures r.0.Throw? ==> r.1 == h
    ensures h.store.available && HISTORY_KEY in h.store.items && h.store.items[HISTORY_KEY].HistoryList? ==>
      r.1 == HistoryState(h.store.items[HISTORY_KEY].entries, h.store) && Persisted(r.1)
    ensures h.store.available && (HISTORY_KEY !in h.store.items || h.store.items[HISTORY_KEY].Blank?) ==>
      r.1 == h
    ensures h.store.available && HISTORY_KEY in h.store.items && Malformed(h.store.items[HISTORY_KEY]) ==>
      r.1.history == h.history && HISTORY_KEY !in r.1.store.items
  {
    var got := Get(h.store, HISTORY_KEY);
    if got.Throw? then
      var (removed, s1) := Remove(h.store, HISTORY_KEY);
      if removed then (Normal(()), HistoryState(h.history, s1)) else (Throw, h)
    else if got.value.None? then
      (Normal(()), h)
    else match got.value.value
      case Blank => (Normal(()), h)
      case HistoryList(entries) => (Normal(()), HistoryState(entries, h.store))
      case UsageRecord(_, _) =>
        var (_, s1) := Remove(h.store, HISTORY_KEY);
        (Normal(()), HistoryState(h.history, s1))
      case Unparsable =>
        var (_, s1) := Remove(h.store, HISTORY_KEY);
        (Normal(()), HistoryState(h.history, s1))
  }

  /** `addHistoryEntry` (hooks/useHistory.ts:21-38) with the fresh id and the
      timestamp as inputs: the new entry goes in front of the list, which then
      keeps every old entry, unchanged and in order. The full new list is
      written; when the write fails the list in memory is still updated and
      the store keeps what it had. */
  function AddEntry(h: HistoryState, plan: MVPPlan, content: LandingPageContent, id: string,
                    createdAt: string, fits: bool): (r: HistoryState)
    ensures |r.history| == |h.history| + 1
    ensures r.history[0] == HistoryEntry(id, plan, content, createdAt)
    ensures r.history[1..] == h.history
    ensures SameExcept(h.store, r.store, HISTORY_KEY)
    ensures h.store.available && fits ==> Persisted(r)
    ensures !(h.store.available && fits) ==> r.store == h.store
  {
    var entry := HistoryEntry(id, plan, content, createdAt);
    var updated := [entry] + h.history;
    var (_, s1) := Set(h.store, HISTORY_KEY, HistoryList(updated), fits);
    HistoryState(updated, s1)
  }

  /** `clearHistory` (hooks/useHistory.ts:40-47): the list in memory becomes
      empty even when removing the key fails. */
  function ClearEffect(h: HistoryState): (r: HistoryState)
    ensures r.history == []
    ensures SameExcept(h.store, r.store, HISTORY_KEY)
    ensures h.store.available ==> HISTORY_KEY !in r.store.items
    ensures !h.store.available ==> r.store == h.store
  {
    var (_, s1) := Remove(h.store, HISTORY_KEY);
    HistoryState([], s1)
  }

  /** What a fresh page load would show: the mount effect run on an empty
      list over the same store. */
  function Reload(h: HistoryState): HistoryState
  {
    LoadEffect(HistoryState([], h.store)).1
  }

  /** Write then read back: after a successful add, a reload gives the same
      list, entry for entry. */
  lemma ReloadAfterAdd(h: HistoryState, plan: MVPPlan, content: LandingPageContent, id: string, createdAt: string)
    requires h.store.available
    ensures var r := AddEntry(h, plan, content, id, createdAt, true);
      Reload(r) == r
  {
  }

  /** A failed write is not reconciled: a reload gives back what the store
      held before the add, not what memory holds. */
  lemma ReloadAfterFailedAdd(h: HistoryState, plan: MVPPlan, content: LandingPageContent, id: string, createdAt: string)
    requires h.store.available && Persisted(h)
    ensures var r := AddEntry(h, plan, content, id, createdAt, false);
      Reload(r).history == h.history && r.history != h.history
  {
    var r := AddEntry(h, plan, content, id, createdAt, false);
    assert |r.history| != |h.history|;
  }

  /** After a clear on a working store a reload shows no history. */
  lemma ReloadAfterClear(h: HistoryState)
    requires h.store.available
    ensures Reload(ClearEffect(h)) == HistoryState([], ClearEffect(h).store)
    ensures HISTORY_KEY !in Reload(ClearEffect(h)).store.items
  {
  }

  /** A malformed stored list on mount: no crash, the list stays empty and
      the bad text is gone. */
  lemma LoadMalformed(s: StoreModel)
    requires s.available && HISTORY_KEY in s.items && s.items[HISTORY_KEY] == Unparsable
    ensures LoadEffect(HistoryState([], s)) == (Normal(()), HistoryState([], s.(items := s.items - {HISTORY_KEY})))
  {
  }

  /** The hook's state object; the store is passed in, as the hook reaches
      the one global `localStorage`. */
  class HistoryStore {
    var history: seq<HistoryEntry>

    /** `useState<HistoryEntry[]>([])` (hooks/useHistory.ts:7). */
    constructor ()
      ensures history == []
    {
      history := [];
    }

    function State(store: Store): HistoryState
      reads this, store
    {
      HistoryState(history, store.Model())
    }

    /** The mount effect. */
    method Load(store: Store) returns (c: Completion<()>)
      modifies this, store
      ensures (c, State(store)) == LoadEffect(old(State(store)))
    {
      var got := store.GetItem(HISTORY_KEY);
      if got.Throw? {
        // catch: purge the key; on an unavailable store this throws too
        var removed := store.RemoveItem(HISTORY_KEY);
        if !removed {
          return Throw;
        }
        return Normal(());
      }
      if got.value.None? {
        return Normal(());
      }
      match got.value.value {
        case Blank =>
          // `if (storedHistory)` is false for the empty text
          return Normal(());
        case HistoryList(entries) =>
          history := entries;
          return Normal(());
        case UsageRecord(_, _) =>
          // not a list of entries: treated like an unparsable text
          var _ := store.RemoveItem(HISTORY_KEY);
          return Normal(());
        case Unparsable =>
          // `JSON.parse` throws: the catch purges the key
          var _ := store.RemoveItem(HISTORY_KEY);
          return Normal(());
      }
    }

    /** `addHistoryEntry`. */
    method AddHistoryEntry(store: Store, plan: MVPPlan, content: LandingPageContent, id: string,
                           createdAt: string, fits: bool)
      modifies this, store
      ensures State(store) == AddEntry(old(State(store)), plan, content, id, createdAt, fits)
    {
      var newEntry := HistoryEntry(id, plan, content, createdAt);
      var updated := [newEntry] + history;
      var _ := store.SetItem(HISTORY_KEY, HistoryList(updated), fits);
      history := updated;
    }

    /** `clearHistory`. */
    method ClearHistory(store: Store)
      modifies this, store
      ensures State(store) == ClearEffect(old(State(store)))
    {
      history := [];
      var _ := store.RemoveItem(HISTORY_KEY);
    }
  }
}
