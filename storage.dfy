/** The browser's `localStorage`, as the two hooks use it: a map from keys to
    stored texts, where each text is described by what `JSON.parse` makes of it
    rather than by its characters. */
module Storage {
  import opened Common
  import opened Types

  /** What a stored text turns into when the application reads it.
      - `Blank`: the empty text, which `if (stored)` treats like a missing key;
      - `UsageRecord`: the object `{count, date}` the usage gate writes;
      - `HistoryList`: the array of entries the history store writes;
      - `Unparsable`: text on which `JSON.parse` throws. */
  datatype StoredValue =
    | Blank
    | UsageRecord(count: int, date: string)
    | HistoryList(entries: seq<HistoryEntry>)
    | Unparsable

  /** A snapshot of the store. When `available` is false (storage disabled or
      access denied) every call on it throws. */
  datatype StoreModel = StoreModel(items: map<string, StoredValue>, available: bool)

  /** `t` differs from `s` at most under `key`. */
  predicate SameExcept(s: StoreModel, t: StoreModel, key: string)
  {
    s.available == t.available && s.items - {key} == t.items - {key}
  }

  /** `localStorage.getItem(key)`. */
  function Get(s: StoreModel, key: string): Completion<Option<StoredValue>>
  {
    if !s.available then Throw
    else if key in s.items then Normal(Some(s.items[key]))
    else Normal(None)
  }

  /** `localStorage.setItem(key, v)`: throws when storage is unavailable, or
      when the text does not fit in what is left of the quota (`fits` is that
      outcome, which depends on sizes the model does not track). Returns
      whether it succeeded, and the new store. */
  function Set(s: StoreModel, key: string, v: StoredValue, fits: bool): (r: (bool, StoreModel))
    ensures SameExcept(s, r.1, key)
    ensures r.0 ==> key in r.1.items && r.1.items[key] == v
    ensures !r.0 ==> r.1 == s
  {
    if s.available && fits then (true, StoreModel(s.items[key := v], true))
    else (false, s)
  }

  /** `localStorage.removeItem(key)`: throws only when storage is
      unavailable. */
  function Remove(s: StoreModel, key: string): (r: (bool, StoreModel))
    ensures SameExcept(s, r.1, key)
    ensures r.0 ==> key !in r.1.items
    ensures !r.0 ==> r.1 == s
  {
    if s.available then (true, StoreModel(s.items - {key}, true))
    else (false, s)
  }

  /** The one store object both hooks share (the global `localStorage`). */
  class Store {
    var items: map<string, StoredValue>
    var available: bool

    constructor (items: map<string, StoredValue>, available: bool)
      ensures this.items == items && this.available == available
    {
      this.items := items;
      this.available := available;
    }

    function Model(): StoreModel
      reads this
    {
      StoreModel(items, available)
    }

    method GetItem(key: string) returns (r: Completion<Option<StoredValue>>)
      ensures r == Get(Model(), key)
    {
      if !available {
        r := Throw;
      } else if key in items {
        r := Normal(Some(items[key]));
      } else {
        r := Normal(None);
      }
    }

    method SetItem(key: string, v: StoredValue, fits: bool) returns (ok: bool)
      modifies this
      ensures (ok, Model()) == Set(old(Model()), key, v, fits)
    {
      ok := available && fits;
      if ok {
        items := items[key := v];
      }
    }

    method RemoveItem(key: string) returns (ok: bool)
      modifies this
      ensures (ok, Model()) == Remove(old(Model()), key)
    {
      ok := available;
      if ok {
        items := items - {key};
      }
    }
  }
}
