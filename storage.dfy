/** The storage helpers of scripts/storage.js over an abstract key-value store
    (`chrome.storage.local`): default filling, append/update of stored lists,
    the rolling error log and the tier-based clipboard trim. Stored values are
    modelled as JSON values. */
module Storage {
  import opened Lists
  import opened Records

  /** A stored JSON value. Numbers are integers here (timestamps and flags). */
  datatype Json = JNull | JBool(b: bool) | JNum(n: int) | JStr(s: string)
                | JArr(items: seq<Json>) | JObj(fields: map<string, Json>)

  /** JavaScript truthiness. */
  predicate Truthy(v: Json)
  {
    match v
    case JNull => false
    case JBool(b) => b
    case JNum(n) => n != 0
    case JStr(s) => s != ""
    case JArr(_) => true
    case JObj(_) => true
  }

  const SCREENSHOTS := "screenshots"
  const HIGHLIGHTS := "highlights"
  const NOTES := "notes"
  const CLIPBOARD := "clipboard"
  const TODO := "todos"
  const PREFS := "preferences"
  const LICENSE := "licenseCache"
  const ERRORS := "errorLogs"

  function JsonPreferences(): Json
  {
    JObj(map["darkMode" := JObj(map["global" := JBool(false), "overrides" := JObj(map[])]),
             "developerMode" := JBool(false),
             "testMode" := JObj(map["enabled" := JBool(false), "forcePro" := JBool(false)])])
  }

  /** DEFAULT_STORAGE, in `Object.entries` order. */
  function DefaultEntries(): seq<(string, Json)>
  {
    [(SCREENSHOTS, JArr([])), (HIGHLIGHTS, JArr([])), (NOTES, JObj(map[])), (CLIPBOARD, JArr([])),
     (TODO, JArr([])), (PREFS, JsonPreferences()),
     (LICENSE, JObj(map["lastChecked" := JNum(0), "isPro" := JBool(false), "source" := JStr("unknown")])),
     (ERRORS, JArr([]))]
  }

  /** The object an entry list describes; a later entry for the same key wins. */
  function EntriesToMap(es: seq<(string, Json)>): map<string, Json>
  {
    if es == [] then map[] else EntriesToMap(es[..|es| - 1])[es[|es| - 1].0 := es[|es| - 1].1]
  }

  function DefaultStorage(): map<string, Json>
  {
    EntriesToMap(DefaultEntries())
  }

  /** `current` with every key of `defaults` it lacks added, and every key it has kept. */
  function FillMissing(current: map<string, Json>, defaults: map<string, Json>): (r: map<string, Json>)
    ensures r.Keys == current.Keys + defaults.Keys
    ensures forall k :: k in current ==> r[k] == current[k]
    ensures forall k :: k in defaults && k !in current ==> r[k] == defaults[k]
  {
    map k | k in current.Keys + defaults.Keys :: if k in current then current[k] else defaults[k]
  }

  /** The store after `ensureDefaults`. */
  function WithDefaults(current: map<string, Json>): (r: map<string, Json>)
    ensures r.Keys == current.Keys + DefaultStorage().Keys
    ensures forall k :: k in current ==> r[k] == current[k]
    ensures forall k :: k in DefaultStorage() && k !in current ==> r[k] == DefaultStorage()[k]
  {
    FillMissing(current, DefaultStorage())
  }

  /** Adding the defaults missing from `m` to `m` is filling them in. */
  lemma AddingMissingFills(m: map<string, Json>, d: map<string, Json>, updates: map<string, Json>)
    requires updates.Keys == d.Keys - m.Keys
    requires forall k :: k in updates ==> updates[k] == d[k]
    ensures m + updates == FillMissing(m, d)
  {
    var f := FillMissing(m, d);
    var u := m + updates;
    assert u.Keys == f.Keys;
    forall k | k in f
      ensures u[k] == f[k]
    {
    }
  }

  /** When no default is missing, the store already holds them all. */
  lemma NothingMissingIsFilled(m: map<string, Json>, d: map<string, Json>)
    requires d.Keys <= m.Keys
    ensures m == FillMissing(m, d)
  {
    var f := FillMissing(m, d);
    assert m.Keys == f.Keys;
  }

  /** Filling defaults twice is the same as filling them once. */
  lemma FillMissingIdempotent(m: map<string, Json>, d: map<string, Json>)
    ensures FillMissing(FillMissing(m, d), d) == FillMissing(m, d)
  {
  }

  /** The loop of `ensureDefaults`: the defaults whose key is absent from the store. */
  method MissingDefaults(current: map<string, Json>) returns (updates: map<string, Json>)
    ensures updates.Keys == DefaultStorage().Keys - current.Keys
    ensures forall k :: k in updates ==> updates[k] == DefaultStorage()[k]
  {
    var entries := DefaultEntries();
    updates := map[];
    var i := 0;
    while i < |entries|
      invariant 0 <= i <= |entries|
      invariant updates.Keys == EntriesToMap(entries[..i]).Keys - current.Keys
      invariant forall k :: k in updates ==> updates[k] == EntriesToMap(entries[..i])[k]
    {
      var (key, value) := entries[i];
      assert entries[..i + 1][..i] == entries[..i];
      if key !in current {
        updates := updates[key := value];
      }
      i := i + 1;
    }
    assert entries[..i] == entries;
  }

  /** The list a stored value stands for, as `(value) || []` is used before an
      array method: a missing or falsy value is `[]`; a truthy non-array value
      has no such method, and the call throws (`None`). */
  function StoredList(data: map<string, Json>, key: string): (r: Option<seq<Json>>)
    ensures key !in data || !Truthy(data[key]) ==> r == Some([])
    ensures key in data && data[key].JArr? ==> r == Some(data[key].items)
    ensures r.None? <==> key in data && Truthy(data[key]) && !data[key].JArr?
  {
    if key !in data || !Truthy(data[key]) then Some([])
    else if data[key].JArr? then Some(data[key].items)
    else None
  }

  /** What `logError` receives as `error`: a string, an object with an optional `message`, or nothing. */
  datatype ErrorValue = ErrString(s: string) | ErrObject(message: Option<string>) | ErrMissing

  /** `typeof error === 'string' ? error : error?.message || 'Unknown error'`. */
  function ErrorMessage(e: ErrorValue): (m: string)
    ensures e.ErrString? ==> m == e.s
    ensures e.ErrObject? && e.message.Some? && e.message.value != "" ==> m == e.message.value
    ensures !(e.ErrString? || (e.ErrObject? && e.message.Some? && e.message.value != "")) ==> m == "Unknown error"
    ensures m == "" ==> e == ErrString("")
  {
    match e
    case ErrString(s) => s
    case ErrObject(Some(msg)) => if msg != "" then msg else "Unknown error"
    case _ => "Unknown error"
  }

  /** `{ scope, message, context, timestamp }`: exactly these four fields. */
  function ErrorEntry(scope: string, e: ErrorValue, context: Json, timestamp: string): (r: Json)
    ensures r.JObj? && r.fields.Keys == {"scope", "message", "context", "timestamp"}
    ensures r.fields["scope"] == JStr(scope) && r.fields["message"] == JStr(ErrorMessage(e))
    ensures r.fields["context"] == context && r.fields["timestamp"] == JStr(timestamp)
  {
    JObj(map["scope" := JStr(scope), "message" := JStr(ErrorMessage(e)), "context" := context,
             "timestamp" := JStr(timestamp)])
  }

  /** The rolling log: the last MAX_ERROR_LOGS - 1 prior entries, then the new one. */
  function RollLog(log: seq<Json>, entry: Json): (r: seq<Json>)
    ensures 1 <= |r| <= MAX_ERROR_LOGS && r[|r| - 1] == entry
    ensures r[..|r| - 1] == Last(log, MAX_ERROR_LOGS - 1)
    ensures |log| < MAX_ERROR_LOGS ==> r == log + [entry]
  {
    Last(log, MAX_ERROR_LOGS - 1) + [entry]
  }

  /** `enforceClipboardLimit`'s updater on the free tier: the first 20 items, pinned or not. */
  function FreeClipboardTrim(items: seq<Json>): (r: seq<Json>)
    ensures |items| <= BASE_FREE_CLIPBOARD_LIMIT ==> r == items
    ensures |items| > BASE_FREE_CLIPBOARD_LIMIT ==> r == items[..BASE_FREE_CLIPBOARD_LIMIT]
  {
    Take(items, BASE_FREE_CLIPBOARD_LIMIT)
  }

  /** The store (`chrome.storage.local`) and the helpers that read-modify-write it. */
  class Store {
    var data: map<string, Json>

    constructor (initial: map<string, Json>)
      ensures data == initial
    {
      data := initial;
    }

    /** `StorageAPI.get(key)`: `None` is `undefined`. */
    function Get(key: string): (r: Option<Json>)
      reads this
      ensures r.Some? <==> key in data
      ensures r.Some? ==> r.value == data[key]
    {
      if key in data then Some(data[key]) else None
    }

    /** `StorageAPI.set(updates)`. */
    method Set(updates: map<string, Json>)
      modifies this
      ensures data == old(data) + updates
    {
      data := data + updates;
    }

    /** `ensureDefaults`. */
    method EnsureDefaults()
      modifies this
      ensures data == WithDefaults(old(data))
    {
      var updates := MissingDefaults(data);
      AddingMissingFills(data, DefaultStorage(), updates);
      if |updates| == 0 {
        assert forall k :: k in DefaultStorage() && k !in data ==> k in updates;
        NothingMissingIsFilled(data, DefaultStorage());
      }
      if |updates| > 0 {
        data := data + updates;
      }
    }

    /** `StorageAPI.clear`: empty the store, then fill the defaults. */
    method Clear()
      modifies this
      ensures data == DefaultStorage()
    {
      data := map[];
      EnsureDefaults();
    }

    /** `StorageAPI.appendArray(key, entry, { limit })`; `limit == 0` is "no limit".
        `None` is the exception thrown when the stored value is not a list. */
    method AppendArray(key: string, entry: Json, limit: nat) returns (r: Option<seq<Json>>)
      modifies this
      ensures StoredList(old(data), key).None? ==> r.None? && data == old(data)
      ensures StoredList(old(data), key).Some? ==>
                r == Some(PushFront(entry, StoredList(old(data), key).value, limit))
                && data == old(data)[key := JArr(r.value)]
    {
      var list := StoredList(data, key);
      if list.None? {
        return None;
      }
      var next := PushFront(entry, list.value, limit);
      Set(map[key := JArr(next)]);
      r := Some(next);
    }

    /** `StorageAPI.updateArray(key, updater)`: stores exactly what the updater
        returns for a copy of the current list. */
    method UpdateArray(key: string, updater: seq<Json> -> seq<Json>) returns (r: Option<seq<Json>>)
      modifies this
      ensures StoredList(old(data), key).None? ==> r.None? && data == old(data)
      ensures StoredList(old(data), key).Some? ==>
                r == Some(updater(StoredList(old(data), key).value))
                && data == old(data)[key := JArr(r.value)]
    {
      var list := StoredList(data, key);
      if list.None? {
        return None;
      }
      var next := updater(list.value);
      Set(map[key := JArr(next)]);
      r := Some(next);
    }

    /** `logError(scope, error, context)`, with the ISO timestamp as a parameter. */
    method LogError(scope: string, error: ErrorValue, context: Json, timestamp: string) returns (r: Option<Json>)
      modifies this
      ensures StoredList(old(data), ERRORS).None? ==> r.None? && data == old(data)
      ensures StoredList(old(data), ERRORS).Some? ==>
                r == Some(ErrorEntry(scope, error, context, timestamp))
                && data == old(data)[ERRORS := JArr(RollLog(StoredList(old(data), ERRORS).value, r.value))]
    {
      var entry := ErrorEntry(scope, error, context, timestamp);
      var list := StoredList(data, ERRORS);
      if list.None? {
        return None;
      }
      var next := RollLog(list.value, entry);
      data := data[ERRORS := JArr(next)];
      r := Some(entry);
    }

    /** `enforceClipboardLimit(isPro)`: pro changes nothing; free keeps the first 20 items. */
    method EnforceClipboardLimit(isPro: bool)
      modifies this
      ensures isPro ==> data == old(data)
      ensures !isPro && StoredList(old(data), CLIPBOARD).None? ==> data == old(data)
      ensures !isPro && StoredList(old(data), CLIPBOARD).Some? ==>
                data == old(data)[CLIPBOARD := JArr(FreeClipboardTrim(StoredList(old(data), CLIPBOARD).value))]
    {
      if isPro {
        return;
      }
      var _ := UpdateArray(CLIPBOARD, FreeClipboardTrim);
    }
  }

  /** After `clear`, every default key holds its default value and nothing else is stored. */
  lemma ClearedStoreHasDefaultsOnly()
    ensures WithDefaults(map[]) == DefaultStorage()
  {
  }

  /** The rolling log is the newest MAX_ERROR_LOGS entries of the full history. */
  lemma RollLogKeepsNewest(log: seq<Json>, entry: Json)
    ensures RollLog(log, entry) == Last(log + [entry], MAX_ERROR_LOGS)
  {
    var full := log + [entry];
    var r := RollLog(log, entry);
    assert |r| == |Last(full, MAX_ERROR_LOGS)|;
    forall i | 0 <= i < |r|
      ensures r[i] == Last(full, MAX_ERROR_LOGS)[i]
    {
      if i < |r| - 1 {
        assert r[i] == Last(log, MAX_ERROR_LOGS - 1)[i];
      }
    }
  }
}
