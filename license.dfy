/** The license cache policy of scripts/license.js: when the cached license is
    reused, what is stored after a (re)validation, the manual unlock token and
    the test-mode override. The Chrome Web Store request itself is an input:
    it either fails or yields the store's answer. */
module License {
  import opened Lists
  import opened Text
  import opened Records

  /** The `source` field: 'unknown', 'store', 'manual', 'test-mode' or 'cache'. */
  datatype Source = Unknown | StoreSource | Manual | TestModeSource | CacheSource

  /** `licensePayload`: the store's access level and expiry (`null` when absent or empty). */
  datatype LicensePayload = LicensePayload(accessLevel: Option<string>, expiryTime: Option<string>)

  /** The stored `licenseCache` object; fields the source leaves out are `None`/`false`. */
  datatype LicenseCache = LicenseCache(lastChecked: int, isPro: bool, source: Source,
                                       payload: Option<LicensePayload>, manualOverride: bool)

  /** The cache `checkLicense` assumes when none is stored. */
  const DEFAULT_CACHE := LicenseCache(0, false, Unknown, None, false)

  const LICENSE_REVALIDATE_INTERVAL_DAYS: int := 7

  /** The revalidation interval in milliseconds. */
  const INTERVAL_MS: int := LICENSE_REVALIDATE_INTERVAL_DAYS * 24 * 60 * 60 * 1000

  const MANUAL_UNLOCK_TOKEN := "SMARTPAGE-DEV-UNLOCK"

  /** The JSON body of a successful user-license request: truthiness of `result`,
      `accessLevel` and `expiryTime` (`None` when missing or empty). */
  datatype StoreAnswer = StoreAnswer(result: bool, accessLevel: Option<string>, expiryTime: Option<string>)

  /** `fetchLicenseFromStore`: rejected (no token, HTTP error, bad body) or resolved. */
  datatype FetchOutcome = FetchFailed | Fetched(answer: StoreAnswer)

  /** `data.result && data.accessLevel === 'FULL'`. */
  predicate IsActive(a: StoreAnswer)
  {
    a.result && a.accessLevel == Some("FULL")
  }

  /** The object `fetchLicenseFromStore` resolves with, before `lastChecked` is added. */
  function FromStore(a: StoreAnswer): (c: LicenseCache)
    ensures c.isPro <==> a.result && a.accessLevel == Some("FULL")
    ensures c.source == StoreSource && !c.manualOverride
    ensures c.payload == Some(LicensePayload(a.accessLevel, a.expiryTime))
  {
    LicenseCache(0, IsActive(a), StoreSource, Some(LicensePayload(a.accessLevel, a.expiryTime)), false)
  }

  /** The stored cache, or the default when none is stored. */
  function CacheOrDefault(stored: Option<LicenseCache>): (c: LicenseCache)
    ensures stored.Some? ==> c == stored.value
    ensures stored.None? ==> c == LicenseCache(0, false, Unknown, None, false)
  {
    if stored.Some? then stored.value else DEFAULT_CACHE
  }

  /** The cache may be reused: checked less than the interval ago, from a known source. */
  function IsFresh(c: LicenseCache, now: int): (b: bool)
    ensures b ==> c.source != Unknown
    ensures c.source != Unknown && now < c.lastChecked + INTERVAL_MS ==> b
    ensures now >= c.lastChecked + INTERVAL_MS ==> !b
  {
    now - c.lastChecked < INTERVAL_MS && c.source != Unknown
  }

  /** What a revalidation stores: the store's answer, or on failure the previous
      cache; in both cases stamped with the time of the write. */
  function NextCache(c: LicenseCache, fetch: FetchOutcome, writeTime: int): (r: LicenseCache)
    ensures r.lastChecked == writeTime
    ensures fetch.FetchFailed? ==> r.isPro == c.isPro && r.source == c.source
                                   && r.payload == c.payload && r.manualOverride == c.manualOverride
    ensures fetch.Fetched? ==> r.source == StoreSource && !r.manualOverride
                               && (r.isPro <==> IsActive(fetch.answer))
  {
    match fetch
    case FetchFailed => c.(lastChecked := writeTime)
    case Fetched(a) => FromStore(a).(lastChecked := writeTime)
  }

  /** The decision of `checkLicense`: `Some` of the cache to write, or `None` to reuse the stored one. */
  function Revalidation(stored: Option<LicenseCache>, force: bool, now: int, writeTime: int,
                        fetch: FetchOutcome): (r: Option<LicenseCache>)
    ensures r.None? <==> !force && stored.Some? && now - stored.value.lastChecked < INTERVAL_MS
                         && stored.value.source != Unknown
    ensures r.Some? ==> r.value.lastChecked == writeTime
  {
    var c := CacheOrDefault(stored);
    if !force && IsFresh(c, now) then None else Some(NextCache(c, fetch, writeTime))
  }

  /** A license fetched successfully is reused by every unforced check within the interval. */
  lemma FetchedCacheStaysFresh(stored: Option<LicenseCache>, a: StoreAnswer, force: bool,
                               now: int, writeTime: int, later: int, again: FetchOutcome)
    requires Revalidation(stored, force, now, writeTime, Fetched(a)).Some?
    requires writeTime <= later < writeTime + INTERVAL_MS
    ensures Revalidation(Revalidation(stored, force, now, writeTime, Fetched(a)), false, later, later, again).None?
  {
  }

  /** A failed fetch never makes an unknown license reusable: the next check fetches again. */
  lemma FailureKeepsUnknownStale(stored: Option<LicenseCache>, force: bool, now: int, writeTime: int,
                                 later: int, again: FetchOutcome)
    requires CacheOrDefault(stored).source == Unknown
    ensures var next := Revalidation(stored, force, now, writeTime, FetchFailed);
            next.Some? && next.value.source == Unknown && next.value.isPro == CacheOrDefault(stored).isPro
    ensures Revalidation(Revalidation(stored, force, now, writeTime, FetchFailed), false, later, later, again).Some?
  {
  }

  /** `token?.trim() === MANUAL_UNLOCK_TOKEN`; a missing token is refused. */
  function UnlockAccepts(token: Option<string>): (b: bool)
    ensures b ==> token.Some?
    ensures token == Some(MANUAL_UNLOCK_TOKEN) ==> b
  {
    TrimPadded("", MANUAL_UNLOCK_TOKEN, "");
    assert "" + MANUAL_UNLOCK_TOKEN + "" == MANUAL_UNLOCK_TOKEN;
    token.Some? && Trim(token.value) == MANUAL_UNLOCK_TOKEN
  }

  /** The token is accepted with any surrounding whitespace. */
  lemma PaddedTokenUnlocks(pre: string, post: string)
    requires AllSpace(pre) && AllSpace(post)
    ensures UnlockAccepts(Some(pre + MANUAL_UNLOCK_TOKEN + post))
  {
    TrimPadded(pre, MANUAL_UNLOCK_TOKEN, post);
  }

  /** Every accepted token is the unlock token surrounded by whitespace. */
  lemma AcceptedTokenIsPadded(token: string)
    requires UnlockAccepts(Some(token))
    ensures exists i {:trigger token[i..]} :: 0 <= i <= |token| - |MANUAL_UNLOCK_TOKEN|
              && token[i..i + |MANUAL_UNLOCK_TOKEN|] == MANUAL_UNLOCK_TOKEN
              && AllSpace(token[..i]) && AllSpace(token[i + |MANUAL_UNLOCK_TOKEN|..])
  {
    var r := Trim(token);
  }

  /** `manualUnlock`: the cache it writes, or the error it throws. */
  datatype UnlockResult = Unlocked(cache: LicenseCache) | InvalidToken

  /** The cache `setTestModeState` returns. */
  function TestModeCache(enabled: bool, forcePro: bool, now: int): (c: LicenseCache)
    ensures c.isPro == forcePro && c.lastChecked == now
    ensures c.source == (if enabled then TestModeSource else CacheSource)
  {
    LicenseCache(now, forcePro, if enabled then TestModeSource else CacheSource, None, false)
  }

  /** The stored preferences with `testMode` replaced; a missing object is `{}`. */
  function WithTestMode(prefs: Option<Prefs>, enabled: bool, forcePro: bool): (p: Prefs)
    ensures p.testMode == Some(TestModeFlags(enabled, forcePro))
    ensures prefs.Some? ==> p.darkMode == prefs.value.darkMode && p.developerMode == prefs.value.developerMode
    ensures prefs.None? ==> p.darkMode.None? && p.developerMode.None?
  {
    var base := if prefs.Some? then prefs.value else EMPTY_PREFS;
    base.(testMode := Some(TestModeFlags(enabled, forcePro)))
  }

  /** The two store keys license.js reads and writes. */
  class LicenseStore {
    /** `licenseCache`; `None` when absent. */
    var cache: Option<LicenseCache>
    /** `preferences`; `None` when absent. */
    var prefs: Option<Prefs>

    constructor (cache0: Option<LicenseCache>, prefs0: Option<Prefs>)
      ensures cache == cache0 && prefs == prefs0
    {
      cache := cache0;
      prefs := prefs0;
    }

    /** `checkLicense({ force })`: `now` is the first clock reading, `writeTime` the
        second; `logged` is the scope passed to `logError` when the fetch fails. */
    method CheckLicense(force: bool, now: int, writeTime: int, fetch: FetchOutcome)
      returns (r: LicenseCache, logged: Option<string>)
      modifies this
      ensures prefs == old(prefs)
      ensures var next := Revalidation(old(cache), force, now, writeTime, fetch);
              if next.None? then r == old(cache).value && cache == old(cache) && logged.None?
              else r == next.value && cache == Some(r)
                   && logged == (if fetch.FetchFailed? then Some("license:fetch") else None)
    {
      var c := CacheOrDefault(cache);
      if !force && IsFresh(c, now) {
        return c, None;
      }
      logged := if fetch.FetchFailed? then Some("license:fetch") else None;
      r := NextCache(c, fetch, writeTime);
      cache := Some(r);
    }

    /** `manualUnlock(token)`: writes a manual pro license iff the trimmed token
        matches; otherwise throws and writes nothing. */
    method ManualUnlock(token: Option<string>, now: int) returns (r: UnlockResult)
      modifies this
      ensures r.Unlocked? <==> UnlockAccepts(token)
      ensures r.Unlocked? ==> r.cache == LicenseCache(now, true, Manual, None, true) && cache == Some(r.cache)
      ensures r.InvalidToken? ==> cache == old(cache)
      ensures prefs == old(prefs)
    {
      if token.Some? && Trim(token.value) == MANUAL_UNLOCK_TOKEN {
        var c := LicenseCache(now, true, Manual, None, true);
        cache := Some(c);
        return Unlocked(c);
      }
      return InvalidToken;
    }

    /** `setTestModeState({ enabled, forcePro })`. */
    method SetTestModeState(enabled: bool, forcePro: bool, now: int) returns (r: LicenseCache)
      modifies this
      ensures prefs == Some(WithTestMode(old(prefs), enabled, forcePro))
      ensures r == TestModeCache(enabled, forcePro, now)
      ensures cache == if enabled then Some(r) else old(cache)
    {
      prefs := Some(WithTestMode(prefs, enabled, forcePro));
      r := TestModeCache(enabled, forcePro, now);
      if enabled {
        cache := Some(r);
      }
    }
  }
}
