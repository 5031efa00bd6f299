/** Records that cross module boundaries: the messages exchanged between the
    page and the background, the persisted clipboard item, the preferences
    object, and the values of scripts/constants.js the core uses. */
module Records {
  import opened Lists

  /** Pointer position in viewport coordinates (`clientX`, `clientY`). */
  datatype Point = Point(x: real, y: real)

  /** The `{ x, y, width, height }` object built by `normalizeRect`. */
  datatype Rect = Rect(x: real, y: real, width: real, height: real)

  /** The `rect` of a `screenshot:selection-complete` message: the rectangle
      spread together with `dpr`, `scrollX` and `scrollY`. */
  datatype SelectionRect = SelectionRect(x: real, y: real, width: real, height: real,
                                         dpr: real, scrollX: real, scrollY: real)

  /** The payload of a `highlight:save` message. */
  datatype HighlightPayload = HighlightPayload(text: string, contextBefore: string, contextAfter: string,
                                               url: string, timestamp: int)

  /** One persisted clipboard-history entry. */
  datatype ClipItem = ClipItem(id: string, text: string, url: string, domain: string,
                               timestamp: int, pinned: bool)

  predicate Pinned(c: ClipItem) { c.pinned }
  predicate Unpinned(c: ClipItem) { !c.pinned }

  /** The clipboard order both the background and the panel produce: every
      pinned item, then every unpinned one, each group in list order. */
  function PinnedFirst(items: seq<ClipItem>): (r: seq<ClipItem>)
    ensures |r| == |items|
  {
    FilterPartition(Pinned, Unpinned, items);
    Filter(Pinned, items) + Filter(Unpinned, items)
  }

  /** The pinned-first order is a permutation of the list. */
  lemma PinnedFirstPermutes(items: seq<ClipItem>)
    ensures multiset(PinnedFirst(items)) == multiset(items)
  {
    FilterPartition(Pinned, Unpinned, items);
  }

  /** No unpinned item comes before a pinned one. */
  predicate PinnedBeforeUnpinned(r: seq<ClipItem>)
  {
    forall i, j :: 0 <= i < j < |r| && r[j].pinned ==> r[i].pinned
  }

  /** Pinned items followed by unpinned ones are in pinned-first shape. */
  lemma GroupsOrdered(p: seq<ClipItem>, u: seq<ClipItem>)
    requires forall i :: 0 <= i < |p| ==> p[i].pinned
    requires forall i :: 0 <= i < |u| ==> !u[i].pinned
    ensures PinnedBeforeUnpinned(p + u)
  {
    var r := p + u;
    assert forall k :: 0 <= k < |p| ==> r[k] == p[k];
    assert forall k :: |p| <= k < |r| ==> r[k] == u[k - |p|];
  }

  /** In the pinned-first order no unpinned item comes before a pinned one. */
  lemma PinnedFirstOrdered(items: seq<ClipItem>)
    ensures PinnedBeforeUnpinned(PinnedFirst(items))
  {
    GroupsOrdered(Filter(Pinned, items), Filter(Unpinned, items));
  }

  /** Filtering pinned items followed by unpinned ones gives back each group. */
  lemma FilterGroups(p: seq<ClipItem>, u: seq<ClipItem>)
    requires forall i :: 0 <= i < |p| ==> p[i].pinned
    requires forall i :: 0 <= i < |u| ==> !u[i].pinned
    ensures Filter(Pinned, p + u) == p
    ensures Filter(Unpinned, p + u) == u
  {
    FilterConcat(Pinned, p, u);
    FilterConcat(Unpinned, p, u);
    FilterAll(Pinned, p);
    FilterNone(Pinned, u);
    FilterAll(Unpinned, u);
    FilterNone(Unpinned, p);
  }

  /** Each group keeps its own order: the pinned-first order is stable. */
  lemma PinnedFirstStable(items: seq<ClipItem>)
    ensures Filter(Pinned, PinnedFirst(items)) == Filter(Pinned, items)
    ensures Filter(Unpinned, PinnedFirst(items)) == Filter(Unpinned, items)
  {
    FilterGroups(Filter(Pinned, items), Filter(Unpinned, items));
  }

  /** Ordering an already pinned-first list changes nothing. */
  lemma PinnedFirstIdempotent(items: seq<ClipItem>)
    ensures PinnedFirst(PinnedFirst(items)) == PinnedFirst(items)
  {
    PinnedFirstStable(items);
  }

  /** `preferences.darkMode`; each field may be missing from the stored object. */
  datatype DarkModePrefs = DarkModePrefs(global: Option<bool>, overrides: Option<map<string, bool>>)

  /** `preferences.testMode`. */
  datatype TestModeFlags = TestModeFlags(enabled: bool, forcePro: bool)

  /** The stored `preferences` object; `{}` is `Prefs(None, None, None)`. */
  datatype Prefs = Prefs(darkMode: Option<DarkModePrefs>, developerMode: Option<bool>,
                         testMode: Option<TestModeFlags>)

  const EMPTY_PREFS := Prefs(None, None, None)

  /** BASE_FREE_CLIPBOARD_LIMIT: the free-tier cap of both the clipboard history and the screenshot list. */
  const BASE_FREE_CLIPBOARD_LIMIT: nat := 20

  /** MAX_ERROR_LOGS. */
  const MAX_ERROR_LOGS: nat := 200
}
