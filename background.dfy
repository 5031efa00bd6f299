/** The service worker of background.js: the pending-capture table, the crop
    arithmetic, the screenshot, clipboard and highlight lists, the reuse of an
    open tab for a highlight, and the reply conventions of the message
    dispatcher. Tabs, clocks and ids are inputs; what the worker sends to
    tabs is returned as a sequence of effects. */
module Background {
  import opened Lists
  import opened Records
  import opened License

  /** The fields of a `chrome.tabs.Tab` the worker reads; an id of 0 is falsy. */
  datatype Tab = Tab(id: int, windowId: int, url: string, title: string)

  /** `tab?.id` is truthy. */
  predicate HasId(tab: Option<Tab>)
  {
    tab.Some? && tab.value.id != 0
  }

  /** A `pendingScreenshots` entry. */
  datatype PendingCapture = PendingCapture(note: string)

  /** One stored screenshot. */
  datatype ScreenshotRecord = ScreenshotRecord(id: string, url: string, title: string, note: string,
                                               imageData: string, rect: SelectionRect, timestamp: int)

  /** One stored highlight: `{ id, ...payload }`. */
  datatype HighlightRecord = HighlightRecord(id: string, payload: HighlightPayload)

  /** The listener `openHighlight` registers on `tabs.onUpdated`. */
  datatype LocateListener = LocateListener(tabId: int, text: string)

  /** Messages the worker sends to a content script. */
  datatype TabMessage = ScreenshotStart | WriteImage(dataUrl: string) | Locate(text: string)

  /** What a handler does outside the model's state. Every call a handler makes
      is listed, including one that threw; a `Logged` effect follows a call that threw. */
  datatype Effect = SendToTab(tabId: int, msg: TabMessage) | CreateTab(url: string)
                  | ActivateTab(tabId: int) | Logged(scope: string)

  /** How the capture pipeline of `processScreenshotSelection` ended: it threw
      before the image left the worker (tab lookup, capture or crop), the
      message to the tab threw, saving the record threw, or everything worked. */
  datatype CaptureRun = CaptureFailed | SendFailed(image: string) | SaveFailed(image: string)
                      | Captured(image: string)

  /** `note || ''`. */
  function NoteOrEmpty(note: Option<string>): (r: string)
    ensures note.Some? ==> r == note.value
    ensures note.None? ==> r == ""
  {
    if note.Some? then note.value else ""
  }

  /** `pendingScreenshots.get(id)?.note || ''`. */
  function PendingNote(pending: map<int, PendingCapture>, tabId: int): (r: string)
    ensures tabId in pending ==> r == pending[tabId].note
    ensures tabId !in pending ==> r == ""
  {
    if tabId in pending then pending[tabId].note else ""
  }

  // ---------------------------------------------------------------- crop

  /** `rect.dpr || 1`. */
  function Scale(dpr: real): (s: real)
    ensures dpr != 0.0 ==> s == dpr
    ensures dpr == 0.0 ==> s == 1.0
  {
    if dpr == 0.0 then 1.0 else dpr
  }

  /** The arguments of `drawImage` and the canvas size in `cropImage`. */
  datatype CropPlan = CropPlan(sourceX: real, sourceY: real, sourceWidth: real, sourceHeight: real,
                               destX: real, destY: real, destWidth: real, destHeight: real,
                               canvasWidth: real, canvasHeight: real)

  /** `cropImage`: the canvas and the destination are the selection's size in
      device pixels, and the source region is the selection moved by the scroll
      offset and scaled by `dpr || 1`. */
  function CropPlanFor(r: SelectionRect): (p: CropPlan)
    ensures p.destX == 0.0 && p.destY == 0.0
    ensures p.sourceWidth == p.destWidth == p.canvasWidth
    ensures p.sourceHeight == p.destHeight == p.canvasHeight
    ensures p.sourceX == (r.x + r.scrollX) * Scale(r.dpr) && p.sourceY == (r.y + r.scrollY) * Scale(r.dpr)
    ensures p.sourceWidth == r.width * Scale(r.dpr) && p.sourceHeight == r.height * Scale(r.dpr)
  {
    var s := Scale(r.dpr);
    CropPlan((r.x + r.scrollX) * s, (r.y + r.scrollY) * s, r.width * s, r.height * s,
             0.0, 0.0, r.width * s, r.height * s, r.width * s, r.height * s)
  }

  /** One axis of a crop: a point lies in the interval `[lo, lo + w]` iff its
      image under a positive scale lies in the scaled interval. */
  lemma AxisCovers(lo: real, w: real, q: real, d: real)
    requires d > 0.0
    ensures (lo * d <= q * d <= lo * d + w * d) <==> (lo <= q <= lo + w)
  {
    assert lo * d + w * d == (lo + w) * d;
    MulMono(lo, q, d);
    MulMono(q, lo + w, d);
  }

  /** The source region is exactly the scroll-shifted selection scaled by
      `dpr || 1`, both ways: a point lies in the selection moved by the scroll
      offset iff its scaled image lies in the region. */
  lemma CropCoversSelection(r: SelectionRect, px: real, py: real)
    requires Scale(r.dpr) > 0.0
    ensures var p := CropPlanFor(r);
            var s := Scale(r.dpr);
            (p.sourceX <= px * s <= p.sourceX + p.sourceWidth
             && p.sourceY <= py * s <= p.sourceY + p.sourceHeight)
            <==> (r.x + r.scrollX <= px <= r.x + r.scrollX + r.width
                  && r.y + r.scrollY <= py <= r.y + r.scrollY + r.height)
  {
    var d := Scale(r.dpr);
    AxisCovers(r.x + r.scrollX, r.width, px, d);
    AxisCovers(r.y + r.scrollY, r.height, py, d);
  }

  /** As written, the scroll offset is added to a rectangle already in viewport
      coordinates, while the captured image is the viewport: on a page scrolled
      down, the selection's own top-left corner falls outside the source region. */
  lemma CropMissesScrolledSelection(r: SelectionRect)
    requires Scale(r.dpr) > 0.0 && r.scrollY > 0.0
    ensures var p := CropPlanFor(r);
            var s := Scale(r.dpr);
            !(p.sourceX <= r.x * s <= p.sourceX + p.sourceWidth
              && p.sourceY <= r.y * s <= p.sourceY + p.sourceHeight)
  {
    CropCoversSelection(r, r.x, r.y);
  }

  /** The intended crop: the viewport selection itself, scaled by `dpr || 1`,
      drawn 1:1 at the origin of a canvas of its size. */
  function ViewportCropPlan(r: SelectionRect): (p: CropPlan)
    ensures p.destX == 0.0 && p.destY == 0.0
    ensures p.sourceWidth == p.destWidth == p.canvasWidth
    ensures p.sourceHeight == p.destHeight == p.canvasHeight
    ensures p.sourceX == r.x * Scale(r.dpr) && p.sourceY == r.y * Scale(r.dpr)
    ensures p.sourceWidth == r.width * Scale(r.dpr) && p.sourceHeight == r.height * Scale(r.dpr)
  {
    var s := Scale(r.dpr);
    CropPlan(r.x * s, r.y * s, r.width * s, r.height * s,
             0.0, 0.0, r.width * s, r.height * s, r.width * s, r.height * s)
  }

  /** The corrected region is exactly the viewport selection in device pixels,
      whatever the scroll offset: a viewport point lies in the selection iff its
      scaled image lies in the region. */
  lemma ViewportCropCoversSelection(r: SelectionRect, px: real, py: real)
    requires Scale(r.dpr) > 0.0
    ensures var p := ViewportCropPlan(r);
            var s := Scale(r.dpr);
            (p.sourceX <= px * s <= p.sourceX + p.sourceWidth
             && p.sourceY <= py * s <= p.sourceY + p.sourceHeight)
            <==> (r.x <= px <= r.x + r.width && r.y <= py <= r.y + r.height)
  {
    var d := Scale(r.dpr);
    AxisCovers(r.x, r.width, px, d);
    AxisCovers(r.y, r.height, py, d);
  }

  /** Scaling by a positive factor keeps the order, in both directions. */
  lemma MulMono(a: real, b: real, d: real)
    requires d > 0.0
    ensures a <= b <==> a * d <= b * d
  {
    assert b * d - a * d == (b - a) * d;
    if a > b {
      assert (a - b) * d > 0.0;
    }
  }

  // ---------------------------------------------------------------- lists

  /** `saveScreenshotRecord`'s updater: `unshift`, then cut to 20 on the free tier. */
  function SaveScreenshot(list: seq<ScreenshotRecord>, rec: ScreenshotRecord, isPro: bool): (r: seq<ScreenshotRecord>)
    ensures 1 <= |r| <= |list| + 1
    ensures r[0] == rec && r[1..] == list[..|r| - 1]
    ensures !isPro ==> |r| == if |list| < BASE_FREE_CLIPBOARD_LIMIT then |list| + 1 else BASE_FREE_CLIPBOARD_LIMIT
    ensures isPro ==> r == [rec] + list
  {
    PushFront(rec, list, if isPro then 0 else BASE_FREE_CLIPBOARD_LIMIT)
  }

  const MAX_CLIP_CHARS: nat := 2000

  /** The entry `handleClipboardSave` builds. */
  function ClipEntry(text: string, url: string, domain: string, id: string, now: int): (c: ClipItem)
    ensures |c.text| == if |text| < MAX_CLIP_CHARS then |text| else MAX_CLIP_CHARS
    ensures c.text == text[..|c.text|]
    ensures c.id == id && c.url == url && c.domain == domain && c.timestamp == now
    ensures !c.pinned
  {
    ClipItem(id, Take(text, MAX_CLIP_CHARS), url, domain, now, false)
  }

  /** `handleClipboardSave`'s list: the entry in front, pinned items first, the
      unpinned ones cut to 20 on the free tier. */
  function ClipboardInsert(list: seq<ClipItem>, entry: ClipItem, isPro: bool): (r: seq<ClipItem>)
    ensures |r| <= |list| + 1
    ensures isPro ==> multiset(r) == multiset([entry] + list)
    ensures forall i :: 0 <= i < |r| ==> r[i] == entry || r[i] in list
  {
    var all := [entry] + list;
    FilterPartition(Pinned, Unpinned, all);
    Filter(Pinned, all) + KeptRegular(all, isPro)
  }

  /** The unpinned part `handleClipboardSave` keeps: all of them on pro, the first 20 on the free tier. */
  function KeptRegular(all: seq<ClipItem>, isPro: bool): (v: seq<ClipItem>)
    ensures var u := Filter(Unpinned, all);
            |v| == (if isPro || |u| < BASE_FREE_CLIPBOARD_LIMIT then |u| else BASE_FREE_CLIPBOARD_LIMIT)
            && v == u[..|v|]
    ensures forall i :: 0 <= i < |v| ==> !v[i].pinned
  {
    var u := Filter(Unpinned, all);
    if isPro then u else Take(u, BASE_FREE_CLIPBOARD_LIMIT)
  }

  /** The insert with its two groups named. */
  lemma ClipboardInsertGroups(list: seq<ClipItem>, entry: ClipItem, isPro: bool)
    ensures ClipboardInsert(list, entry, isPro) == Filter(Pinned, [entry] + list) + KeptRegular([entry] + list, isPro)
    ensures Filter(Pinned, ClipboardInsert(list, entry, isPro)) == Filter(Pinned, [entry] + list)
    ensures Filter(Unpinned, ClipboardInsert(list, entry, isPro)) == KeptRegular([entry] + list, isPro)
  {
    FilterGroups(Filter(Pinned, [entry] + list), KeptRegular([entry] + list, isPro));
  }

  /** The unpinned items kept: the new entry, then the older unpinned ones in order, cut to 20 on the free tier. */
  lemma ClipboardInsertRegular(list: seq<ClipItem>, entry: ClipItem, isPro: bool)
    requires !entry.pinned
    ensures var regular := [entry] + Filter(Unpinned, list);
            Filter(Unpinned, ClipboardInsert(list, entry, isPro))
            == if isPro then regular else Take(regular, BASE_FREE_CLIPBOARD_LIMIT)
  {
    ClipboardInsertGroups(list, entry, isPro);
    assert ([entry] + list)[1..] == list;
  }

  /** Insertion never drops, reorders or adds a pinned item. */
  lemma ClipboardInsertKeepsPinned(list: seq<ClipItem>, entry: ClipItem, isPro: bool)
    requires !entry.pinned
    ensures Filter(Pinned, ClipboardInsert(list, entry, isPro)) == Filter(Pinned, list)
  {
    ClipboardInsertGroups(list, entry, isPro);
    assert ([entry] + list)[1..] == list;
  }

  /** After insertion every pinned item comes before every unpinned one. */
  lemma ClipboardInsertOrdered(list: seq<ClipItem>, entry: ClipItem, isPro: bool)
    ensures PinnedBeforeUnpinned(ClipboardInsert(list, entry, isPro))
  {
    ClipboardInsertGroups(list, entry, isPro);
    GroupsOrdered(Filter(Pinned, [entry] + list), KeptRegular([entry] + list, isPro));
  }

  /** The free tier keeps at most 20 unpinned items. */
  lemma ClipboardInsertFreeCap(list: seq<ClipItem>, entry: ClipItem)
    requires !entry.pinned
    ensures |Filter(Unpinned, ClipboardInsert(list, entry, false))| <= BASE_FREE_CLIPBOARD_LIMIT
  {
    ClipboardInsertRegular(list, entry, false);
  }

  /** On the pro tier nothing is dropped: the list is the pinned-first order of
      the entry and the old list, a permutation of them. */
  lemma ClipboardInsertProIsPinnedFirst(list: seq<ClipItem>, entry: ClipItem)
    ensures ClipboardInsert(list, entry, true) == PinnedFirst([entry] + list)
    ensures multiset(ClipboardInsert(list, entry, true)) == multiset([entry] + list)
  {
    PinnedFirstPermutes([entry] + list);
  }

  // ---------------------------------------------------------------- urls and tabs

  /** `normalizeUrl`, as the URL with its fragment (from the first '#') removed. */
  function NormalizeUrl(url: string): (r: string)
    ensures |r| <= |url| && r == url[..|r|]
    ensures '#' !in r
    ensures |r| < |url| ==> url[|r|] == '#'
  {
    match FirstIndex((c: char) => c == '#', url)
    case None => url
    case Some(i) => url[..i]
  }

  lemma NormalizeUrlIdempotent(url: string)
    ensures NormalizeUrl(NormalizeUrl(url)) == NormalizeUrl(url)
  {
    var r := NormalizeUrl(url);
    assert '#' !in r;
    assert |NormalizeUrl(r)| == |r|;
  }

  /** A URL and the same URL with any fragment appended name the same page. */
  lemma NormalizeUrlDropsFragment(base: string, fragment: string)
    requires '#' !in base
    ensures NormalizeUrl(base + "#" + fragment) == base
  {
    var u := base + "#" + fragment;
    var r := NormalizeUrl(u);
    assert u[..|base|] == base;
    assert u[|base|] == '#';
    assert |NormalizeUrl(base)| == |base|;
  }

  predicate SamePage(tab: Tab, url: string)
  {
    NormalizeUrl(tab.url) == NormalizeUrl(url)
  }

  /** `findTabByUrl`: the first open tab on the same page as `url`. */
  function FindTabByUrl(tabs: seq<Tab>, url: string): (r: Option<Tab>)
    ensures r.Some? ==> exists i :: (0 <= i < |tabs| && tabs[i] == r.value
                                     && NormalizeUrl(tabs[i].url) == NormalizeUrl(url)
                                     && forall j :: 0 <= j < i ==> NormalizeUrl(tabs[j].url) != NormalizeUrl(url))
    ensures r.None? <==> forall j :: 0 <= j < |tabs| ==> NormalizeUrl(tabs[j].url) != NormalizeUrl(url)
  {
    Find((t: Tab) => SamePage(t, url), tabs)
  }

  // ---------------------------------------------------------------- dark mode and replies

  /** `prefs.darkMode?.overrides?.[domain] ?? prefs.darkMode?.global ?? false`, with
      the domain defaulting to '*' and missing preferences being `{}`. */
  function DarkModeState(prefs: Option<Prefs>, domain: Option<string>): (enabled: bool)
    ensures var d := if domain.Some? && domain.value != "" then domain.value else "*";
            var dm := if prefs.Some? then prefs.value.darkMode else None;
            if dm.Some? && dm.value.overrides.Some? && d in dm.value.overrides.value
            then enabled == dm.value.overrides.value[d]
            else if dm.Some? && dm.value.global.Some? then enabled == dm.value.global.value
            else !enabled
  {
    var d := if domain.Some? && domain.value != "" then domain.value else "*";
    var p := if prefs.Some? then prefs.value else EMPTY_PREFS;
    match p.darkMode
    case None => false
    case Some(dm) =>
      if dm.overrides.Some? && d in dm.overrides.value then dm.overrides.value[d]
      else if dm.global.Some? then dm.global.value
      else false
  }

  /** A site override decides even when it disagrees with the global switch. */
  lemma OverrideBeatsGlobal(global: bool, domain: string, on: bool)
    requires domain != ""
    ensures DarkModeState(Some(Prefs(Some(DarkModePrefs(Some(global), Some(map[domain := on]))), None, None)),
                          Some(domain)) == on
  {
  }

  /** The message types `onMessage` distinguishes. */
  datatype MessageType = ClipboardSave | ScreenshotRequest | SelectionComplete | SelectionCancelled
                       | ScreenshotCopy | HighlightSave | HighlightsOpen | DarkModeGetState
                       | LicenseForceCheck | SeedSample | OtherType

  /** The single `sendResponse` value. */
  datatype Reply = ReplyTrue | ReplyFalse | ReplyDarkMode(enabled: bool) | ReplyLicense(license: LicenseCache)

  /** The reply to a message whose handler threw (`threw`) or finished with the
      given dark-mode state or license. */
  function ReplyFor(t: MessageType, threw: bool, enabled: bool, license: LicenseCache): (r: Reply)
    ensures r == ReplyFalse <==> threw
    ensures !threw && t == DarkModeGetState ==> r == ReplyDarkMode(enabled)
    ensures !threw && t == LicenseForceCheck ==> r == ReplyLicense(license)
    ensures !threw && t != DarkModeGetState && t != LicenseForceCheck ==> r == ReplyTrue
  {
    if threw then ReplyFalse
    else match t
         case DarkModeGetState => ReplyDarkMode(enabled)
         case LicenseForceCheck => ReplyLicense(license)
         case _ => ReplyTrue
  }

  /** What the dispatcher logs: a handler that threw is logged under 'background:onMessage'. */
  function DispatchLog(threw: bool): (r: seq<Effect>)
    ensures threw <==> r == [Logged("background:onMessage")]
    ensures !threw <==> r == []
  {
    if threw then [Logged("background:onMessage")] else []
  }

  // ---------------------------------------------------------------- the worker

  class Worker {
    /** `pendingScreenshots`: tab id to the note of the capture it started. */
    var pending: map<int, PendingCapture>
    /** The stored `screenshots`, `clipboard` and `highlights` lists. */
    var screenshots: seq<ScreenshotRecord>
    var clipboard: seq<ClipItem>
    var highlights: seq<HighlightRecord>
    /** The `tabs.onUpdated` listeners `openHighlight` registered and that have not fired. */
    var listeners: seq<LocateListener>

    constructor (shots: seq<ScreenshotRecord>, clips: seq<ClipItem>, marks: seq<HighlightRecord>)
      ensures pending == map[] && listeners == []
      ensures screenshots == shots && clipboard == clips && highlights == marks
    {
      pending := map[];
      screenshots := shots;
      clipboard := clips;
      highlights := marks;
      listeners := [];
    }

    /** `startScreenshotFlow({ note })` with the active tab; `sendFails` is the
        rejection of the `screenshot:start` message. */
    method StartScreenshotFlow(note: Option<string>, active: Option<Tab>, sendFails: bool)
      returns (effects: seq<Effect>)
      modifies this
      ensures !HasId(active) ==> pending == old(pending) && effects == []
      ensures HasId(active) ==>
                pending == old(pending)[active.value.id := PendingCapture(NoteOrEmpty(note))]
                && effects == [SendToTab(active.value.id, ScreenshotStart)]
                              + (if sendFails then [Logged("screenshot:start")] else [])
      ensures screenshots == old(screenshots) && clipboard == old(clipboard)
      ensures highlights == old(highlights) && listeners == old(listeners)
    {
      if !HasId(active) {
        return [];
      }
      var id := active.value.id;
      pending := pending[id := PendingCapture(NoteOrEmpty(note))];
      effects := [SendToTab(id, ScreenshotStart)];
      if sendFails {
        effects := effects + [Logged("screenshot:start")];
      }
    }

    /** The `screenshot:selection-cancelled` case: forget the sender's pending capture. */
    method CancelSelection(sender: Option<Tab>)
      modifies this
      ensures HasId(sender) ==> pending == old(pending) - {sender.value.id}
      ensures !HasId(sender) ==> pending == old(pending)
      ensures screenshots == old(screenshots) && clipboard == old(clipboard)
      ensures highlights == old(highlights) && listeners == old(listeners)
    {
      if HasId(sender) {
        pending := pending - {sender.value.id};
      }
    }

    /** `processScreenshotSelection(tabId, rect)`: `tab` is what `tabs.get(tabId)`
        yields, `run` how the pipeline ended. The pending entry is removed only
        when every step succeeded; a tab with no pending entry still gets a
        record, with an empty note. */
    method ProcessScreenshotSelection(tabId: int, rect: Option<SelectionRect>, tab: Tab, run: CaptureRun,
                                      isPro: bool, recordId: string, now: int)
      returns (effects: seq<Effect>)
      modifies this
      ensures tabId == 0 || rect.None? ==>
                effects == [] && pending == old(pending) && screenshots == old(screenshots)
      ensures tabId != 0 && rect.Some? && run.Captured? ==>
                screenshots == SaveScreenshot(old(screenshots),
                                              ScreenshotRecord(recordId, tab.url, tab.title,
                                                               PendingNote(old(pending), tabId),
                                                               run.image, rect.value, now), isPro)
                && pending == old(pending) - {tabId}
                && effects == [SendToTab(tabId, WriteImage(run.image))]
      ensures tabId != 0 && rect.Some? && !run.Captured? ==>
                screenshots == old(screenshots) && pending == old(pending)
                && effects == (if run.CaptureFailed? then [] else [SendToTab(tabId, WriteImage(run.image))])
                              + [Logged("screenshot:process")]
      ensures clipboard == old(clipboard) && highlights == old(highlights) && listeners == old(listeners)
    {
      if tabId == 0 || rect.None? {
        return [];
      }
      match run
      case CaptureFailed =>
        effects := [Logged("screenshot:process")];
      case SendFailed(image) =>
        effects := [SendToTab(tabId, WriteImage(image)), Logged("screenshot:process")];
      case SaveFailed(image) =>
        effects := [SendToTab(tabId, WriteImage(image)), Logged("screenshot:process")];
      case Captured(image) =>
        effects := [SendToTab(tabId, WriteImage(image))];
        var rec := ScreenshotRecord(recordId, tab.url, tab.title, PendingNote(pending, tabId), image, rect.value, now);
        screenshots := SaveScreenshot(screenshots, rec, isPro);
        pending := pending - {tabId};
    }

    /** `handleClipboardSave({ text, url })`: `domain` is `safeDomain(url)`. */
    method HandleClipboardSave(text: Option<string>, url: string, domain: string, id: string, now: int,
                               isPro: bool)
      modifies this
      ensures text.None? || text.value == "" ==> clipboard == old(clipboard)
      ensures text.Some? && text.value != "" ==>
                clipboard == ClipboardInsert(old(clipboard), ClipEntry(text.value, url, domain, id, now), isPro)
      ensures pending == old(pending) && screenshots == old(screenshots)
      ensures highlights == old(highlights) && listeners == old(listeners)
    {
      if text.None? || text.value == "" {
        return;
      }
      clipboard := ClipboardInsert(clipboard, ClipEntry(text.value, url, domain, id, now), isPro);
    }

    /** `copyScreenshotById(id)`: sends the image of the first record with that id
        to the active tab, if there is such a record and it has image data. */
    method CopyScreenshotById(id: Option<string>, active: Option<Tab>) returns (effects: seq<Effect>)
      ensures |effects| <= 1
      ensures id.None? || id.value == "" || !HasId(active) ==> effects == []
      ensures effects != [] ==>
                exists i :: (0 <= i < |screenshots| && screenshots[i].id == id.value
                             && screenshots[i].imageData != ""
                             && (forall j :: 0 <= j < i ==> screenshots[j].id != id.value)
                             && effects == [SendToTab(active.value.id, WriteImage(screenshots[i].imageData))])
      ensures id.Some? && id.value != "" && HasId(active) ==>
                (effects == [] <==> forall i :: 0 <= i < |screenshots| && screenshots[i].id == id.value
                                                ==> (exists j :: 0 <= j < i && screenshots[j].id == id.value)
                                                    || screenshots[i].imageData == "")
    {
      if id.None? || id.value == "" {
        return [];
      }
      var key := id.value;
      var found := FirstIndex((s: ScreenshotRecord) => s.id == key, screenshots);
      if found.None? || screenshots[found.value].imageData == "" || !HasId(active) {
        return [];
      }
      effects := [SendToTab(active.value.id, WriteImage(screenshots[found.value].imageData))];
    }

    /** `saveHighlight(payload)`: a payload with text is stored in front, with no cap. */
    method SaveHighlight(payload: Option<HighlightPayload>, id: string)
      modifies this
      ensures payload.None? || payload.value.text == "" ==> highlights == old(highlights)
      ensures payload.Some? && payload.value.text != "" ==>
                highlights == [HighlightRecord(id, payload.value)] + old(highlights)
      ensures pending == old(pending) && screenshots == old(screenshots)
      ensures clipboard == old(clipboard) && listeners == old(listeners)
    {
      if payload.None? || payload.value.text == "" {
        return;
      }
      highlights := PushFront(HighlightRecord(id, payload.value), highlights, 0);
    }

    /** `openHighlight(entry)` over the open tabs; `newTabId` is the id of the
        tab `tabs.create` would open. */
    method OpenHighlight(entry: Option<HighlightRecord>, tabs: seq<Tab>, newTabId: int) returns (effects: seq<Effect>)
      modifies this
      ensures entry.None? || entry.value.payload.url == "" || entry.value.payload.text == "" ==>
                effects == [] && listeners == old(listeners)
      ensures entry.Some? && entry.value.payload.url != "" && entry.value.payload.text != "" ==>
                var url := entry.value.payload.url;
                var text := entry.value.payload.text;
                var existing := FindTabByUrl(tabs, url);
                var target := if existing.Some? then existing.value.id else newTabId;
                effects == (if existing.Some? then [ActivateTab(target)] else [CreateTab(url)])
                           + [SendToTab(target, Locate(text))]
                && listeners == old(listeners) + [LocateListener(target, text)]
      ensures pending == old(pending) && screenshots == old(screenshots)
      ensures clipboard == old(clipboard) && highlights == old(highlights)
    {
      if entry.None? || entry.value.payload.url == "" || entry.value.payload.text == "" {
        return [];
      }
      var url := entry.value.payload.url;
      var text := entry.value.payload.text;
      var existing := FindTabByUrl(tabs, url);
      var target: int;
      if existing.Some? {
        target := existing.value.id;
        effects := [ActivateTab(target)];
      } else {
        target := newTabId;
        effects := [CreateTab(url)];
      }
      listeners := listeners + [LocateListener(target, text)];
      effects := effects + [SendToTab(target, Locate(text))];
    }

    /** A `tabs.onUpdated` event: when the tab finished loading, each listener
        waiting for it sends its locate message and removes itself. */
    method OnTabUpdated(tabId: int, complete: bool) returns (effects: seq<Effect>)
      modifies this
      ensures !complete ==> effects == [] && listeners == old(listeners)
      ensures complete ==>
                var fired := Filter((l: LocateListener) => l.tabId == tabId, old(listeners));
                listeners == Filter((l: LocateListener) => l.tabId != tabId, old(listeners))
                && |effects| == |fired|
                && forall i :: 0 <= i < |fired| ==> effects[i] == SendToTab(tabId, Locate(fired[i].text))
      ensures complete ==> forall i :: 0 <= i < |listeners| ==> listeners[i].tabId != tabId
      ensures pending == old(pending) && screenshots == old(screenshots)
      ensures clipboard == old(clipboard) && highlights == old(highlights)
    {
      if !complete {
        return [];
      }
      var fired := Filter((l: LocateListener) => l.tabId == tabId, listeners);
      effects := seq(|fired|, i requires 0 <= i < |fired| => SendToTab(tabId, Locate(fired[i].text)));
      listeners := Filter((l: LocateListener) => l.tabId != tabId, listeners);
    }
  }

  /** The gesture end to end: a capture started on a tab and completed there
      stores the note it was started with and leaves nothing pending. */
  method CaptureRoundTrip(w: Worker, tab: Tab, note: string, r: SelectionRect, image: string,
                          isPro: bool, recordId: string, now: int)
    requires tab.id != 0
    modifies w
    ensures |w.screenshots| >= 1
    ensures w.screenshots[0].note == note && w.screenshots[0].imageData == image
    ensures tab.id !in w.pending
  {
    var _ := w.StartScreenshotFlow(Some(note), Some(tab), false);
    var _ := w.ProcessScreenshotSelection(tab.id, Some(r), tab, Captured(image), isPro, recordId, now);
  }
}
