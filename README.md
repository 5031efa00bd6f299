# SmartPage Toolbox — a Dafny model of its core logic

SmartPage Toolbox is a browser extension. It has five parts:
- a content script on every page: the screenshot selection overlay, highlight capture, find-and-mark and dark mode;
- a service worker: screenshot orchestration, clipboard history, highlights and message replies;
- storage helpers;
- a license cache;
- the list logic shared by the popup and the side panel.

This project models the decisions and list transformations of those parts in Dafny and proves what they promise.

Modules, one file each:

- `Lists` (lists.dfy): the JavaScript array idioms the extension uses, each defined once.
  - `unshift` followed by `length = limit` is `PushFront`.
  - `slice(0, n)` is `Take`; `slice(-n)` is `Last`.
  - `filter`, `find` and `findIndex` are `Filter`, `Find` and `FirstIndex`.
  - It also holds lemmas on order, partition and permutation.
- `Text` (text.dfy): `trim` with the ECMAScript whitespace set, ASCII `toLowerCase`, `includes`, a first-match search and decimal rendering.
- `Records` (records.dfy): values shared across modules.
  - the rectangle messages, the highlight payload, the clipboard item and the preferences object;
  - the constants of scripts/constants.js;
  - the pinned-first clipboard order, which both the worker and the panel produce.
- `Content` (content.dfy): content/contentScript.js.
  - `Overlay` is a class for the overlay state (`active`, drag anchor, rectangle, dragging).
  - `DarkMode` is a class for the dark-mode object.
  - `normalizeRect`, `extractContext`, `captureHighlight` and find-and-mark are pure functions.
- `Storage` (storage.dfy): scripts/storage.js over an abstract key/value store of JSON values (`Store`, a class).
- `License` (license.js → license.dfy): the freshness rule and the cache written after a revalidation are functions; `LicenseStore` holds the `licenseCache` and `preferences` keys.
- `Background` (background.dfy): background.js.
  - `Worker` holds the pending-capture table, the stored screenshot, clipboard and highlight lists, and the open one-shot tab listeners.
  - What a handler sends to tabs, creates or logs is returned as a list of `Effect`s.
- `Ui` (ui.dfy): scripts/uiCommon.js.
  - `sanitize`, `formatRelative`, the notes object, note filter and search, task handlers, the pin toggle and the test-mode override.
  - `Panel` is a class over the panel's `state`.

Inputs instead of effects. The clock (`Date.now`, ISO timestamps), `crypto.randomUUID` and the active tab or tab list are parameters. So are the tab `tabs.create` opens, the outcome of the store license request, the outcome of the capture pipeline, and the license tier a handler reads. Each event handler is one atomic step.

JavaScript truthiness is written out:
- a tab id of 0, an empty string and a missing value are falsy;
- `dpr || 1` maps 0 to 1;
- `limit` 0 means no limit.

Where the code and the design description of the extension differ, the model follows the code:
- `window.find(text, false, false, true, …)` searches case-insensitively and forwards, wrapping around from the current position (`Content.FindInPage`). The design describes a case-sensitive search from the top.
- `processScreenshotSelection` has two departures (`Background.Worker.ProcessScreenshotSelection`):
  - It removes the pending entry only when capture, crop, send and save all succeed; the design requires removal on failure too.
  - It does not check that the tab has a pending entry; a tab with none still gets a record, with an empty note.
- `openHighlight` registers the one-shot `tabs.onUpdated` locate listener for an already open tab too, so a later load of that tab sends a second locate message (`Background.Worker.OpenHighlight`). The design describes a single locate message.
- `enforceClipboardLimit(false)` keeps the first 20 clipboard items whether pinned or not (`Storage.Store.EnforceClipboardLimit`). The clipboard insert in the worker, by contrast, never drops a pinned item.

## Model

| member | source | states |
|---|---|---|
| Lists.PushFront | scripts/storage.js:49-52 | the new entry is first, the old list follows in order; a truthy limit no larger than the old length truncates to exactly that limit, otherwise (limit 0 included) everything is kept |
| Lists.Last | scripts/storage.js:69 | `slice(-n)` for a positive `n` is the last `min(n, length)` entries |
| Lists.FilterCounts | scripts/uiCommon.js:318 | `filter` keeps each kept element as often as it occurs and drops the others entirely |
| Lists.FilterPartition | scripts/uiCommon.js:426-427 | filtering by a predicate and by its complement splits the list: the two parts are a permutation of it |
| Text.Trim | content/contentScript.js:135 | the result is the input with leading and trailing whitespace removed, and it neither starts nor ends with whitespace |
| Text.TrimEmptyIffAllSpace | content/contentScript.js:135-139 | a string trims to empty exactly when it is all whitespace |
| Text.TrimPadded | scripts/license.js:80 | trimming a word padded with whitespace gives back the word |
| Text.Contains | scripts/uiCommon.js:165 | `includes` holds exactly when the pattern occurs at some index |
| Content.NormalizeRect | content/contentScript.js:112-118 | x and y are the component-wise minimums, width and height are non-negative and reach the maximums |
| Content.NormalizeRectSymmetric | content/contentScript.js:112-118 | the rectangle does not depend on the drag direction |
| Content.WithCaptureContext | content/contentScript.js:97-102 | the payload rectangle keeps x, y, width and height and adds dpr, scrollX and scrollY |
| Content.SelectionOutcome | content/contentScript.js:94-106 | the message is selection-complete iff a rectangle exists wider and taller than 5, else selection-cancelled |
| Content.Overlay.StartSelection | content/contentScript.js:52-54 | a no-op while active; otherwise activates the overlay and changes nothing else |
| Content.Overlay.MouseDown | content/contentScript.js:74-80 | records the drag anchor and starts dragging, only on an active overlay |
| Content.Overlay.MouseMove | content/contentScript.js:81-88 | while dragging, the rectangle becomes the normalisation of anchor and pointer |
| Content.Overlay.MouseUp | content/contentScript.js:89-108 | sends exactly one message, the outcome for the last rectangle; afterwards the overlay is inactive and the rectangle is gone |
| Content.DragOnce | content/contentScript.js:52-110 | a full gesture on an idle overlay sends the outcome for the rectangle between press and release points |
| Content.ExtractContext | content/contentScript.js:154-161 | `before` is at most 30 characters ending exactly at the start offset, `after` at most 30 starting exactly at the end offset |
| Content.CaptureHighlight | content/contentScript.js:129-152 | the first alert iff there is no range, the second iff the text is all whitespace; a save carries the trimmed, non-empty text, the context, URL and time |
| Content.FindInPage | content/contentScript.js:165 | the first case-insensitive match at or after the position, else the first from the top; none iff there is no match |
| Content.HighlightTextOnPage | content/contentScript.js:163-173 | no marker for empty text or no match; otherwise the marker holds the matched text and the page text is unchanged |
| Content.TextContent | content/contentScript.js:170-172 | the text of the page with the marker inserted is the text before, in and after the marker, in that order |
| Content.RemoveMarks | content/contentScript.js:175 | `remove()` leaves exactly the page's text nodes, in order, and drops every mark with its text |
| Content.RemoveMarksLosesMarkedText | content/contentScript.js:175 | removing the marks shortens the page text by exactly the text they held, for any nodes |
| Content.RemoveMarkerAsWritten | content/contentScript.js:170-175 | removing the marker leaves the text before and after the mark, joined, and so is shorter by the marker's text |
| Content.MarkerRemovalLosesText | content/contentScript.js:175 | after a successful highlight, removing the marker as written leaves the page text with the matched occurrence cut out: shorter by the highlighted text, and different from the page |
| Content.MarkerRemovalExample | content/contentScript.js:170-175 | marking "b" in "abc" and removing the marker leaves "ac" |
| Content.UnwrapMarks | content/contentScript.js:175 | the intended removal: every node becomes a text node with the same text |
| Content.UnwrapKeepsText | content/contentScript.js:175 | unwrapping keeps the page text, for any nodes |
| Content.UnwrapRestoresPage | content/contentScript.js:170-175 | unwrapping the marker instead restores the page text exactly and leaves no marker |
| Content.DarkMode.SetDarkMode | content/contentScript.js:201-226 | afterwards `enabled`, the style element and the root class all equal the argument |
| Content.DarkMode.ToggleDarkMode | content/contentScript.js:197-199 | flips `enabled`, keeping the style element in step |
| Content.SetDarkModeTwice | content/contentScript.js:201-226 | setting the same state twice leaves the state of setting it once |
| Storage.FillMissing | scripts/storage.js:13-24 | keys are those of the store plus the defaults; present keys keep their value, missing ones get the default |
| Storage.WithDefaults | scripts/storage.js:13-24 | the store with every absent key of DEFAULT_STORAGE added and every present key kept |
| Storage.MissingDefaults | scripts/storage.js:14-20 | the loop collects exactly the defaults whose key is absent from the store |
| Storage.AddingMissingFills | scripts/storage.js:21-23 | writing the collected updates gives the store with the missing defaults filled in |
| Storage.NothingMissingIsFilled | scripts/storage.js:21-23 | when no default is missing, skipping the write leaves the filled store |
| Storage.FillMissingIdempotent | scripts/storage.js:13-24 | filling defaults twice equals filling once |
| Storage.Store.EnsureDefaults | scripts/storage.js:13-24 | the new store is the old one with missing defaults added and nothing overwritten |
| Storage.Store.Clear | scripts/storage.js:37-40 | afterwards the store equals the defaults |
| Storage.ClearedStoreHasDefaultsOnly | scripts/storage.js:37-40 | filling an empty store gives the defaults |
| Storage.StoredList | scripts/storage.js:48 | a missing or falsy value is `[]`, an array is its items, any other value throws |
| Storage.Store.Get | scripts/storage.js:27-30 | the stored value of a key, `None` when absent |
| Storage.Store.Set | scripts/storage.js:31-33 | the update's keys overwrite, all others stay |
| Storage.Store.AppendArray | scripts/storage.js:47-55 | stores and returns the list with the entry in front, capped by a truthy limit; only that key changes; throws without a write on a non-list |
| Storage.Store.UpdateArray | scripts/storage.js:56-61 | stores and returns exactly the updater's result on the current list; only that key changes |
| Storage.ErrorMessage | scripts/storage.js:67 | a string error is its own message, an object's non-empty message is used, anything else (no message, an empty one, no error) is 'Unknown error' |
| Storage.ErrorEntry | scripts/storage.js:68 | the entry has exactly the fields scope, message, context and timestamp, holding the arguments and the derived message |
| Storage.RollLog | scripts/storage.js:69-70 | the new entry is last, preceded by the last 199 prior entries; at most 200 entries |
| Storage.RollLogKeepsNewest | scripts/storage.js:69-71 | the rolled log is the newest 200 entries of the whole history |
| Storage.Store.LogError | scripts/storage.js:65-74 | appends the entry built from scope, message, context and timestamp to the rolled log, returns it, and changes no other key |
| Storage.FreeClipboardTrim | scripts/storage.js:78-80 | the free-tier updater keeps the first 20 items, pinned or not |
| Storage.Store.EnforceClipboardLimit | scripts/storage.js:77-81 | pro changes nothing; free stores the first 20 clipboard items |
| License.FromStore | scripts/license.js:58-67 | `isPro` iff `result` is truthy and `accessLevel` is 'FULL'; source 'store' with the store payload |
| License.CacheOrDefault | scripts/license.js:17-21 | a missing cache is `{lastChecked: 0, isPro: false, source: 'unknown'}` |
| License.IsFresh | scripts/license.js:23-25 | a cache is reusable only from a known source; it is reusable within 7 days of its check and never after |
| License.NextCache | scripts/license.js:29-39 | the written cache is stamped with the write time; after a failed fetch it keeps every other field of the previous cache |
| License.Revalidation | scripts/license.js:22-41 | the cache is reused iff not forced, a cache is stored, it is younger than 7 days and its source is known; otherwise the written cache is stamped with the write time |
| License.FetchedCacheStaysFresh | scripts/license.js:25-41 | after a successful fetch every unforced check within 7 days reuses the cache |
| License.FailureKeepsUnknownStale | scripts/license.js:25-39 | a failed fetch from an unknown cache stays unknown, so the next check fetches again |
| License.LicenseStore.CheckLicense | scripts/license.js:16-42 | either returns the fresh cache and writes nothing, or writes and returns the revalidated cache, logging 'license:fetch' on a failed fetch |
| License.UnlockAccepts | scripts/license.js:80 | a missing token is refused and the bare unlock token is accepted |
| License.PaddedTokenUnlocks | scripts/license.js:80 | the unlock token surrounded by any whitespace is accepted |
| License.AcceptedTokenIsPadded | scripts/license.js:80 | every accepted token is the unlock token surrounded by whitespace |
| License.LicenseStore.ManualUnlock | scripts/license.js:79-91 | succeeds iff the trimmed token matches, writing a manual pro license; otherwise throws and writes nothing |
| License.TestModeCache | scripts/license.js:97-101 | `isPro` is `forcePro`, the source is 'test-mode' or 'cache', stamped now |
| License.WithTestMode | scripts/license.js:94-95 | `testMode` is replaced and every other preference is kept; a missing object is `{}` |
| License.LicenseStore.SetTestModeState | scripts/license.js:93-106 | overwrites `preferences.testMode`, returns the test-mode cache, and writes it only when enabled |
| Records.PinnedFirst | scripts/uiCommon.js:426-428 | the display order keeps the list length |
| Records.PinnedFirstPermutes | scripts/uiCommon.js:426-428 | the pinned-first order is a permutation of the list |
| Records.GroupsOrdered | scripts/uiCommon.js:428 | pinned items followed by unpinned items are in pinned-first shape |
| Records.PinnedFirstOrdered | scripts/uiCommon.js:426-428 | no unpinned item precedes a pinned one |
| Records.FilterGroups | scripts/uiCommon.js:426-428 | filtering a pinned group followed by an unpinned group gives back each group |
| Records.PinnedFirstStable | scripts/uiCommon.js:426-428 | the pinned items and the unpinned items each keep their order |
| Records.PinnedFirstIdempotent | scripts/uiCommon.js:426-428 | ordering an ordered list changes nothing |
| Background.NoteOrEmpty | background.js:149 | a missing note is '' |
| Background.PendingNote | background.js:197 | the pending note of the tab, or '' when it has none |
| Background.Scale | background.js:172 | the scale is `dpr`, or 1 when `dpr` is 0 |
| Background.CropPlanFor | background.js:169-185 | the source region starts at the scroll-shifted selection corner times the scale (`dpr`, or 1 when it is 0) and has the selection's size times that scale; it is drawn 1:1 at the origin of a canvas of exactly its size |
| Background.CropCoversSelection | background.js:172-185 | the source region is exactly the scroll-shifted selection scaled by `dpr`, or 1 when it is 0: a point lies in the shifted selection iff its scaled image lies in the region |
| Background.CropMissesScrolledSelection | background.js:177-178 | as written, on a page scrolled down the selection's own top-left viewport corner lies outside the source region |
| Background.ViewportCropPlan | background.js:172-185 | the corrected plan: the viewport selection's corner and size times the scale, drawn 1:1 at the origin of a canvas of its size |
| Background.ViewportCropCoversSelection | background.js:172-185 | the corrected region is exactly the viewport selection scaled, both ways, for any scroll offset |
| Background.AxisCovers | background.js:177-180 | on one axis, a point is in an interval iff its scaled image is in the scaled interval |
| Background.MulMono | background.js:172-185 | scaling by a positive factor keeps the order both ways |
| Background.SaveScreenshot | background.js:192-206 | the record is first, the older records follow in order; the free tier keeps at most 20, pro keeps all |
| Background.ClipEntry | background.js:128-135 | the entry is unpinned, holds the first `min(length, 2000)` characters of the text, and carries the given id, url, domain and time |
| Background.ClipboardInsert | background.js:136-143 | the stored list holds only the entry and old items, is at most one longer, and on pro is a permutation of entry plus old list; the lemmas below fix the order and the cut |
| Background.KeptRegular | background.js:139-142 | the regular group is the unpinned items in order, the first 20 of them on the free tier |
| Background.ClipboardInsertGroups | background.js:138-143 | the stored list is the pinned group then the kept regular group, and filtering gives each group back |
| Background.ClipboardInsertRegular | background.js:136-143 | the unpinned items kept are the new entry then the older unpinned ones in order, cut to 20 on the free tier |
| Background.ClipboardInsertKeepsPinned | background.js:138-143 | insertion never drops, reorders or adds a pinned item |
| Background.ClipboardInsertOrdered | background.js:138-143 | after insertion all pinned items precede all unpinned ones |
| Background.ClipboardInsertFreeCap | background.js:140-142 | the free tier keeps at most 20 unpinned items |
| Background.ClipboardInsertProIsPinnedFirst | background.js:136-143 | on pro the list is the pinned-first order of entry and old list, a permutation of them |
| Background.NormalizeUrl | background.js:314-322 | the URL cut before its first '#': a '#'-free prefix of the URL |
| Background.NormalizeUrlIdempotent | background.js:314-322 | normalising twice equals normalising once |
| Background.NormalizeUrlDropsFragment | background.js:314-322 | a URL with any fragment appended normalises to the URL |
| Background.FindTabByUrl | background.js:308-312 | the first tab on the same page as the URL; none iff no tab is |
| Background.DarkModeState | background.js:68-75 | the domain override when defined (even false), else the global switch, else false; the domain defaults to '*' |
| Background.OverrideBeatsGlobal | background.js:72 | a site override decides against the global switch |
| Background.ReplyFor | background.js:44-94 | false iff the handler threw; the dark-mode and force-check messages reply with their payload; every other message replies true |
| Background.DispatchLog | background.js:89-91 | a thrown handler is logged under 'background:onMessage', nothing else is |
| Background.Worker.StartScreenshotFlow | background.js:146-153 | without an active tab id nothing happens; otherwise the tab's pending note is set (overwriting) and the start message sent |
| Background.Worker.CancelSelection | background.js:56-58 | removes the sender tab's pending entry, a no-op when absent |
| Background.Worker.ProcessScreenshotSelection | background.js:155-167 | a no-op without tab id or rect; on success saves the record with the pending note and deletes the entry; on failure logs and leaves the table and list as they were |
| Background.CaptureRoundTrip | background.js:146-167 | a capture started and completed on a tab stores the note it was started with and leaves nothing pending |
| Background.Worker.HandleClipboardSave | background.js:123-144 | a no-op for empty text; otherwise the clipboard is the insert of the new entry |
| Background.Worker.CopyScreenshotById | background.js:209-217 | sends the first record's image with that id to the active tab; nothing without id, tab, matching record or image data |
| Background.Worker.SaveHighlight | background.js:219-225 | a payload with text is stored in front with its id, uncapped; otherwise nothing |
| Background.Worker.OpenHighlight | background.js:227-244 | nothing without url or text; an open tab on the same page is activated, else one tab is created; the locate message is sent and one listener added |
| Background.Worker.OnTabUpdated | background.js:234-240 | on completion each listener for the tab sends its locate message and is removed; the others stay in order |
| Ui.Escape | scripts/uiCommon.js:786-791 | characters other than the four special ones are kept |
| Ui.Sanitize | scripts/uiCommon.js:784-792 | the output contains no `<`, `>` or `"` |
| Ui.SanitizeRoundTrip | scripts/uiCommon.js:784-792 | decoding the four entities gives back the input |
| Ui.SanitizePlain | scripts/uiCommon.js:784-792 | text without special characters is shown as it is |
| Ui.FormatRelative | scripts/uiCommon.js:794-800 | blank iff the timestamp is falsy; just now under a minute; 1-59 whole minutes under an hour; 1-23 whole hours under a day; the date after |
| Ui.RelativeText | scripts/uiCommon.js:795-799 | '' for blank, 'just now', the minute and hour texts are the count's numeral followed by ' min ago' / ' h ago'; no text for a date |
| Text.NatToStringIsNumeral | scripts/uiCommon.js:798-799 | the rendered count is the decimal numeral of the number: its digits denote it, and only 0 starts with '0' |
| Ui.Lookup | scripts/uiCommon.js:265 | the list stored under a key, none iff the key is absent |
| Ui.NotesAt | scripts/uiCommon.js:265 | empty for an absent key, otherwise exactly the list stored under the key |
| Ui.Assign | scripts/uiCommon.js:267 | the object gains at most one entry and holds the key with the new list |
| Ui.AssignKeys | scripts/uiCommon.js:267 | assigning keeps the keys and their order, appending a new key last |
| Ui.AssignLookup | scripts/uiCommon.js:267 | the assigned key holds the new list, every other key what it held |
| Ui.AssignKeepsDistinct | scripts/uiCommon.js:267 | the notes object keeps each key once |
| Ui.AllCount | scripts/uiCommon.js:162 | the total is at least the length of every domain's list |
| Ui.AllCountAssign | scripts/uiCommon.js:162 | replacing one domain's list changes the total count by the difference in length |
| Ui.EditNotes | scripts/uiCommon.js:243-247 | only the note with the edit id changes (title, text, time); the length and all other notes are kept |
| Ui.AddNote | scripts/uiCommon.js:248-255 | the new note is first, the older notes follow in order, at most 200 |
| Ui.FilterNotes | scripts/uiCommon.js:163-166 | all notes for an empty query; otherwise exactly the notes whose lower-cased text contains the lower-cased query, each as many times as in the list |
| Ui.FilterNotesKeepsOrder | scripts/uiCommon.js:164-166 | the filter keeps the list order |
| Ui.DomainMatches | scripts/uiCommon.js:765-769 | the matches of one domain are its matching notes, tagged with its key, in list order and each as many times as in the list |
| Ui.SearchAll | scripts/uiCommon.js:759-772 | no search iff the prompt gave no query |
| Ui.Matches | scripts/uiCommon.js:763-770 | there are never more results than stored notes; soundness and completeness below |
| Ui.MatchesSound | scripts/uiCommon.js:763-770 | every result is a matching note stored under its key |
| Ui.MatchesComplete | scripts/uiCommon.js:763-770 | every matching note of every domain is found |
| Ui.AddTodo | scripts/uiCommon.js:298-304 | nothing iff the text is all whitespace; else the trimmed open task is first, the older follow, at most 200 |
| Ui.AddTodoOpens | scripts/uiCommon.js:278-304 | adding a task below the cap raises the open count by one |
| Ui.SetDone | scripts/uiCommon.js:311 | only tasks with the id get the checkbox state; length and others are kept |
| Ui.DeleteTodo | scripts/uiCommon.js:318 | exactly the tasks with other ids remain, in order, each as often as before; none with the id is left |
| Ui.TogglePin | scripts/uiCommon.js:483-485 | only items with the id flip `pinned`; length and others are kept |
| Ui.TogglePinTwice | scripts/uiCommon.js:483-485 | toggling twice restores the list |
| Ui.EffectiveLicense | scripts/uiCommon.js:105-109 | with test mode on, `isPro` is `forcePro` and the source 'test-mode'; otherwise the license is unchanged |
| Ui.TestModeDecidesTier | scripts/uiCommon.js:105-108 | after test mode is switched on, the panel's tier is the forced one |
| Ui.TestModeOffKeepsLicense | scripts/uiCommon.js:105-108 | after test mode is switched off, the stored license decides |
| Ui.Panel.MutateNotes | scripts/uiCommon.js:263-269 | only the key's list changes, to the updater's result on a copy; keys stay distinct |
| Ui.Panel.SaveNote | scripts/uiCommon.js:233-261 | saves iff the text is not all whitespace; edits the note with the edit id, or adds a new note, under the current domain's key |
| Ui.Panel.DeleteNote | scripts/uiCommon.js:212-217 | the current domain's list loses exactly the notes with the id |
| Ui.Panel.AddTask | scripts/uiCommon.js:298-307 | the task list becomes the add-task result, or stays for blank text |
| Ui.Panel.SetTaskDone | scripts/uiCommon.js:308-314 | the task list becomes the checkbox result |
| Ui.Panel.DeleteTask | scripts/uiCommon.js:315-322 | the task list becomes the delete result |
| Ui.Panel.TogglePinned | scripts/uiCommon.js:480-489 | the clipboard becomes the pin-toggle result |

## Left out

- Browser plumbing is not modelled: tab queries and updates, visible-tab capture, runtime and tab messaging, alarms, context menus, the side panel, storage change listeners. It appears as inputs and returned effects. This also covers `initContextMenus`, `scheduleLicenseRevalidation`, `openSidePanel`, `handleCopyEvent`, `syncDarkMode`, `writeImageToClipboard`, and popup.js and sidepanel.js, which are entry points only.
- Pixel work in `cropImage` is not modelled: fetching the data URL, decoding the bitmap, the offscreen canvas, PNG encoding and `FileReader`. Only the rectangle arithmetic is, over real numbers. The browser's truncation of canvas sizes to integers, and a NaN or missing `dpr`, are not modelled.
- The network license request and `identity.getAuthToken` (scripts/license.js:44-73) are not modelled: they are an input that fails or yields the store's answer. `getStoreUrl` only builds a constant URL.
- DOM rendering is not modelled: HTML templates, event binding, toasts, modals, `confirm`, `prompt` and `alert` text, export and import, and the settings and dark-mode panels. So are the clipboard clear, copy and delete buttons and the highlight delete button.
- Content.FindInPage: `window.find` is abstracted to the first match in wrap-around order over the page text. Text split across DOM nodes, and the scroll into view, are not modelled.
- Async interleaving and the last-write-wins races of read-modify-write updates are not modelled: each handler is one atomic step.
- The license check that `handleClipboardSave` and `saveScreenshotRecord` run is a parameter (`isPro`). The cache write that check may cause belongs to the `License` model.
- `crypto.randomUUID`, `Date.now` and `new Date().toISOString()` are parameters. `toLocaleString` is not modelled: `Ui.RelativeText` gives no text for a date.
- URL parsing is not modelled. `normalizeUrl` drops everything from the first '#'; the parser's other normalisations are not modelled. `safeDomain` and `extractDomain` are inputs (the domain). So is the tab and domain detection of `hydrateState`.
- `toLowerCase` folds ASCII letters only. String lengths and `slice(0, 2000)` count characters, not UTF-16 code units.
- Storage is modelled as JSON only in `Storage`. `License`, `Background` and `Ui` hold typed copies of the keys they use, so a stored value of the wrong shape is a failure (`None`) only in `Storage`.
- Storage.StoredList: a stored truthy non-array is treated as a thrown error by all three list helpers, so `UpdateArray` returns `None` and writes nothing. In the source `unshift` and `push` on a string throw (`appendArray`, `logError`, and the updater of `saveScreenshotRecord`), but the updater of `enforceClipboardLimit`, `items.slice(0, limit)`, works on a string and stores its first 20 characters; that case is not modelled.
- `seedSampleData` is not modelled: it writes fixed sample records.
- Background.ReplyFor: the dispatcher's routing of each message type to its handler is not one method. Each handler is a method; `ReplyFor` and `DispatchLog` give the reply and the log.
- Background.Worker.ProcessScreenshotSelection: the tab `tabs.get(tabId)` yields is an input, with its id taken to be `tabId`.
- Background.Worker.SaveHighlight: the record is the id plus the payload, as `{ id, ...payload }`. A payload carrying its own `id` would override it; page payloads have none.
- Ui.Sanitize: takes a string; the `!input` case of a missing value is the empty string.

## Findings

| source | as written | input that shows it | evidently intended | confidence | as-written member | corrected member |
|---|---|---|---|---|---|---|
| content/contentScript.js:175 | `marker.remove()` removes the `<mark>` element, and with it the matched text that `range.deleteContents()` moved into it | page text "abc", highlight text "b": after 4 seconds the page reads "ac" | the marker is transient: unwrap it and put its text back, leaving the page text as it was | not executed | Content.MarkerRemovalLosesText | Content.UnwrapRestoresPage |
| background.js:177-178 | `cropImage` adds `scrollX`/`scrollY` to a selection measured in viewport coordinates (`clientX`/`clientY`), although `captureVisibleTab` returns only the visible viewport | a 50x50 selection at (10, 20) on a page scrolled to scrollY = 1000, dpr 1: the source region starts at y = 1020, and the selection's own corner (10, 20) lies outside it | crop the viewport selection itself, at (x, y) times the scale | not executed | Background.CropMissesScrolledSelection | Background.ViewportCropCoversSelection |
