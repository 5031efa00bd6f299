/** The list transforms of scripts/uiCommon.js shared by the popup and the
    side panel: HTML escaping, relative times, per-domain notes with filter and
    search, quick tasks, the clipboard pin toggle and the test-mode override
    applied when the panel loads. */
module Ui {
  import opened Lists
  import opened Text
  import opened Records
  import opened License

  // ---------------------------------------------------------------- sanitize

  /** The replacement `sanitize` uses for one character. */
  function Escape(c: char): (r: string)
    ensures c !in {'<', '>', '&', '"'} ==> r == [c]
  {
    match c
    case '<' => "&lt;"
    case '>' => "&gt;"
    case '&' => "&amp;"
    case '"' => "&quot;"
    case _ => [c]
  }

  /** `sanitize(input)`: each of `<`, `>`, `&` and `"` becomes its entity. */
  function Sanitize(s: string): (r: string)
    ensures forall i :: 0 <= i < |r| ==> r[i] != '<' && r[i] != '>' && r[i] != '"'
    ensures |r| >= |s|
  {
    if s == [] then [] else Escape(s[0]) + Sanitize(s[1..])
  }

  /** Decoding of the four entities `sanitize` produces; any other text is kept. */
  function Unescape(s: string): string
  {
    if s == [] then []
    else if |s| >= 4 && s[..4] == "&lt;" then "<" + Unescape(s[4..])
    else if |s| >= 4 && s[..4] == "&gt;" then ">" + Unescape(s[4..])
    else if |s| >= 5 && s[..5] == "&amp;" then "&" + Unescape(s[5..])
    else if |s| >= 6 && s[..6] == "&quot;" then "\"" + Unescape(s[6..])
    else [s[0]] + Unescape(s[1..])
  }

  lemma UnescapeLt(t: string)
    ensures Unescape("&lt;" + t) == "<" + Unescape(t)
  {
    var u := "&lt;" + t;
    assert u[..4] == "&lt;" && u[4..] == t;
  }

  lemma UnescapeGt(t: string)
    ensures Unescape("&gt;" + t) == ">" + Unescape(t)
  {
    var u := "&gt;" + t;
    assert u[..4] == "&gt;" && u[4..] == t;
  }

  lemma UnescapeAmp(t: string)
    ensures Unescape("&amp;" + t) == "&" + Unescape(t)
  {
    var u := "&amp;" + t;
    assert u[..4][1] == 'a';
    assert u[..4] != "&lt;" && u[..4] != "&gt;";
    assert u[..5] == "&amp;" && u[5..] == t;
  }

  lemma UnescapeQuot(t: string)
    ensures Unescape("&quot;" + t) == "\"" + Unescape(t)
  {
    var u := "&quot;" + t;
    assert u[..4][1] == 'q' && u[..5][1] == 'q';
    assert u[..5] != "&amp;" && u[..4] != "&lt;" && u[..4] != "&gt;";
    assert u[..6] == "&quot;" && u[6..] == t;
  }

  lemma UnescapeEscape(c: char, t: string)
    ensures Unescape(Escape(c) + t) == [c] + Unescape(t)
  {
    if c == '<' {
      UnescapeLt(t);
    } else if c == '>' {
      UnescapeGt(t);
    } else if c == '&' {
      UnescapeAmp(t);
    } else if c == '"' {
      UnescapeQuot(t);
    } else {
      var u := Escape(c) + t;
      assert u[0] == c && u[1..] == t;
    }
  }

  /** Decoding the escaped text gives back the original: escaping loses nothing. */
  lemma {:induction false} SanitizeRoundTrip(s: string)
    ensures Unescape(Sanitize(s)) == s
  {
    if s != [] {
      UnescapeEscape(s[0], Sanitize(s[1..]));
      SanitizeRoundTrip(s[1..]);
      assert s == [s[0]] + s[1..];
    }
  }

  /** Text with none of the four special characters is shown as it is. */
  lemma {:induction false} SanitizePlain(s: string)
    requires forall i :: 0 <= i < |s| ==> s[i] !in {'<', '>', '&', '"'}
    ensures Sanitize(s) == s
  {
    if s != [] {
      SanitizePlain(s[1..]);
      assert s == [s[0]] + s[1..];
    }
  }

  // ---------------------------------------------------------------- relative time

  /** What `formatRelative` shows: nothing, 'just now', `n min ago`, `n h ago`,
      or the locale date of the timestamp. */
  datatype Relative = Blank | JustNow | MinutesAgo(minutes: nat) | HoursAgo(hours: nat) | DateOf(timestamp: int)

  const MINUTE_MS: int := 60000
  const HOUR_MS: int := 3600000
  const DAY_MS: int := 86400000

  /** `formatRelative(timestamp)` at the clock reading `now`; a timestamp of 0 is falsy. */
  function FormatRelative(timestamp: int, now: int): (r: Relative)
    ensures timestamp == 0 <==> r.Blank?
    ensures r.JustNow? <==> timestamp != 0 && now - timestamp < MINUTE_MS
    ensures r.MinutesAgo? ==> 1 <= r.minutes <= 59
                              && r.minutes * MINUTE_MS <= now - timestamp < (r.minutes + 1) * MINUTE_MS
    ensures r.HoursAgo? ==> 1 <= r.hours <= 23
                            && r.hours * HOUR_MS <= now - timestamp < (r.hours + 1) * HOUR_MS
    ensures r.DateOf? <==> timestamp != 0 && now - timestamp >= DAY_MS
  {
    if timestamp == 0 then Blank
    else
      var delta := now - timestamp;
      if delta < MINUTE_MS then JustNow
      else if delta < HOUR_MS then MinutesAgo(delta / MINUTE_MS)
      else if delta < DAY_MS then HoursAgo(delta / HOUR_MS)
      else DateOf(timestamp)
  }

  /** The text shown for a relative time; the locale date is not modelled. */
  function RelativeText(r: Relative): (s: Option<string>)
    ensures r.DateOf? <==> s.None?
    ensures r.Blank? ==> s == Some("")
    ensures r.JustNow? ==> s == Some("just now")
    ensures r.MinutesAgo? ==> s.Some? && s.value == NatToString(r.minutes) + " min ago"
    ensures r.HoursAgo? ==> s.Some? && s.value == NatToString(r.hours) + " h ago"
  {
    match r
    case Blank => Some("")
    case JustNow => Some("just now")
    case MinutesAgo(n) => Some(NatToString(n) + " min ago")
    case HoursAgo(n) => Some(NatToString(n) + " h ago")
    case DateOf(_) => None
  }

  // ---------------------------------------------------------------- notes

  datatype Note = Note(id: string, title: string, text: string, timestamp: int)

  /** The stored `notes` object as its entries, in insertion order. */
  type NotesByDomain = seq<(string, seq<Note>)>

  /** `domain:${domain}`. */
  function NoteKey(domain: string): string
  {
    "domain:" + domain
  }

  function Keys(m: NotesByDomain): (ks: seq<string>)
    ensures |ks| == |m| && forall i :: 0 <= i < |m| ==> ks[i] == m[i].0
  {
    seq(|m|, i requires 0 <= i < |m| => m[i].0)
  }

  /** An object has each key once. */
  predicate KeysDistinct(m: NotesByDomain)
  {
    forall i, j :: 0 <= i < j < |m| ==> m[i].0 != m[j].0
  }

  /** `notes[key]`. */
  function Lookup(m: NotesByDomain, key: string): (r: Option<seq<Note>>)
    ensures r.None? <==> key !in Keys(m)
    ensures r.Some? ==> exists i :: 0 <= i < |m| && m[i] == (key, r.value)
  {
    if m == [] then None
    else if m[0].0 == key then Some(m[0].1)
    else Lookup(m[1..], key)
  }

  /** `notes[key] ? [...notes[key]] : []`. */
  function NotesAt(m: NotesByDomain, key: string): (r: seq<Note>)
    ensures key !in Keys(m) ==> r == []
    ensures Lookup(m, key).Some? ==> r == Lookup(m, key).value
    ensures r != [] ==> exists i :: 0 <= i < |m| && m[i] == (key, r)
  {
    match Lookup(m, key)
    case None => []
    case Some(l) => l
  }

  /** `notes[key] = value`: an existing key keeps its place, a new one goes last. */
  function Assign(m: NotesByDomain, key: string, value: seq<Note>): (r: NotesByDomain)
    ensures |m| <= |r| <= |m| + 1
    ensures (key, value) in r
  {
    if m == [] then [(key, value)]
    else if m[0].0 == key then [(key, value)] + m[1..]
    else [m[0]] + Assign(m[1..], key, value)
  }

  lemma KeysCons(h: (string, seq<Note>), m: NotesByDomain)
    ensures Keys([h] + m) == [h.0] + Keys(m)
  {
    var l := [h] + m;
    var k := Keys(l);
    var km := Keys(m);
    assert |k| == |km| + 1 && k[0] == h.0;
    forall i | 0 <= i < |km|
      ensures k[i + 1] == km[i]
    {
      assert l[i + 1] == m[i];
    }
    assert k == [h.0] + km;
  }

  lemma {:induction false} AssignKeys(m: NotesByDomain, key: string, value: seq<Note>)
    ensures Keys(Assign(m, key, value)) == if key in Keys(m) then Keys(m) else Keys(m) + [key]
  {
    if m != [] {
      assert m == [m[0]] + m[1..];
      KeysCons(m[0], m[1..]);
      if m[0].0 != key {
        AssignKeys(m[1..], key, value);
        KeysCons(m[0], Assign(m[1..], key, value));
        assert key in Keys(m) <==> key in Keys(m[1..]);
      } else {
        KeysCons((key, value), m[1..]);
      }
    }
  }

  /** After the assignment the key holds the new list and every other key what it held. */
  lemma {:induction false} AssignLookup(m: NotesByDomain, key: string, value: seq<Note>, other: string)
    ensures Lookup(Assign(m, key, value), key) == Some(value)
    ensures other != key ==> Lookup(Assign(m, key, value), other) == Lookup(m, other)
  {
    if m != [] && m[0].0 != key {
      AssignLookup(m[1..], key, value, other);
    }
  }

  /** The assignment keeps the object's keys distinct. */
  lemma AssignKeepsDistinct(m: NotesByDomain, key: string, value: seq<Note>)
    requires KeysDistinct(m)
    ensures KeysDistinct(Assign(m, key, value))
  {
    AssignKeys(m, key, value);
    var r := Assign(m, key, value);
    assert Keys(r) == Keys(m) || Keys(r) == Keys(m) + [key];
    forall i, j | 0 <= i < j < |r|
      ensures r[i].0 != r[j].0
    {
      assert Keys(r)[i] == r[i].0 && Keys(r)[j] == r[j].0;
      if j == |m| {
        assert Keys(r)[j] == key && key !in Keys(m);
        assert Keys(m)[i] == r[i].0;
      } else {
        assert Keys(m)[i] == r[i].0 && Keys(m)[j] == r[j].0;
      }
    }
  }

  /** `Object.values(byDomain).reduce((acc, arr) => acc + arr.length, 0)`. */
  function AllCount(m: NotesByDomain): (n: nat)
    ensures forall i :: 0 <= i < |m| ==> |m[i].1| <= n
  {
    assert forall i :: 1 <= i < |m| ==> m[i] == m[1..][i - 1];
    if m == [] then 0 else |m[0].1| + AllCount(m[1..])
  }

  /** Replacing one domain's list changes the total by the difference in length. */
  lemma {:induction false} AllCountAssign(m: NotesByDomain, key: string, value: seq<Note>)
    requires KeysDistinct(m)
    ensures AllCount(Assign(m, key, value)) + |NotesAt(m, key)| == AllCount(m) + |value|
  {
    if m != [] && m[0].0 != key {
      assert KeysDistinct(m[1..]) by {
        forall i, j | 0 <= i < j < |m[1..]| ensures m[1..][i].0 != m[1..][j].0 {
          assert m[1..][i] == m[i + 1] && m[1..][j] == m[j + 1];
        }
      }
      AllCountAssign(m[1..], key, value);
    } else if m != [] {
      assert Assign(m, key, value)[1..] == m[1..];
    }
  }

  /** The edit branch of `saveNote`'s updater: only the note with `editId` changes. */
  function EditNotes(list: seq<Note>, editId: string, title: string, text: string, now: int): (r: seq<Note>)
    ensures |r| == |list|
    ensures forall i :: 0 <= i < |list| && list[i].id != editId ==> r[i] == list[i]
    ensures forall i :: 0 <= i < |list| && list[i].id == editId ==> r[i] == Note(editId, title, text, now)
  {
    seq(|list|, i requires 0 <= i < |list| =>
      if list[i].id == editId then list[i].(title := title, text := text, timestamp := now) else list[i])
  }

  const MAX_NOTES: nat := 200

  /** The new-note branch: in front, at most 200 kept. */
  function AddNote(list: seq<Note>, note: Note): (r: seq<Note>)
    ensures |r| == if |list| < MAX_NOTES then |list| + 1 else MAX_NOTES
    ensures r[0] == note && r[1..] == list[..|r| - 1]
  {
    PushFront(note, list, MAX_NOTES)
  }

  /** The one matching rule of the note filter and the search: the lower-cased query occurs in the lower-cased text. */
  predicate NoteMatches(n: Note, query: string)
  {
    Contains(Lower(n.text), Lower(query))
  }

  /** The notes `renderNotes` lists: all of them for an empty query, else the matching ones. */
  function FilterNotes(notes: seq<Note>, query: string): (r: seq<Note>)
    ensures query == "" ==> r == notes
    ensures query != "" ==> forall i :: 0 <= i < |r| ==> r[i] in notes && NoteMatches(r[i], query)
    ensures query != "" ==> forall i :: 0 <= i < |notes| && NoteMatches(notes[i], query) ==> notes[i] in r
    ensures query != "" ==> forall x :: multiset(r)[x] == if NoteMatches(x, query) then multiset(notes)[x] else 0
  {
    FilterCounts((n: Note) => NoteMatches(n, query), notes);
    if query == "" then notes else Filter((n: Note) => NoteMatches(n, query), notes)
  }

  /** The filter keeps the list order. */
  lemma FilterNotesKeepsOrder(notes: seq<Note>, query: string)
    ensures Subseq(FilterNotes(notes, query), notes)
  {
    if query == "" {
      SubseqRefl(notes);
    } else {
      FilterIsSubseq((n: Note) => NoteMatches(n, query), notes);
    }
  }

  lemma {:induction false} SubseqRefl<T>(s: seq<T>)
    ensures Subseq(s, s)
  {
    if s != [] {
      SubseqRefl(s[1..]);
    }
  }

  /** The notes of a run of search results, without their domain keys. */
  function Untagged(r: seq<(string, Note)>): (ns: seq<Note>)
    ensures |ns| == |r| && forall i :: 0 <= i < |r| ==> ns[i] == r[i].1
  {
    seq(|r|, i requires 0 <= i < |r| => r[i].1)
  }

  /** Each of `ns`, paired with the domain key `key`. */
  function Tagged(key: string, ns: seq<Note>): (r: seq<(string, Note)>)
    ensures |r| == |ns| && Untagged(r) == ns
    ensures forall i :: 0 <= i < |r| ==> r[i] == (key, ns[i])
  {
    var r := seq(|ns|, i requires 0 <= i < |ns| => (key, ns[i]));
    assert Untagged(r) == ns;
    r
  }

  /** The matches of one domain's list, each with its key. */

  function DomainMatches(key: string, list: seq<Note>, query: string): (r: seq<(string, Note)>)
    ensures |r| <= |list|
    ensures Subseq(Untagged(r), list)
    ensures forall x :: multiset(Untagged(r))[x] == if NoteMatches(x, query) then multiset(list)[x] else 0
    ensures forall i :: 0 <= i < |r| ==> r[i].0 == key && r[i].1 in list && NoteMatches(r[i].1, query)
    ensures forall i :: 0 <= i < |list| && NoteMatches(list[i], query) ==> (key, list[i]) in r
  {
    var f := Filter((n: Note) => NoteMatches(n, query), list);
    FilterIsSubseq((n: Note) => NoteMatches(n, query), list);
    FilterCounts((n: Note) => NoteMatches(n, query), list);
    TaggedHolds(key, f, list);
    Tagged(key, f)
  }

  lemma TaggedHolds(key: string, f: seq<Note>, list: seq<Note>)
    ensures forall i :: 0 <= i < |list| && list[i] in f ==> (key, list[i]) in Tagged(key, f)
  {
    var r := Tagged(key, f);
    forall i | 0 <= i < |list| && list[i] in f
      ensures (key, list[i]) in r
    {
      var k :| 0 <= k < |f| && f[k] == list[i];
      assert r[k] == (key, list[i]);
    }
  }

  /** The loop of `openSearchModal`: every matching note of every domain, in
      entry order; `None` when the prompt gave no query. */
  function SearchAll(m: NotesByDomain, query: Option<string>): (r: Option<seq<(string, Note)>>)
    ensures r.None? <==> query.None? || query.value == ""
  {
    if query.None? || query.value == "" then None else Some(Matches(m, query.value))
  }

  function Matches(m: NotesByDomain, query: string): (r: seq<(string, Note)>)
    ensures |r| <= AllCount(m)
  {
    if m == [] then [] else DomainMatches(m[0].0, m[0].1, query) + Matches(m[1..], query)
  }

  /** Every search result is a matching note stored under its key. */
  lemma {:induction false} MatchesSound(m: NotesByDomain, query: string)
    ensures forall i :: 0 <= i < |Matches(m, query)| ==>
              NoteMatches(Matches(m, query)[i].1, query)
              && exists j :: 0 <= j < |m| && m[j].0 == Matches(m, query)[i].0 && Matches(m, query)[i].1 in m[j].1
  {
    if m != [] {
      MatchesSound(m[1..], query);
      var d := DomainMatches(m[0].0, m[0].1, query);
      var rest := Matches(m[1..], query);
      forall i | 0 <= i < |Matches(m, query)|
        ensures NoteMatches(Matches(m, query)[i].1, query)
                && exists j :: 0 <= j < |m| && m[j].0 == Matches(m, query)[i].0 && Matches(m, query)[i].1 in m[j].1
      {
        if i < |d| {
          assert Matches(m, query)[i] == d[i];
        } else {
          assert Matches(m, query)[i] == rest[i - |d|];
          var j :| 0 <= j < |m[1..]| && m[1..][j].0 == rest[i - |d|].0 && rest[i - |d|].1 in m[1..][j].1;
          assert m[j + 1] == m[1..][j];
        }
      }
    }
  }

  /** Every matching note of every domain is found. */
  lemma {:induction false} MatchesComplete(m: NotesByDomain, query: string, j: nat, n: Note)
    requires j < |m| && n in m[j].1 && NoteMatches(n, query)
    ensures (m[j].0, n) in Matches(m, query)
  {
    if j == 0 {
      var k :| 0 <= k < |m[0].1| && m[0].1[k] == n;
      assert (m[0].0, n) in DomainMatches(m[0].0, m[0].1, query);
    } else {
      assert m[1..][j - 1] == m[j];
      MatchesComplete(m[1..], query, j - 1, n);
    }
  }

  // ---------------------------------------------------------------- tasks

  datatype Todo = Todo(id: string, text: string, done: bool, timestamp: int)

  const MAX_TODOS: nat := 200

  /** The add-task handler: `None` when the trimmed text is empty; otherwise the
      new open task in front, at most 200 kept. */
  function AddTodo(list: seq<Todo>, input: string, id: string, now: int): (r: Option<seq<Todo>>)
    ensures r.None? <==> AllSpace(input)
    ensures r.Some? ==> |r.value| == (if |list| < MAX_TODOS then |list| + 1 else MAX_TODOS)
                        && r.value[0] == Todo(id, Trim(input), false, now)
                        && r.value[1..] == list[..|r.value| - 1]
  {
    TrimEmptyIffAllSpace(input);
    var text := Trim(input);
    if text == "" then None else Some(PushFront(Todo(id, text, false, now), list, MAX_TODOS))
  }

  /** The checkbox handler: every task with that id gets `done := checked`. */
  function SetDone(list: seq<Todo>, id: string, checked: bool): (r: seq<Todo>)
    ensures |r| == |list|
    ensures forall i :: 0 <= i < |list| && list[i].id != id ==> r[i] == list[i]
    ensures forall i :: 0 <= i < |list| && list[i].id == id ==> r[i] == list[i].(done := checked)
  {
    seq(|list|, i requires 0 <= i < |list| => if list[i].id == id then list[i].(done := checked) else list[i])
  }

  /** The delete handler: exactly the tasks with other ids remain, in order. */
  function DeleteTodo(list: seq<Todo>, id: string): (r: seq<Todo>)
    ensures forall i :: 0 <= i < |r| ==> r[i].id != id && r[i] in list
    ensures forall i :: 0 <= i < |list| && list[i].id != id ==> list[i] in r
    ensures Subseq(r, list)
    ensures forall t :: multiset(r)[t] == if t.id != id then multiset(list)[t] else 0
  {
    var keep := (t: Todo) => t.id != id;
    FilterIsSubseq(keep, list);
    FilterCounts(keep, list);
    Filter(keep, list)
  }

  predicate IsOpen(t: Todo) { !t.done }

  /** `todos.filter((t) => !t.done).length`. */
  function OpenCount(list: seq<Todo>): nat
  {
    Count(IsOpen, list)
  }

  /** A freshly added task is open: the open count grows by one unless the cap drops an open task. */
  lemma AddTodoOpens(list: seq<Todo>, input: string, id: string, now: int)
    requires !AllSpace(input) && |list| < MAX_TODOS
    ensures OpenCount(AddTodo(list, input, id, now).value) == OpenCount(list) + 1
  {
    var r := AddTodo(list, input, id, now).value;
    assert r == [r[0]] + list;
  }

  // ---------------------------------------------------------------- clipboard

  /** The pin handler: every item with that id flips `pinned`. */
  function TogglePin(list: seq<ClipItem>, id: string): (r: seq<ClipItem>)
    ensures |r| == |list|
    ensures forall i :: 0 <= i < |list| && list[i].id != id ==> r[i] == list[i]
    ensures forall i :: 0 <= i < |list| && list[i].id == id ==> r[i] == list[i].(pinned := !list[i].pinned)
  {
    seq(|list|, i requires 0 <= i < |list| => if list[i].id == id then list[i].(pinned := !list[i].pinned) else list[i])
  }

  /** Toggling twice restores the list. */
  lemma TogglePinTwice(list: seq<ClipItem>, id: string)
    ensures TogglePin(TogglePin(list, id), id) == list
  {
  }

  // ---------------------------------------------------------------- license

  /** `hydrateState`'s license: with test mode on, `isPro` is `forcePro` and the source is 'test-mode'. */
  function EffectiveLicense(license: LicenseCache, prefs: Option<Prefs>): (r: LicenseCache)
    ensures prefs.Some? && prefs.value.testMode.Some? && prefs.value.testMode.value.enabled ==>
              r == license.(isPro := prefs.value.testMode.value.forcePro, source := TestModeSource)
    ensures !(prefs.Some? && prefs.value.testMode.Some? && prefs.value.testMode.value.enabled) ==> r == license
  {
    if prefs.Some? && prefs.value.testMode.Some? && prefs.value.testMode.value.enabled
    then license.(isPro := prefs.value.testMode.value.forcePro, source := TestModeSource)
    else license
  }

  /** After test mode is switched on, the panel shows the forced tier whatever the stored license says. */
  lemma TestModeDecidesTier(license: LicenseCache, prefs: Option<Prefs>, forcePro: bool)
    ensures EffectiveLicense(license, Some(WithTestMode(prefs, true, forcePro))).isPro == forcePro
  {
  }

  /** After test mode is switched off, the stored license decides. */
  lemma TestModeOffKeepsLicense(license: LicenseCache, prefs: Option<Prefs>, forcePro: bool)
    ensures EffectiveLicense(license, Some(WithTestMode(prefs, false, forcePro))) == license
  {
  }

  // ---------------------------------------------------------------- the panel

  /** The panel's `state`: the current domain, the stored notes, tasks and
      clipboard it renders, and the note filter. */
  class Panel {
    var domain: string
    var notes: NotesByDomain
    var todos: seq<Todo>
    var clipboard: seq<ClipItem>
    var noteSearchQuery: string

    predicate Valid()
      reads this
    {
      KeysDistinct(notes)
    }

    constructor (domain0: string, notes0: NotesByDomain, todos0: seq<Todo>, clipboard0: seq<ClipItem>)
      requires KeysDistinct(notes0)
      ensures Valid()
      ensures domain == domain0 && notes == notes0 && todos == todos0 && clipboard == clipboard0
      ensures noteSearchQuery == ""
    {
      domain := domain0;
      notes := notes0;
      todos := todos0;
      clipboard := clipboard0;
      noteSearchQuery := "";
    }

    /** The notes of the current domain that `renderNotes` lists. */
    function VisibleNotes(): seq<Note>
      reads this
    {
      FilterNotes(NotesAt(notes, NoteKey(domain)), noteSearchQuery)
    }

    /** `mutateNotes(state, key, updater)`: the updater gets a copy of the key's list. */
    method MutateNotes(key: string, updater: seq<Note> -> seq<Note>)
      requires Valid()
      modifies this
      ensures Valid()
      ensures notes == Assign(old(notes), key, updater(NotesAt(old(notes), key)))
      ensures Lookup(notes, key) == Some(updater(NotesAt(old(notes), key)))
      ensures forall k :: k != key ==> Lookup(notes, k) == Lookup(old(notes), k)
      ensures domain == old(domain) && todos == old(todos) && clipboard == old(clipboard)
      ensures noteSearchQuery == old(noteSearchQuery)
    {
      var next := updater(NotesAt(notes, key));
      AssignKeepsDistinct(notes, key, next);
      forall k | k != key
        ensures Lookup(Assign(notes, key, next), k) == Lookup(notes, k)
      {
        AssignLookup(notes, key, next, k);
      }
      AssignLookup(notes, key, next, key);
      notes := Assign(notes, key, next);
    }

    /** `saveNote`: the title and text fields are trimmed; an empty text saves
        nothing; a non-empty `editId` edits that note, otherwise a new note with
        `newId` is added. */
    method SaveNote(titleInput: string, textInput: string, editId: string, newId: string, now: int)
      returns (saved: bool)
      requires Valid()
      modifies this
      ensures Valid()
      ensures saved <==> !AllSpace(textInput)
      ensures !saved ==> notes == old(notes)
      ensures saved && editId != "" ==>
                notes == Assign(old(notes), NoteKey(domain),
                                EditNotes(NotesAt(old(notes), NoteKey(domain)), editId, Trim(titleInput), Trim(textInput), now))
      ensures saved && editId == "" ==>
                notes == Assign(old(notes), NoteKey(domain),
                                AddNote(NotesAt(old(notes), NoteKey(domain)), Note(newId, Trim(titleInput), Trim(textInput), now)))
      ensures domain == old(domain) && todos == old(todos) && clipboard == old(clipboard)
      ensures noteSearchQuery == old(noteSearchQuery)
    {
      var key := NoteKey(domain);
      var title := Trim(titleInput);
      var text := Trim(textInput);
      TrimEmptyIffAllSpace(textInput);
      if text == "" {
        return false;
      }
      if editId != "" {
        MutateNotes(key, (list: seq<Note>) => EditNotes(list, editId, title, text, now));
      } else {
        MutateNotes(key, (list: seq<Note>) => AddNote(list, Note(newId, title, text, now)));
      }
      saved := true;
    }

    /** The delete-note handler. */
    method DeleteNote(id: string)
      requires Valid()
      modifies this
      ensures Valid()
      ensures notes == Assign(old(notes), NoteKey(domain),
                              Filter((n: Note) => n.id != id, NotesAt(old(notes), NoteKey(domain))))
      ensures domain == old(domain) && todos == old(todos) && clipboard == old(clipboard)
      ensures noteSearchQuery == old(noteSearchQuery)
    {
      MutateNotes(NoteKey(domain), (list: seq<Note>) => Filter((n: Note) => n.id != id, list));
    }

    /** The add-task handler. */
    method AddTask(input: string, id: string, now: int) returns (added: bool)
      modifies this
      ensures added <==> !AllSpace(input)
      ensures AddTodo(old(todos), input, id, now).Some? ==> todos == AddTodo(old(todos), input, id, now).value
      ensures AddTodo(old(todos), input, id, now).None? ==> todos == old(todos)
      ensures domain == old(domain) && notes == old(notes) && clipboard == old(clipboard)
      ensures noteSearchQuery == old(noteSearchQuery)
    {
      var next := AddTodo(todos, input, id, now);
      if next.None? {
        return false;
      }
      todos := next.value;
      added := true;
    }

    /** The checkbox handler. */
    method SetTaskDone(id: string, checked: bool)
      modifies this
      ensures todos == SetDone(old(todos), id, checked)
      ensures domain == old(domain) && notes == old(notes) && clipboard == old(clipboard)
      ensures noteSearchQuery == old(noteSearchQuery)
    {
      todos := SetDone(todos, id, checked);
    }

    /** The delete-task handler. */
    method DeleteTask(id: string)
      modifies this
      ensures todos == DeleteTodo(old(todos), id)
      ensures domain == old(domain) && notes == old(notes) && clipboard == old(clipboard)
      ensures noteSearchQuery == old(noteSearchQuery)
    {
      todos := DeleteTodo(todos, id);
    }

    /** The clipboard list as `renderClipboard` shows it. */
    function DisplayedClipboard(): seq<ClipItem>
      reads this
    {
      PinnedFirst(clipboard)
    }

    /** The pin handler. */
    method TogglePinned(id: string)
      modifies this
      ensures clipboard == TogglePin(old(clipboard), id)
      ensures domain == old(domain) && notes == old(notes) && todos == old(todos)
      ensures noteSearchQuery == old(noteSearchQuery)
    {
      clipboard := TogglePin(clipboard, id);
    }
  }
}
