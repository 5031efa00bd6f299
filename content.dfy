/** The in-page part of the extension (content/contentScript.js): the
    screenshot selection overlay, highlight capture with its bounded context,
    find-and-mark of a saved highlight, and the dark-mode overlay switch.
    The DOM is abstracted: the overlay and the style element are flags, the
    page text is a string, the selection is a record of its text and range. */
module Content {
  import opened Lists
  import opened Text
  import opened Records

  function Min(a: real, b: real): real { if a <= b then a else b }
  function Max(a: real, b: real): real { if a <= b then b else a }
  function Abs(a: real): real { if a < 0.0 then -a else a }

  // ---------------------------------------------------------------------------
  // Selection overlay

  /** `normalizeRect(start, end)`: the rectangle spanned by the drag anchor and
      the current pointer, whatever the drag direction. */
  function NormalizeRect(a: Point, b: Point): (r: Rect)
    ensures r.width >= 0.0 && r.height >= 0.0
    ensures r.x <= a.x && r.x <= b.x && (r.x == a.x || r.x == b.x)
    ensures r.y <= a.y && r.y <= b.y && (r.y == a.y || r.y == b.y)
    ensures r.x + r.width == Max(a.x, b.x) && r.y + r.height == Max(a.y, b.y)
  {
    Rect(Min(a.x, b.x), Min(a.y, b.y), Abs(b.x - a.x), Abs(b.y - a.y))
  }

  /** Dragging from `b` to `a` selects the same rectangle as dragging from `a` to `b`. */
  lemma NormalizeRectSymmetric(a: Point, b: Point)
    ensures NormalizeRect(a, b) == NormalizeRect(b, a)
  {
  }

  const SELECTION_THRESHOLD: real := 5.0

  /** `overlayState.rect && rect.width > 5 && rect.height > 5`. */
  predicate CompletesSelection(r: Option<Rect>)
  {
    r.Some? && r.value.width > SELECTION_THRESHOLD && r.value.height > SELECTION_THRESHOLD
  }

  /** `{ ...overlayState.rect, dpr, scrollX, scrollY }`. */
  function WithCaptureContext(r: Rect, dpr: real, scrollX: real, scrollY: real): (s: SelectionRect)
    ensures s.x == r.x && s.y == r.y && s.width == r.width && s.height == r.height
    ensures s.dpr == dpr && s.scrollX == scrollX && s.scrollY == scrollY
  {
    SelectionRect(r.x, r.y, r.width, r.height, dpr, scrollX, scrollY)
  }

  /** The one message `endDrag` sends to the background. */
  datatype SelectionMessage = SelectionComplete(rect: SelectionRect) | SelectionCancelled

  /** The outcome of releasing the pointer with rectangle `r`. */
  function SelectionOutcome(r: Option<Rect>, dpr: real, scrollX: real, scrollY: real): (m: SelectionMessage)
    ensures m.SelectionComplete? <==> CompletesSelection(r)
    ensures m.SelectionComplete? ==> m.rect == WithCaptureContext(r.value, dpr, scrollX, scrollY)
    ensures m.SelectionComplete? ==> m.rect.width > 5.0 && m.rect.height > 5.0
  {
    if CompletesSelection(r) then SelectionComplete(WithCaptureContext(r.value, dpr, scrollX, scrollY))
    else SelectionCancelled
  }

  /** `overlayState` together with the listeners `startSelection` installs:
      `active` is true while the overlay element is attached (its mousedown
      listener with it), `dragging` while the mousemove and the one-shot
      mouseup listeners are attached. */
  class Overlay {
    var active: bool
    var start: Option<Point>
    var rect: Option<Rect>
    var dragging: bool

    ghost predicate Valid()
      reads this
    {
      (dragging ==> active && start.Some?) && (rect.Some? ==> active)
    }

    constructor ()
      ensures Valid()
      ensures !active && start.None? && rect.None? && !dragging
    {
      active, start, rect, dragging := false, None, None, false;
    }

    /** `startSelection`: a no-op while a selection is in progress. */
    method StartSelection()
      requires Valid()
      modifies this
      ensures Valid()
      ensures old(active) ==> unchanged(this)
      ensures !old(active) ==> active && start == old(start) && rect == old(rect) && dragging == old(dragging)
    {
      if active {
        return;
      }
      active := true;
    }

    /** The overlay's mousedown listener: records the drag anchor and attaches the drag listeners. */
    method MouseDown(p: Point)
      requires Valid()
      modifies this
      ensures Valid()
      ensures !old(active) ==> unchanged(this)
      ensures old(active) ==> active && start == Some(p) && dragging && rect == old(rect)
    {
      if !active {
        return;
      }
      start := Some(p);
      dragging := true;
    }

    /** `onDrag`: the rectangle is the normalisation of the anchor and the pointer. */
    method MouseMove(p: Point)
      requires Valid()
      modifies this
      ensures Valid()
      ensures !old(dragging) ==> unchanged(this)
      ensures old(dragging) ==> rect == Some(NormalizeRect(old(start).value, p))
                                && active == old(active) && start == old(start) && dragging
    {
      if !dragging {
        return;
      }
      rect := Some(NormalizeRect(start.value, p));
    }

    /** `endDrag`: removes the overlay and its listeners, sends exactly one
        message (complete iff the rectangle exceeds 5 by 5), and forgets the rectangle. */
    method MouseUp(dpr: real, scrollX: real, scrollY: real) returns (sent: Option<SelectionMessage>)
      requires Valid()
      modifies this
      ensures Valid()
      ensures !old(dragging) ==> sent.None? && unchanged(this)
      ensures old(dragging) ==> sent == Some(SelectionOutcome(old(rect), dpr, scrollX, scrollY))
      ensures old(dragging) ==> !active && !dragging && rect.None? && start == old(start)
    {
      if !dragging {
        return None;
      }
      dragging := false;
      active := false;
      sent := Some(SelectionOutcome(rect, dpr, scrollX, scrollY));
      rect := None;
    }
  }

  /** A full gesture on an idle overlay: activate, press, move, release. */
  method DragOnce(o: Overlay, a: Point, b: Point, dpr: real, scrollX: real, scrollY: real)
    returns (sent: Option<SelectionMessage>)
    requires o.Valid() && !o.active
    modifies o
    ensures o.Valid() && !o.active && o.rect.None?
    ensures sent == Some(SelectionOutcome(Some(NormalizeRect(a, b)), dpr, scrollX, scrollY))
  {
    o.StartSelection();
    o.MouseDown(a);
    o.MouseMove(b);
    sent := o.MouseUp(dpr, scrollX, scrollY);
  }

  // ---------------------------------------------------------------------------
  // Highlight capture

  /** The parts of the selection's first range `extractContext` reads: the
      text content and offset of its start and end containers. */
  datatype TextRange = TextRange(startText: string, startOffset: nat, endText: string, endOffset: nat)

  datatype Context = Context(before: string, after: string)

  const CONTEXT_CHARS: nat := 30

  function Clamp(n: nat, len: nat): nat { if n < len then n else len }

  /** `s.slice(b, e)` for non-negative bounds: both are clamped to the length, and a reversed range is empty. */
  function Slice(s: string, b: nat, e: nat): (r: string)
    ensures |r| <= |s|
    ensures Clamp(b, |s|) < Clamp(e, |s|) ==> r == s[Clamp(b, |s|)..Clamp(e, |s|)]
    ensures Clamp(b, |s|) >= Clamp(e, |s|) ==> r == []
  {
    var lo, hi := Clamp(b, |s|), Clamp(e, |s|);
    if lo < hi then s[lo..hi] else []
  }

  /** `extractContext(range)`: at most 30 characters ending exactly at the
      start offset, and at most 30 starting exactly at the end offset. */
  function ExtractContext(r: TextRange): (c: Context)
    ensures |c.before| <= CONTEXT_CHARS && |c.after| <= CONTEXT_CHARS
    ensures r.startOffset <= |r.startText| ==>
              |c.before| == (if r.startOffset < CONTEXT_CHARS then r.startOffset else CONTEXT_CHARS)
              && c.before == r.startText[r.startOffset - |c.before|..r.startOffset]
    ensures r.endOffset <= |r.endText| ==>
              |c.after| == (if |r.endText| - r.endOffset < CONTEXT_CHARS then |r.endText| - r.endOffset else CONTEXT_CHARS)
              && c.after == r.endText[r.endOffset..r.endOffset + |c.after|]
  {
    var from := if r.startOffset < CONTEXT_CHARS then 0 else r.startOffset - CONTEXT_CHARS;
    Context(Slice(r.startText, from, r.startOffset), Slice(r.endText, r.endOffset, r.endOffset + CONTEXT_CHARS))
  }

  /** What `window.getSelection()` yields: its range count, `toString()`, and `getRangeAt(0)`. */
  datatype PageSelection = PageSelection(rangeCount: nat, text: string, range: TextRange)

  /** The user-facing outcome of `captureHighlight`: one of its two alerts, or the save message. */
  datatype CaptureResult = AlertSelectFirst | AlertSelectionEmpty | SaveRequest(payload: HighlightPayload)

  /** `captureHighlight`, with `location.href` and `Date.now()` as parameters. */
  function CaptureHighlight(sel: Option<PageSelection>, url: string, now: int): (r: CaptureResult)
    ensures r == AlertSelectFirst <==> sel.None? || sel.value.rangeCount == 0
    ensures r == AlertSelectionEmpty <==> sel.Some? && sel.value.rangeCount > 0 && AllSpace(sel.value.text)
    ensures r.SaveRequest? ==>
              r.payload.text == Trim(sel.value.text) && r.payload.text != ""
              && r.payload.contextBefore == ExtractContext(sel.value.range).before
              && r.payload.contextAfter == ExtractContext(sel.value.range).after
              && r.payload.url == url && r.payload.timestamp == now
  {
    if sel.None? || sel.value.rangeCount == 0 then AlertSelectFirst
    else
      var text := Trim(sel.value.text);
      TrimEmptyIffAllSpace(sel.value.text);
      if text == "" then AlertSelectionEmpty
      else
        var c := ExtractContext(sel.value.range);
        SaveRequest(HighlightPayload(text, c.before, c.after, url, now))
  }

  // ---------------------------------------------------------------------------
  // Find and mark

  /** `window.find(text, false, false, true, ...)`: case-insensitive, forwards,
      wrapping around; `from` is where the browser's search position is. */
  function FindInPage(doc: string, text: string, from: nat): (r: Option<nat>)
    ensures r.Some? ==> MatchAt(Lower(doc), Lower(text), r.value)
    ensures r.None? ==> forall j :: !MatchAt(Lower(doc), Lower(text), j)
    ensures r.Some? && from <= r.value ==> forall j :: from <= j < r.value ==> !MatchAt(Lower(doc), Lower(text), j)
    ensures r.Some? && r.value < from ==> forall j: nat :: (j < r.value || from <= j) ==> !MatchAt(Lower(doc), Lower(text), j)
  {
    var hay, pat := Lower(doc), Lower(text);
    match FindFrom(hay, pat, from)
    case Some(i) => Some(i)
    case None => FindFrom(hay, pat, 0)
  }

  /** A node of the page's body text: a text node, or a `<mark>` element holding its text. */
  datatype Node = TextNode(text: string) | MarkNode(text: string)

  /** `textContent` of a run of sibling nodes. */
  function PageText(ns: seq<Node>): string
  {
    if ns == [] then "" else ns[0].text + PageText(ns[1..])
  }

  /** The total length of the text held by `<mark>` elements. */
  function MarkedLength(ns: seq<Node>): nat
  {
    if ns == [] then 0 else (if ns[0].MarkNode? then |ns[0].text| else 0) + MarkedLength(ns[1..])
  }

  /** The page text around and inside the inserted `<mark>` element. */
  datatype MarkedPage = MarkedPage(before: string, mark: string, after: string)

  /** The nodes after `range.deleteContents()` and `range.insertNode(marker)`. */
  function Nodes(p: MarkedPage): seq<Node>
  {
    [TextNode(p.before), MarkNode(p.mark), TextNode(p.after)]
  }

  /** The text of three sibling nodes, in order. */
  lemma PageTextOfThree(a: Node, b: Node, c: Node)
    ensures PageText([a, b, c]) == a.text + b.text + c.text
  {
    assert [a, b, c][1..] == [b, c] && [b, c][1..] == [c] && [c][1..] == [];
    assert PageText([c]) == c.text;
  }

  function TextContent(p: MarkedPage): (t: string)
    ensures t == p.before + p.mark + p.after
  {
    PageTextOfThree(TextNode(p.before), MarkNode(p.mark), TextNode(p.after));
    PageText(Nodes(p))
  }

  /** `highlightTextOnPage(text)`: nothing for empty text or no match; otherwise
      the first match (in wrap-around order) is wrapped in a marker holding
      exactly the matched text, so the page's text content is unchanged. */
  function HighlightTextOnPage(doc: string, text: string, from: nat): (r: Option<MarkedPage>)
    ensures r.None? <==> text == "" || forall j :: !MatchAt(Lower(doc), Lower(text), j)
    ensures r.Some? ==> TextContent(r.value) == doc
    ensures r.Some? ==> Lower(r.value.mark) == Lower(text)
                        && FindInPage(doc, text, from) == Some(|r.value.before|)
  {
    if text == "" then None
    else
      match FindInPage(doc, text, from)
      case None => None
      case Some(i) =>
        var j := i + |text|;
        LowerSlice(doc, i, j);
        assert doc[..i] + doc[i..j] + doc[j..] == doc;
        Some(MarkedPage(doc[..i], doc[i..j], doc[j..]))
  }

  /** `element.remove()` on every `<mark>`: the elements go, and with them the text they hold. */
  function RemoveMarks(ns: seq<Node>): (r: seq<Node>)
    ensures forall i :: 0 <= i < |r| ==> r[i].TextNode? && r[i] in ns
    ensures r == Filter((n: Node) => n.TextNode?, ns)
  {
    if ns == [] then []
    else if ns[0].MarkNode? then RemoveMarks(ns[1..])
    else [ns[0]] + RemoveMarks(ns[1..])
  }

  /** Removing the marks loses exactly the marked text. */
  lemma {:induction false} RemoveMarksLosesMarkedText(ns: seq<Node>)
    ensures |PageText(RemoveMarks(ns))| + MarkedLength(ns) == |PageText(ns)|
  {
    if ns != [] {
      RemoveMarksLosesMarkedText(ns[1..]);
      if ns[0].TextNode? {
        assert ([ns[0]] + RemoveMarks(ns[1..]))[1..] == RemoveMarks(ns[1..]);
      }
    }
  }

  lemma RemoveMarksOfNodes(p: MarkedPage)
    ensures RemoveMarks(Nodes(p)) == [TextNode(p.before), TextNode(p.after)]
  {
    var ns := Nodes(p);
    assert ns[1..] == [MarkNode(p.mark), TextNode(p.after)] && ns[1..][1..] == [TextNode(p.after)];
    assert ns[1..][1..][1..] == [];
  }

  lemma PageTextOfTwo(a: string, b: string)
    ensures PageText([TextNode(a), TextNode(b)]) == a + b
  {
    assert [TextNode(a), TextNode(b)][1..] == [TextNode(b)];
    assert [TextNode(b)][1..] == [];
    assert PageText([TextNode(b)]) == b + PageText([]);
  }

  /** What `marker.remove()` leaves on the page after the timeout. */
  function RemoveMarkerAsWritten(p: MarkedPage): (t: string)
    ensures t == p.before + p.after
    ensures |t| + |p.mark| == |TextContent(p)|
  {
    RemoveMarksOfNodes(p);
    PageTextOfTwo(p.before, p.after);
    PageText(RemoveMarks(Nodes(p)))
  }

  /** Removing the marker as written deletes the highlighted text from the page. */
  lemma MarkerRemovalLosesText(doc: string, text: string, from: nat)
    requires HighlightTextOnPage(doc, text, from).Some?
    ensures var i := FindInPage(doc, text, from).value;
            i + |text| <= |doc|
            && RemoveMarkerAsWritten(HighlightTextOnPage(doc, text, from).value) == doc[..i] + doc[i + |text|..]
    ensures |RemoveMarkerAsWritten(HighlightTextOnPage(doc, text, from).value)| == |doc| - |text|
    ensures RemoveMarkerAsWritten(HighlightTextOnPage(doc, text, from).value) != doc
  {
    var p := HighlightTextOnPage(doc, text, from).value;
    assert |p.mark| == |text|;
    var i := |p.before|;
    assert doc == p.before + p.mark + p.after;
    assert doc[..i] == p.before && doc[i + |text|..] == p.after;
  }

  /** Marking "b" in "abc" and removing the marker leaves "ac". */
  lemma MarkerRemovalExample()
    ensures HighlightTextOnPage("abc", "b", 0) == Some(MarkedPage("a", "b", "c"))
    ensures RemoveMarkerAsWritten(MarkedPage("a", "b", "c")) == "ac"
  {
    assert Lower("abc") == "abc" by {
      assert LowerChar('a') == 'a' && LowerChar('b') == 'b' && LowerChar('c') == 'c';
    }
    assert Lower("b") == "b" by {
      assert LowerChar('b') == 'b';
    }
    assert "abc"[0..1][0] == 'a';
    assert "abc"[1..2] == "b";
    assert FindFrom("abc", "b", 1) == Some(1);
    assert FindFrom("abc", "b", 0) == Some(1);
    assert "abc"[..1] == "a" && "abc"[1..2] == "b" && "abc"[2..] == "c";
  }

  /** The intended transient marker: each `<mark>` is replaced by a text node holding its text. */
  function UnwrapMarks(ns: seq<Node>): (r: seq<Node>)
    ensures |r| == |ns|
    ensures forall i :: 0 <= i < |r| ==> r[i] == TextNode(ns[i].text)
  {
    if ns == [] then [] else [TextNode(ns[0].text)] + UnwrapMarks(ns[1..])
  }

  /** Unwrapping keeps the page text, whatever the nodes. */
  lemma {:induction false} UnwrapKeepsText(ns: seq<Node>)
    ensures PageText(UnwrapMarks(ns)) == PageText(ns)
  {
    if ns != [] {
      UnwrapKeepsText(ns[1..]);
      assert UnwrapMarks(ns)[1..] == UnwrapMarks(ns[1..]);
    }
  }

  /** Marking and then unwrapping leaves the page text exactly as it was, with no marker left. */
  lemma UnwrapRestoresPage(doc: string, text: string, from: nat)
    requires HighlightTextOnPage(doc, text, from).Some?
    ensures var ns := UnwrapMarks(Nodes(HighlightTextOnPage(doc, text, from).value));
            PageText(ns) == doc && forall i :: 0 <= i < |ns| ==> ns[i].TextNode?
  {
    var p := HighlightTextOnPage(doc, text, from).value;
    UnwrapKeepsText(Nodes(p));
    assert TextContent(p) == doc;
  }

  // ---------------------------------------------------------------------------
  // Dark mode

  /** The `darkMode` object plus the `smartpage-dark` class on the root element. */
  class DarkMode {
    var enabled: bool
    var styleAttached: bool
    var rootClass: bool

    ghost predicate Valid()
      reads this
    {
      styleAttached == enabled && rootClass == enabled
    }

    constructor ()
      ensures Valid() && !enabled
    {
      enabled, styleAttached, rootClass := false, false, false;
    }

    /** `setDarkMode(on)`: the style element exists iff `on`, whatever the state before. */
    method SetDarkMode(on: bool)
      modifies this
      ensures Valid()
      ensures enabled == on && styleAttached == on && rootClass == on
    {
      enabled := on;
      if on && !styleAttached {
        styleAttached := true;
      }
      rootClass := on;
      if !on && styleAttached {
        styleAttached := false;
      }
    }

    /** `toggleDarkMode`. */
    method ToggleDarkMode()
      modifies this
      ensures Valid()
      ensures enabled == !old(enabled)
    {
      SetDarkMode(!enabled);
    }
  }

  /** Setting the same state twice is the same as setting it once. */
  method SetDarkModeTwice(d: DarkMode, on: bool)
    modifies d
    ensures d.Valid() && d.enabled == on
  {
    d.SetDarkMode(on);
    var once := (d.enabled, d.styleAttached, d.rootClass);
    d.SetDarkMode(on);
    assert (d.enabled, d.styleAttached, d.rootClass) == once;
  }
}
