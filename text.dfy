/** String helpers standing in for the JavaScript built-ins the core calls:
    `String.prototype.trim`, `toLowerCase` (ASCII folding only),
    `includes`, and a first-occurrence search. */
module Text {
  import opened Lists

  /** The characters `trim` removes: ECMAScript WhiteSpace and LineTerminator. */
  predicate IsJsSpace(c: char)
  {
    c in {'\t', '\n', '\U{000B}', '\U{000C}', '\r', ' ', '\U{00A0}', '\U{1680}',
          '\U{2028}', '\U{2029}', '\U{202F}', '\U{205F}', '\U{3000}', '\U{FEFF}'}
    || '\U{2000}' <= c <= '\U{200A}'
  }

  predicate AllSpace(s: string)
  {
    forall i :: 0 <= i < |s| ==> IsJsSpace(s[i])
  }

  /** Drops leading whitespace: what is dropped is all whitespace, and what remains does not start with any. */
  function TrimStart(s: string): (r: string)
    ensures |r| <= |s| && r == s[|s| - |r|..]
    ensures AllSpace(s[..|s| - |r|])
    ensures r == [] || !IsJsSpace(r[0])
  {
    if s != [] && IsJsSpace(s[0]) then TrimStart(s[1..]) else s
  }

  /** Drops trailing whitespace: what is dropped is all whitespace, and what remains does not end with any. */
  function TrimEnd(s: string): (r: string)
    ensures |r| <= |s| && r == s[..|r|]
    ensures AllSpace(s[|r|..])
    ensures r == [] || !IsJsSpace(r[|r| - 1])
  {
    if s != [] && IsJsSpace(s[|s| - 1]) then TrimEnd(s[..|s| - 1]) else s
  }

  /** `s.trim()`: `s` is whitespace, then the result, then whitespace; the result neither starts nor ends with whitespace. */
  function Trim(s: string): (r: string)
    ensures exists i {:trigger s[i..]} :: 0 <= i <= |s| - |r| && s[i..i + |r|] == r
                         && AllSpace(s[..i]) && AllSpace(s[i + |r|..])
    ensures r == [] || (!IsJsSpace(r[0]) && !IsJsSpace(r[|r| - 1]))
  {
    var t := TrimStart(s);
    var r := TrimEnd(t);
    var i := |s| - |t|;
    SliceOfSuffix(s, i, |r|);
    assert s[i..i + |r|] == r && AllSpace(s[..i]) && AllSpace(s[i + |r|..]);
    r
  }

  /** Slicing a suffix is slicing the whole, shifted. */
  lemma SliceOfSuffix(s: string, i: nat, n: nat)
    requires i + n <= |s|
    ensures s[i..i + n] == s[i..][..n] && s[i + n..] == s[i..][n..]
  {
  }

  /** Trimming whitespace that is already gone changes nothing. */
  lemma TrimIdempotent(s: string)
    ensures Trim(Trim(s)) == Trim(s)
  {
    var r := Trim(s);
    assert TrimStart(r) == r;
    assert TrimEnd(r) == r;
  }

  /** A string trims to empty exactly when it is all whitespace. */
  lemma {:induction false} TrimEmptyIffAllSpace(s: string)
    ensures Trim(s) == "" <==> AllSpace(s)
  {
    var t := TrimStart(s);
    var r := TrimEnd(t);
    if !AllSpace(s) {
      var k :| 0 <= k < |s| && !IsJsSpace(s[k]);
      assert k >= |s| - |t|;
      assert t[k - (|s| - |t|)] == s[k];
    }
  }

  lemma {:induction false} TrimStartPadded(pre: string, t: string)
    requires AllSpace(pre) && (t == [] || !IsJsSpace(t[0]))
    ensures TrimStart(pre + t) == t
  {
    if pre == [] {
      assert pre + t == t;
    } else {
      assert (pre + t)[1..] == pre[1..] + t;
      TrimStartPadded(pre[1..], t);
    }
  }

  lemma {:induction false} TrimEndPadded(t: string, post: string)
    requires AllSpace(post) && (t == [] || !IsJsSpace(t[|t| - 1]))
    ensures TrimEnd(t + post) == t
  {
    if post == [] {
      assert t + post == t;
    } else {
      assert (t + post)[..|t + post| - 1] == t + post[..|post| - 1];
      TrimEndPadded(t, post[..|post| - 1]);
    }
  }

  /** Trimming a word padded with whitespace on both sides gives back the word. */
  lemma TrimPadded(pre: string, t: string, post: string)
    requires AllSpace(pre) && AllSpace(post)
    requires t != [] && !IsJsSpace(t[0]) && !IsJsSpace(t[|t| - 1])
    ensures Trim(pre + t + post) == t
  {
    assert pre + t + post == pre + (t + post);
    TrimStartPadded(pre, t + post);
    TrimEndPadded(t, post);
  }

  function LowerChar(c: char): char
  {
    if 'A' <= c <= 'Z' then (c as int + 32) as char else c
  }

  /** ASCII `toLowerCase`: letters A-Z fold, every other character is kept. */
  function Lower(s: string): (r: string)
    ensures |r| == |s|
    ensures forall i :: 0 <= i < |s| ==> r[i] == LowerChar(s[i])
  {
    seq(|s|, i requires 0 <= i < |s| => LowerChar(s[i]))
  }

  lemma LowerSlice(s: string, i: nat, j: nat)
    requires i <= j <= |s|
    ensures Lower(s[i..j]) == Lower(s)[i..j]
  {
  }

  /** `pat` occurs in `hay` at index `i`. */
  predicate MatchAt(hay: string, pat: string, i: nat)
  {
    i + |pat| <= |hay| && hay[i..i + |pat|] == pat
  }

  /** The first index at or after `i` where `pat` occurs in `hay`, if any. */
  function FindFrom(hay: string, pat: string, i: nat): (r: Option<nat>)
    ensures r.Some? ==> i <= r.value && MatchAt(hay, pat, r.value)
    ensures r.Some? ==> forall j :: i <= j < r.value ==> !MatchAt(hay, pat, j)
    ensures r.None? ==> forall j :: i <= j ==> !MatchAt(hay, pat, j)
    decreases |hay| - i
  {
    if i + |pat| > |hay| then None
    else if MatchAt(hay, pat, i) then Some(i)
    else FindFrom(hay, pat, i + 1)
  }

  /** `hay.includes(pat)`. */
  function Contains(hay: string, pat: string): (b: bool)
    ensures b <==> exists j :: MatchAt(hay, pat, j)
  {
    FindFrom(hay, pat, 0).Some?
  }

  /** The decimal digits of `n`, as template literals print a non-negative integer. */
  function NatToString(n: nat): (r: string)
    ensures |r| >= 1
    ensures forall i :: 0 <= i < |r| ==> '0' <= r[i] <= '9'
  {
    if n < 10 then [('0' as int + n) as char]
    else NatToString(n / 10) + [('0' as int + n % 10) as char]
  }

  /** The number a string of decimal digits denotes, by Horner's rule. */
  function DigitsValue(s: string): (v: int)
  {
    if s == [] then 0 else DigitsValue(s[..|s| - 1]) * 10 + (s[|s| - 1] as int - '0' as int)
  }

  /** `NatToString(n)` is the decimal numeral of `n`: it denotes `n`, and only 0 starts with '0'. */
  lemma {:induction false} NatToStringIsNumeral(n: nat)
    ensures DigitsValue(NatToString(n)) == n
    ensures NatToString(n)[0] == '0' <==> n == 0
  {
    if n >= 10 {
      NatToStringIsNumeral(n / 10);
      var p := NatToString(n / 10);
      var r := NatToString(n);
      assert r == p + [('0' as int + n % 10) as char];
      assert r[..|r| - 1] == p;
      assert r[0] == p[0];
    }
  }
}
