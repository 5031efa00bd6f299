/** Generic sequence helpers shared by the storage, background and UI models:
    the JavaScript array idioms the extension uses (`unshift` followed by
    `list.length = limit`, `filter`, `slice(-n)`), each defined once. */
module Lists {

  datatype Option<T> = None | Some(value: T)

  /** `list.length = limit` guarded by `if (limit && list.length > limit)`:
      a limit of 0 is falsy and means "no limit". */
  function Capped<T>(s: seq<T>, limit: nat): (r: seq<T>)
    ensures |r| == if 0 < limit < |s| then limit else |s|
    ensures r == s[..|r|]
  {
    if 0 < limit < |s| then s[..limit] else s
  }

  /** `list.unshift(x)` followed by the capping step: the newest entry first. */
  function PushFront<T>(x: T, s: seq<T>, limit: nat): (r: seq<T>)
    ensures 1 <= |r| <= |s| + 1 && r[0] == x
    ensures r[1..] == s[..|r| - 1]
    ensures |r| == if 0 < limit <= |s| then limit else |s| + 1
    ensures limit == 0 || limit > |s| ==> r == [x] + s
  {
    Capped([x] + s, limit)
  }

  /** `list.slice(0, n)` for a non-negative `n`. */
  function Take<T>(s: seq<T>, n: nat): (r: seq<T>)
    ensures |r| == if n < |s| then n else |s|
    ensures r == s[..|r|]
  {
    if n < |s| then s[..n] else s
  }

  /** `list.slice(-n)` for a positive `n`: the last `n` entries, or all of them. */
  function Last<T>(s: seq<T>, n: nat): (r: seq<T>)
    requires n > 0
    ensures |r| == if n < |s| then n else |s|
    ensures r == s[|s| - |r|..]
  {
    if n < |s| then s[|s| - n..] else s
  }

  /** `list.filter(p)`. */
  function Filter<T(==)>(p: T -> bool, s: seq<T>): (r: seq<T>)
    ensures |r| <= |s|
    ensures forall i :: 0 <= i < |r| ==> r[i] in s && p(r[i])
    ensures forall i :: 0 <= i < |s| && p(s[i]) ==> s[i] in r
  {
    if s == [] then []
    else (if p(s[0]) then [s[0]] else []) + Filter(p, s[1..])
  }

  /** `a` can be obtained from `b` by deleting elements: the order of what is kept is preserved. */
  predicate Subseq<T(==)>(a: seq<T>, b: seq<T>)
  {
    if a == [] then true
    else if b == [] then false
    else if a[0] == b[0] then Subseq(a[1..], b[1..])
    else Subseq(a, b[1..])
  }

  /** If `a` is a subsequence of `b`, so is `a` without its head. */
  lemma {:induction false} SubseqDropHead<T>(a: seq<T>, b: seq<T>)
    requires a != [] && Subseq(a, b)
    ensures Subseq(a[1..], b)
    decreases |b|, 1
  {
    if a[0] == b[0] {
      SubseqTailToWhole(a[1..], b);
    } else {
      SubseqDropHead(a, b[1..]);
      SubseqTailToWhole(a[1..], b);
    }
  }

  /** A subsequence of the tail of `b` is a subsequence of `b`. */
  lemma {:induction false} SubseqTailToWhole<T>(a: seq<T>, b: seq<T>)
    requires b != [] && Subseq(a, b[1..])
    ensures Subseq(a, b)
    decreases |b|, 0
  {
    if a != [] && a[0] == b[0] {
      SubseqDropHead(a, b[1..]);
    }
  }

  /** `filter` keeps the order of what it keeps. */
  lemma {:induction false} FilterIsSubseq<T>(p: T -> bool, s: seq<T>)
    ensures Subseq(Filter(p, s), s)
  {
    if s != [] {
      FilterIsSubseq(p, s[1..]);
      if p(s[0]) {
        assert Filter(p, s) == [s[0]] + Filter(p, s[1..]);
      } else {
        assert Filter(p, s) == Filter(p, s[1..]);
        SubseqTailToWhole(Filter(p, s[1..]), s);
      }
    }
  }

  lemma {:induction false} FilterConcat<T>(p: T -> bool, a: seq<T>, b: seq<T>)
    ensures Filter(p, a + b) == Filter(p, a) + Filter(p, b)
  {
    if a == [] {
      assert a + b == b;
    } else {
      assert (a + b)[1..] == a[1..] + b;
      FilterConcat(p, a[1..], b);
    }
  }

  /** Filtering by `p` and by its complement splits the sequence: together the two parts are a permutation of it. */
  lemma {:induction false} FilterPartition<T>(p: T -> bool, q: T -> bool, s: seq<T>)
    requires forall x :: q(x) == !p(x)
    ensures multiset(Filter(p, s)) + multiset(Filter(q, s)) == multiset(s)
    ensures |Filter(p, s)| + |Filter(q, s)| == |s|
  {
    if s != [] {
      FilterPartition(p, q, s[1..]);
      assert s == [s[0]] + s[1..];
    }
  }

  /** A filter that keeps everything is the identity. */
  lemma {:induction false} FilterAll<T>(p: T -> bool, s: seq<T>)
    requires forall i :: 0 <= i < |s| ==> p(s[i])
    ensures Filter(p, s) == s
  {
    if s != [] {
      FilterAll(p, s[1..]);
    }
  }

  /** A filter that keeps nothing gives the empty sequence. */
  lemma {:induction false} FilterNone<T>(p: T -> bool, s: seq<T>)
    requires forall i :: 0 <= i < |s| ==> !p(s[i])
    ensures Filter(p, s) == []
  {
    if s != [] {
      FilterNone(p, s[1..]);
    }
  }

  /** `filter` keeps every kept element as often as it occurs, and drops the others entirely. */
  lemma {:induction false} FilterMultiset<T>(p: T -> bool, s: seq<T>, x: T)
    ensures multiset(Filter(p, s))[x] == if p(x) then multiset(s)[x] else 0
  {
    if s != [] {
      FilterMultiset(p, s[1..], x);
      assert s == [s[0]] + s[1..];
    }
  }

  /** `FilterMultiset` for every element at once. */
  lemma FilterCounts<T>(p: T -> bool, s: seq<T>)
    ensures forall x :: multiset(Filter(p, s))[x] == if p(x) then multiset(s)[x] else 0
  {
    forall x ensures multiset(Filter(p, s))[x] == if p(x) then multiset(s)[x] else 0 {
      FilterMultiset(p, s, x);
    }
  }

  /** `array.findIndex(p)`: the first index whose element satisfies `p`, if any. */
  function FirstIndex<T>(p: T -> bool, s: seq<T>): (r: Option<nat>)
    ensures r.Some? ==> r.value < |s| && p(s[r.value])
    ensures r.Some? ==> forall j :: 0 <= j < r.value ==> !p(s[j])
    ensures r.None? ==> forall j :: 0 <= j < |s| ==> !p(s[j])
  {
    if s == [] then None
    else if p(s[0]) then Some(0)
    else match FirstIndex(p, s[1..])
         case None => None
         case Some(i) => Some(i + 1)
  }

  /** `array.find(p)`: the first element satisfying `p`, if any. */
  function Find<T>(p: T -> bool, s: seq<T>): (r: Option<T>)
    ensures r.Some? ==> exists i :: (0 <= i < |s| && s[i] == r.value && p(s[i])
                                     && forall j :: 0 <= j < i ==> !p(s[j]))
    ensures r.None? <==> forall j :: 0 <= j < |s| ==> !p(s[j])
  {
    match FirstIndex(p, s)
    case None => None
    case Some(i) => Some(s[i])
  }

  /** Number of elements satisfying `p`. */
  function Count<T(==)>(p: T -> bool, s: seq<T>): (n: nat)
    ensures n <= |s|
    ensures n == |Filter(p, s)|
  {
    if s == [] then 0 else (if p(s[0]) then 1 else 0) + Count(p, s[1..])
  }
}
