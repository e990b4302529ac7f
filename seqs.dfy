/** Order-preserving filtering of sequences (`Array.prototype.filter`) and its laws. */
module Seqs {

  /** `s.filter(p)`: the elements satisfying `p`, in their original order. */
  function Filter<T(!new)>(p: T -> bool, s: seq<T>): (r: seq<T>)
    ensures |r| <= |s|
    ensures forall k :: 0 <= k < |r| ==> p(r[k])
  {
    if s == [] then [] else (if p(s[0]) then [s[0]] else []) + Filter(p, s[1..])
  }

  /** The filter keeps exactly the elements satisfying `p`. */
  lemma {:induction false} FilterMembers<T(!new)>(p: T -> bool, s: seq<T>)
    ensures forall x :: x in Filter(p, s) <==> x in s && p(x)
  {
    if s != [] {
      FilterMembers(p, s[1..]);
      assert s == [s[0]] + s[1..];
    }
  }

  /** Filtering distributes over concatenation, so a loop may filter one element at a time. */
  lemma {:induction false} FilterAppend<T(!new)>(p: T -> bool, a: seq<T>, b: seq<T>)
    ensures Filter(p, a + b) == Filter(p, a) + Filter(p, b)
  {
    if a == [] {
      assert a + b == b;
    } else {
      var head := if p(a[0]) then [a[0]] else [];
      FilterAppend(p, a[1..], b);
      assert (a + b)[0] == a[0] && (a + b)[1..] == a[1..] + b;
      assert Filter(p, a + b) == head + (Filter(p, a[1..]) + Filter(p, b));
      assert Filter(p, a) == head + Filter(p, a[1..]);
    }
  }

  /** `sub` is `s` with some elements left out, the rest in their original order. */
  ghost predicate IsSubsequence<T(!new)>(sub: seq<T>, s: seq<T>) {
    exists keep: seq<bool> :: |keep| == |s| && sub == Kept(keep, s)
  }

  /** The elements of `s` whose flag in `keep` is set. */
  function Kept<T(!new)>(keep: seq<bool>, s: seq<T>): seq<T>
    requires |keep| == |s|
  {
    if s == [] then [] else (if keep[0] then [s[0]] else []) + Kept(keep[1..], s[1..])
  }

  /** The flags `Filter` keeps by. */
  function Flags<T(!new)>(p: T -> bool, s: seq<T>): (keep: seq<bool>)
    ensures |keep| == |s|
  {
    seq(|s|, k requires 0 <= k < |s| => p(s[k]))
  }

  /** A filter result is a subsequence of its input. */
  lemma {:induction false} FilterIsSubsequence<T(!new)>(p: T -> bool, s: seq<T>)
    ensures IsSubsequence(Filter(p, s), s)
  {
    FilterIsKept(p, s);
  }

  lemma {:induction false} FilterIsKept<T(!new)>(p: T -> bool, s: seq<T>)
    ensures Filter(p, s) == Kept(Flags(p, s), s)
  {
    if s != [] {
      FilterIsKept(p, s[1..]);
      assert Flags(p, s)[1..] == Flags(p, s[1..]);
    }
  }

  /** Nothing passes the filter when no element satisfies the predicate. */
  lemma {:induction false} FilterNone<T(!new)>(p: T -> bool, s: seq<T>)
    requires forall k :: 0 <= k < |s| ==> !p(s[k])
    ensures Filter(p, s) == []
  {
    if s != [] {
      FilterNone(p, s[1..]);
    }
  }

  /** Every element satisfies `p` exactly when every element of the front does and the last one does. */
  lemma AllSplitLast<T(!new)>(p: T -> bool, s: seq<T>, front: seq<T>)
    requires s != [] && front == s[..|s| - 1]
    ensures (forall k :: 0 <= k < |s| ==> p(s[k])) <==> (forall k :: 0 <= k < |front| ==> p(front[k])) && p(s[|s| - 1])
  {
    assert forall k :: 0 <= k < |front| ==> front[k] == s[k];
  }

  /** Filtering twice by the same predicate is filtering once. */
  lemma {:induction false} FilterIdempotent<T(!new)>(p: T -> bool, s: seq<T>)
    ensures Filter(p, Filter(p, s)) == Filter(p, s)
  {
    FilterAllKept(p, Filter(p, s));
  }

  /** A filter that every element passes changes nothing. */
  lemma {:induction false} FilterAllKept<T(!new)>(p: T -> bool, s: seq<T>)
    requires forall k :: 0 <= k < |s| ==> p(s[k])
    ensures Filter(p, s) == s
  {
    if s != [] {
      FilterAllKept(p, s[1..]);
    }
  }

  /** The number of elements satisfying `p`: `s.filter(p).length`. */
  function Count<T(!new)>(p: T -> bool, s: seq<T>): nat {
    |Filter(p, s)|
  }

  /** Counting the first element, then the rest. */
  lemma CountStep<T(!new)>(p: T -> bool, s: seq<T>)
    requires s != []
    ensures Count(p, s) == (if p(s[0]) then 1 else 0) + Count(p, s[1..])
  {
  }

  /** Counting over a filtered sequence never exceeds counting over the whole. */
  lemma {:induction false} CountOfFilterBounded<T(!new)>(p: T -> bool, q: T -> bool, s: seq<T>)
    ensures Count(p, Filter(q, s)) <= Count(p, s)
  {
    if s != [] {
      CountOfFilterBounded(p, q, s[1..]);
      FilterAppend(p, if q(s[0]) then [s[0]] else [], Filter(q, s[1..]));
    }
  }
}
