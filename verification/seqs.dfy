/**
 Order-preserving filtering and counting over sequences: the `Array.filter`
 the dashboard uses to remove rooms and devices, and the counts its
 invariants are phrased in.
 */
module Seqs {

  /** The elements of `s` that satisfy `p`, in their original order. */
  function Keep<T(!new)>(s: seq<T>, p: T -> bool): (r: seq<T>)
    ensures |r| <= |s|
    ensures forall x :: multiset(r)[x] == if p(x) then multiset(s)[x] else 0
    ensures forall i :: 0 <= i < |r| ==> p(r[i]) && r[i] in s
    decreases |s|
  {
    if |s| == 0 then []
    else
      assert s == [s[0]] + s[1..];
      var rest := Keep(s[1..], p);
      if p(s[0]) then [s[0]] + rest else rest
  }

  /** How many elements of `s` satisfy `p`. */
  function Count<T(!new)>(s: seq<T>, p: T -> bool): (n: nat)
    ensures n <= |s|
    ensures n == 0 <==> forall i :: 0 <= i < |s| ==> !p(s[i])
    decreases |s|
  {
    if |s| == 0 then 0
    else (if p(s[0]) then 1 else 0) + Count(s[1..], p)
  }

  /** Filtering distributes over concatenation, so it never reorders what it keeps. */
  lemma {:induction false} KeepAppend<T(!new)>(a: seq<T>, b: seq<T>, p: T -> bool)
    ensures Keep(a + b, p) == Keep(a, p) + Keep(b, p)
    decreases |a|
  {
    if |a| == 0 {
      assert a + b == b;
    } else {
      assert (a + b)[1..] == a[1..] + b;
      KeepAppend(a[1..], b, p);
    }
  }

  /** A filter that every element passes changes nothing. */
  lemma {:induction false} KeepAll<T(!new)>(s: seq<T>, p: T -> bool)
    requires forall i :: 0 <= i < |s| ==> p(s[i])
    ensures Keep(s, p) == s
    decreases |s|
  {
    if |s| > 0 {
      KeepAll(s[1..], p);
      assert s == [s[0]] + s[1..];
    }
  }

  /** A filter that only the last element fails drops just that element. */
  lemma KeepDropsLast<T(!new)>(s: seq<T>, p: T -> bool)
    requires |s| > 0 && !p(s[|s| - 1])
    requires forall i :: 0 <= i < |s| - 1 ==> p(s[i])
    ensures Keep(s, p) == s[..|s| - 1]
  {
    var a := s[..|s| - 1];
    var x := s[|s| - 1];
    assert s == a + [x];
    assert forall i :: 0 <= i < |a| ==> p(a[i]) by {
      forall i | 0 <= i < |a| ensures p(a[i]) { assert a[i] == s[i]; }
    }
    KeepAll(a, p);
    KeepDropsOne(x, p);
    KeepAppend(a, [x], p);
  }

  lemma KeepDropsOne<T(!new)>(x: T, p: T -> bool)
    requires !p(x)
    ensures Keep([x], p) == []
  {
    assert [x][1..] == [];
  }

  /** Filtering drops exactly the elements that fail the test. */
  lemma {:induction false} KeepLength<T(!new)>(s: seq<T>, p: T -> bool)
    ensures |Keep(s, p)| == Count(s, p)
    decreases |s|
  {
    if |s| > 0 {
      KeepLength(s[1..], p);
    }
  }

  lemma {:induction false} CountAppend<T(!new)>(s: seq<T>, x: T, p: T -> bool)
    ensures Count(s + [x], p) == Count(s, p) + (if p(x) then 1 else 0)
    decreases |s|
  {
    if |s| == 0 {
      assert s + [x] == [x];
    } else {
      assert (s + [x])[1..] == s[1..] + [x];
      CountAppend(s[1..], x, p);
    }
  }

  /** Two sequences that agree position by position on `p` have the same count. */
  lemma {:induction false} CountPointwise<T(!new)>(a: seq<T>, b: seq<T>, p: T -> bool)
    requires |a| == |b|
    requires forall i :: 0 <= i < |a| ==> p(a[i]) == p(b[i])
    ensures Count(a, p) == Count(b, p)
    decreases |a|
  {
    if |a| > 0 {
      CountPointwise(a[1..], b[1..], p);
    }
  }

  /** With at most one element satisfying `p`, any two that do are at the same position. */
  lemma {:induction false} CountAtMostOne<T(!new)>(s: seq<T>, p: T -> bool, i: int, j: int)
    requires Count(s, p) <= 1
    requires 0 <= i < |s| && 0 <= j < |s|
    requires p(s[i]) && p(s[j])
    ensures i == j
    decreases |s|
  {
    if i != 0 && j != 0 {
      CountAtMostOne(s[1..], p, i - 1, j - 1);
    }
  }

  /** Filtering never raises a count. */
  lemma {:induction false} KeepCount<T(!new)>(s: seq<T>, p: T -> bool, q: T -> bool)
    ensures Count(Keep(s, p), q) <= Count(s, q)
    decreases |s|
  {
    if |s| > 0 {
      KeepCount(s[1..], p, q);
      var rest := Keep(s[1..], p);
      if p(s[0]) {
        assert Keep(s, p) == [s[0]] + rest;
        assert ([s[0]] + rest)[1..] == rest;
      }
    }
  }
}
