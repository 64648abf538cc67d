/**
 * Order-preserving selection from a sequence: what a Python loop that walks a
 * list and appends the items that pass (or fail) a test ends up building.
 */
module Seqs {

  /** The elements x of s with p(x) == keep, in their order in s. */
  function Select<T>(s: seq<T>, p: T -> bool, keep: bool): (r: seq<T>)
    ensures |r| <= |s|
  {
    if s == [] then []
    else Select(s[..|s| - 1], p, keep) + (if p(s[|s| - 1]) == keep then [s[|s| - 1]] else [])
  }

  /** Select keeps only elements of s, and only those that pass the test. */
  lemma {:induction false} SelectMembers<T>(s: seq<T>, p: T -> bool, keep: bool)
    ensures forall x :: x in Select(s, p, keep) ==> x in s && p(x) == keep
  {
    if s != [] {
      var front := s[..|s| - 1];
      SelectMembers(front, p, keep);
      assert forall x :: x in front ==> x in s;
    }
  }

  /** The positions in s of the elements Select keeps, in increasing order. */
  function Positions<T>(s: seq<T>, p: T -> bool, keep: bool): (r: seq<nat>)
    ensures forall k :: 0 <= k < |r| ==> r[k] < |s|
  {
    if s == [] then []
    else Positions(s[..|s| - 1], p, keep) + (if p(s[|s| - 1]) == keep then [|s| - 1] else [])
  }

  /** The k-th kept element is the element at the k-th position. */
  lemma {:induction false} PositionsMatchSelect<T>(s: seq<T>, p: T -> bool, keep: bool)
    ensures |Positions(s, p, keep)| == |Select(s, p, keep)|
    ensures forall k :: 0 <= k < |Positions(s, p, keep)| ==> Select(s, p, keep)[k] == s[Positions(s, p, keep)[k]]
  {
    if s != [] {
      var front := s[..|s| - 1];
      PositionsMatchSelect(front, p, keep);
      var r, q := Positions(front, p, keep), Select(front, p, keep);
      forall k | 0 <= k < |Positions(s, p, keep)|
        ensures Select(s, p, keep)[k] == s[Positions(s, p, keep)[k]]
      {
        if k < |r| {
          assert Positions(s, p, keep)[k] == r[k];
          assert Select(s, p, keep)[k] == q[k];
          assert front[r[k]] == s[r[k]];
        }
      }
    }
  }

  /** Every recorded position holds an element that passes the test. */
  lemma {:induction false} PositionsSound<T>(s: seq<T>, p: T -> bool, keep: bool)
    ensures forall k :: 0 <= k < |Positions(s, p, keep)| ==> p(s[Positions(s, p, keep)[k]]) == keep
  {
    var r := Positions(s, p, keep);
    PositionsMatchSelect(s, p, keep);
    SelectMembers(s, p, keep);
    forall k | 0 <= k < |r|
      ensures p(s[r[k]]) == keep
    {
      assert Select(s, p, keep)[k] in Select(s, p, keep);
    }
  }

  /** Positions are strictly increasing, so the kept elements keep their order in s. */
  lemma {:induction false} PositionsIncreasing<T>(s: seq<T>, p: T -> bool, keep: bool)
    ensures forall j, k :: 0 <= j < k < |Positions(s, p, keep)| ==> Positions(s, p, keep)[j] < Positions(s, p, keep)[k]
  {
    if s != [] {
      var front := s[..|s| - 1];
      PositionsIncreasing(front, p, keep);
    }
  }

  /** Every element that passes the test is kept: no position is skipped. */
  lemma {:induction false} PositionsComplete<T>(s: seq<T>, p: T -> bool, keep: bool)
    ensures forall i :: 0 <= i < |s| && p(s[i]) == keep ==> i in Positions(s, p, keep)
  {
    if s != [] {
      var front := s[..|s| - 1];
      PositionsComplete(front, p, keep);
      assert forall i :: 0 <= i < |s| - 1 ==> front[i] == s[i];
    }
  }

  /** f applied to every element of s, in order. */
  function Apply<T, U>(s: seq<T>, f: T -> U): (r: seq<U>)
    ensures |r| == |s|
    ensures forall k :: 0 <= k < |s| ==> r[k] == f(s[k])
  {
    seq(|s|, k requires 0 <= k < |s| => f(s[k]))
  }

  lemma ApplySnoc<T, U>(s: seq<T>, x: T, f: T -> U)
    ensures multiset(Apply(s + [x], f)) == multiset(Apply(s, f)) + multiset{f(x)}
  {
    assert Apply(s + [x], f) == Apply(s, f) + [f(x)];
  }

  /** Whatever is read off the elements, the two parts of a selection together read off exactly what s does. */
  lemma {:induction false} SelectApplyPartition<T, U>(s: seq<T>, p: T -> bool, f: T -> U)
    ensures multiset(Apply(Select(s, p, true), f)) + multiset(Apply(Select(s, p, false), f)) == multiset(Apply(s, f))
  {
    if s != [] {
      var front, x := s[..|s| - 1], s[|s| - 1];
      var yes, no := Select(front, p, true), Select(front, p, false);
      SelectApplyPartition(front, p, f);
      ghost var a, b, c := multiset(Apply(yes, f)), multiset(Apply(no, f)), multiset(Apply(front, f));
      assert s == front + [x];
      ApplySnoc(front, x, f);
      assert multiset(Apply(s, f)) == c + multiset{f(x)};
      SelectSnoc(front, x, p, true);
      SelectSnoc(front, x, p, false);
      if p(x) {
        assert Select(s, p, true) == yes + [x] && Select(s, p, false) == no;
        ApplySnoc(yes, x, f);
        assert multiset(Apply(Select(s, p, true), f)) == a + multiset{f(x)};
      } else {
        assert Select(s, p, true) == yes && Select(s, p, false) == no + [x];
        ApplySnoc(no, x, f);
        assert multiset(Apply(Select(s, p, false), f)) == b + multiset{f(x)};
      }
    }
  }

  function Same<T>(x: T): T {
    x
  }

  lemma ApplySame<T>(s: seq<T>)
    ensures Apply(s, Same) == s
  {
  }

  /** Selecting by keep == true and by keep == false splits s: every element lands in exactly one part. */
  lemma SelectPartition<T>(s: seq<T>, p: T -> bool)
    ensures multiset(Select(s, p, true)) + multiset(Select(s, p, false)) == multiset(s)
  {
    SelectApplyPartition(s, p, Same);
    ApplySame(Select(s, p, true));
    ApplySame(Select(s, p, false));
    ApplySame(s);
  }

  /** Appending one element extends Select by that element exactly when it passes the test. */
  lemma SelectSnoc<T>(s: seq<T>, x: T, p: T -> bool, keep: bool)
    ensures Select(s + [x], p, keep) == Select(s, p, keep) + (if p(x) == keep then [x] else [])
  {
    assert (s + [x])[..|s + [x]| - 1] == s;
  }

  /** When the test holds exactly on the first n positions, Select keeps the first n elements... */
  lemma {:induction false} SelectKeepsPrefix<T>(s: seq<T>, p: T -> bool, n: nat)
    requires n <= |s|
    requires forall k :: 0 <= k < |s| ==> (p(s[k]) <==> k < n)
    ensures Select(s, p, true) == s[..n]
  {
    if s != [] {
      var front, x := s[..|s| - 1], s[|s| - 1];
      var m := if n < |s| then n else |s| - 1;
      forall k | 0 <= k < |front|
        ensures p(front[k]) <==> k < m
      {
        assert front[k] == s[k];
      }
      SelectKeepsPrefix(front, p, m);
      assert s == front + [x];
      SelectSnoc(front, x, p, true);
      if n == |s| {
        assert front[..m] == front;
        assert s[..n] == s;
      } else {
        assert !p(x);
        assert front[..n] == s[..n];
      }
    }
  }

  /** ... and drops the rest. */
  lemma {:induction false} SelectDropsSuffix<T>(s: seq<T>, p: T -> bool, n: nat)
    requires n <= |s|
    requires forall k :: 0 <= k < |s| ==> (p(s[k]) <==> k < n)
    ensures Select(s, p, false) == s[n..]
  {
    if s != [] {
      var front, x := s[..|s| - 1], s[|s| - 1];
      var m := if n < |s| then n else |s| - 1;
      assert forall k :: 0 <= k < |front| ==> (p(front[k]) <==> k < m);
      SelectDropsSuffix(front, p, m);
      if n < |s| {
        assert front[n..] + [x] == s[n..];
      }
    }
  }
}
