/** Cardinality facts about finite sets of positions. */
module Counting {
  lemma {:induction false} SubsetSize<T>(a: set<T>, b: set<T>)
    requires a <= b
    ensures |a| <= |b|
    decreases a
  {
    if a != {} {
      var x :| x in a;
      SubsetSize(a - {x}, b - {x});
    }
  }

  lemma {:induction false} RangeSize(s: set<nat>, lo: nat, hi: nat)
    requires lo <= hi && forall k <- s :: lo <= k <= hi
    ensures |s| <= hi - lo + 1
    decreases hi - lo
  {
    if lo == hi {
      SubsetSize(s, {lo});
    } else {
      RangeSize(s - {hi}, lo, hi - 1);
      SubsetSize(s, (s - {hi}) + {hi});
    }
  }

  ghost predicate IsLeast(s: set<nat>, k: nat) {
    k in s && forall x <- s :: k <= x
  }

  ghost predicate IsGreatest(s: set<nat>, k: nat) {
    k in s && forall x <- s :: x <= k
  }

  lemma {:induction false} Extremes(s: set<nat>) returns (lo: nat, hi: nat)
    requires s != {}
    ensures IsLeast(s, lo) && IsGreatest(s, hi)
    decreases s
  {
    var x :| x in s;
    var rest := s - {x};
    assert forall y <- s :: y == x || y in rest;
    lo, hi := x, x;
    if rest != {} {
      var l, h := Extremes(rest);
      lo, hi := if x < l then x else l, if h < x then x else h;
    }
  }

  function Elements<T>(s: seq<T>): set<T> {
    set x | x in s
  }

  ghost predicate Distinct<T>(s: seq<T>) {
    forall a, b :: 0 <= a < b < |s| ==> s[a] != s[b]
  }

  lemma {:induction false} DistinctSize<T>(s: seq<T>)
    requires Distinct(s)
    ensures |Elements(s)| == |s|
    decreases |s|
  {
    if s == [] {
      assert Elements(s) == {};
    } else {
      var n := |s| - 1;
      DistinctSize(s[..n]);
      assert s == s[..n] + [s[n]];
      assert Elements(s) == Elements(s[..n]) + {s[n]};
    }
  }
}
