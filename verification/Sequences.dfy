/** Sequences without repetition, and counting. */
module Sequences {

  ghost predicate NoRepeat<T>(s: seq<T>) {
    forall i, j | 0 <= i < j < |s| :: s[i] != s[j]
  }

  ghost predicate AtMostOnce<T(!new)>(b: multiset<T>) {
    forall x :: b[x] <= 1
  }

  lemma {:induction false} NoRepeatIsAtMostOnce<T(!new)>(s: seq<T>)
    ensures NoRepeat(s) <==> AtMostOnce(multiset(s))
  {
    if s != [] {
      var rest, last := s[..|s| - 1], s[|s| - 1];
      NoRepeatIsAtMostOnce(rest);
      assert s == rest + [last];
      if NoRepeat(s) {
        assert NoRepeat(rest);
        assert last !in rest;
      } else if AtMostOnce(multiset(s)) {
        assert multiset(s) == multiset(rest) + multiset{last};
        assert multiset(s)[last] <= 1;
        forall x ensures multiset(rest)[x] <= 1 { assert multiset(s)[x] <= 1; }
      }
    }
  }

  lemma {:induction false} NoRepeatCounts<T>(s: seq<T>)
    requires NoRepeat(s)
    ensures |set x | x in s| == |s|
  {
    if s != [] {
      var rest := s[..|s| - 1];
      NoRepeatCounts(rest);
      assert (set x | x in s) == (set x | x in rest) + {s[|s| - 1]};
    }
  }

  lemma {:induction false} SubsetIsSmaller<T>(a: set<T>, b: set<T>)
    requires a <= b
    ensures |a| <= |b|
    ensures |a| == |b| ==> a == b
  {
    if a != {} {
      var x :| x in a;
      SubsetIsSmaller(a - {x}, b - {x});
    }
  }

  lemma Pigeonhole<T>(s: seq<T>, holes: set<T>) returns (i: nat, j: nat)
    requires |s| > |holes| && forall x | x in s :: x in holes
    ensures i < j < |s| && s[i] == s[j]
  {
    if NoRepeat(s) {
      NoRepeatCounts(s);
      SubsetIsSmaller((set x | x in s), holes);
      assert false;
    }
    i, j :| 0 <= i < j < |s| && s[i] == s[j];
  }

  lemma {:induction false} RepeatCountsLess<T>(s: seq<T>)
    ensures |set x | x in s| <= |s|
    ensures |set x | x in s| == |s| ==> NoRepeat(s)
  {
    if s != [] {
      var rest, last := s[..|s| - 1], s[|s| - 1];
      RepeatCountsLess(rest);
      assert (set x | x in s) == (set x | x in rest) + {last};
      if |set x | x in s| == |s| {
        assert last !in rest;
      }
    }
  }
}
