/** The order in which the scheduler and the router compare identifiers: byte-wise string
    comparison, which for UTF-8 text is the lexicographic order of the code points. */
module Ordering {

  predicate Less(a: string, b: string) {
    if b == [] then false
    else if a == [] then true
    else a[0] < b[0] || (a[0] == b[0] && Less(a[1..], b[1..]))
  }

  predicate AtMost(a: string, b: string) {
    a == b || Less(a, b)
  }

  lemma {:induction false} LessIrreflexive(a: string)
    ensures !Less(a, a)
  {
    if a != [] { LessIrreflexive(a[1..]); }
  }

  lemma {:induction false} LessTransitive(a: string, b: string, c: string)
    requires Less(a, b) && Less(b, c)
    ensures Less(a, c)
  {
    if a != [] && a[0] == b[0] && b[0] == c[0] { LessTransitive(a[1..], b[1..], c[1..]); }
  }

  lemma {:induction false} LessTrichotomy(a: string, b: string)
    ensures a == b || Less(a, b) || Less(b, a)
  {
    if a != [] && b != [] && a[0] == b[0] {
      LessTrichotomy(a[1..], b[1..]);
      if a[1..] == b[1..] { assert a == [a[0]] + a[1..] && b == [b[0]] + b[1..]; }
    }
  }

  lemma AtMostAntisymmetric(a: string, b: string)
    requires AtMost(a, b) && AtMost(b, a)
    ensures a == b
  {
    if a != b {
      LessTransitive(a, b, a);
      LessIrreflexive(a);
    }
  }

  lemma AtMostTransitive(a: string, b: string, c: string)
    requires AtMost(a, b) && AtMost(b, c)
    ensures AtMost(a, c)
  {
    if Less(a, b) && Less(b, c) { LessTransitive(a, b, c); }
  }

  ghost predicate IsLeast(x: string, s: set<string>) {
    x in s && forall y | y in s :: AtMost(x, y)
  }

  lemma {:induction false} LeastExists(s: set<string>)
    requires s != {}
    ensures exists x :: IsLeast(x, s)
    decreases s
  {
    var y :| y in s;
    var rest := s - {y};
    if rest == {} {
      assert s == {y} && IsLeast(y, s);
    } else {
      LeastExists(rest);
      var x :| IsLeast(x, rest);
      LessTrichotomy(x, y);
      if AtMost(x, y) {
        assert IsLeast(x, s);
      } else {
        forall z | z in s ensures AtMost(y, z) {
          if z != y { AtMostTransitive(y, x, z); }
        }
        assert IsLeast(y, s);
      }
    }
  }

  lemma LeastUnique(x: string, y: string, s: set<string>)
    requires IsLeast(x, s) && IsLeast(y, s)
    ensures x == y
  {
    AtMostAntisymmetric(x, y);
  }

  ghost function Least(s: set<string>): (x: string)
    requires s != {}
    ensures IsLeast(x, s)
  {
    LeastExists(s);
    var x :| IsLeast(x, s);
    x
  }

  ghost predicate Sorted(s: seq<string>) {
    forall i, j | 0 <= i < j < |s| :: AtMost(s[i], s[j])
  }

  /** What the standard library's string sort promises: the same strings, in order. */
  method SortStrings(s: seq<string>) returns (r: seq<string>)
    ensures Sorted(r)
    ensures multiset(r) == multiset(s)
  {
    r := [];
    for i := 0 to |s|
      invariant Sorted(r)
      invariant multiset(r) == multiset(s[..i])
    {
      r := InsertSorted(r, s[i]);
      assert s[..i + 1] == s[..i] + [s[i]];
    }
    assert s[..|s|] == s;
  }

  method InsertSorted(s: seq<string>, x: string) returns (r: seq<string>)
    requires Sorted(s)
    ensures Sorted(r)
    ensures multiset(r) == multiset(s) + multiset{x}
  {
    var i := 0;
    while i < |s| && Less(s[i], x)
      invariant 0 <= i <= |s|
      invariant forall j | 0 <= j < i :: Less(s[j], x)
    {
      i := i + 1;
    }
    r := s[..i] + [x] + s[i..];
    forall a, b | 0 <= a < b < |r| ensures AtMost(r[a], r[b]) {
      if i < |s| { LessTrichotomy(s[i], x); }
      if b > i {
        if a == i { AtMostTransitive(x, s[i], s[b - 1]); }
      }
    }
    assert s == s[..i] + s[i..];
  }

  lemma HeadIsAtMost(a: seq<string>, b: seq<string>)
    requires Sorted(a) && a != [] && b != [] && multiset(a) == multiset(b)
    ensures AtMost(a[0], b[0])
  {
    assert b[0] in multiset(b);
    assert b[0] in a;
    var j :| 0 <= j < |a| && a[j] == b[0];
  }

  lemma TailBag(a: seq<string>)
    requires a != []
    ensures multiset(a[1..]) == multiset(a) - multiset{a[0]}
  {
    assert a == [a[0]] + a[1..];
  }

  /** A sorted sequence is determined by its elements, so its order never depends on how the input was ordered. */
  lemma {:induction false} SortedUnique(a: seq<string>, b: seq<string>)
    requires Sorted(a) && Sorted(b) && multiset(a) == multiset(b)
    ensures a == b
  {
    assert |multiset(a)| == |a| && |multiset(b)| == |b|;
    if a != [] {
      HeadIsAtMost(a, b);
      HeadIsAtMost(b, a);
      AtMostAntisymmetric(a[0], b[0]);
      TailBag(a);
      TailBag(b);
      SortedUnique(a[1..], b[1..]);
      assert a == [a[0]] + a[1..] && b == [b[0]] + b[1..];
    }
  }

  lemma SortedHeadIsLeast(s: seq<string>)
    requires s != [] && Sorted(s)
    ensures IsLeast(s[0], set x | x in s)
  {
  }

  // ---- the sorted form of a bag of strings

  ghost function Elements(b: multiset<string>): (s: set<string>)
    ensures forall x :: x in s <==> x in b
  {
    set x | x in b
  }

  ghost function SortedBag(b: multiset<string>): seq<string>
    decreases |b|
  {
    if |b| == 0 then []
    else
      assert exists x :: x in b;
      assert Elements(b) != {};
      var x := Least(Elements(b));
      [x] + SortedBag(b - multiset{x})
  }

  lemma {:induction false} SortedIsSortedBag(s: seq<string>)
    requires Sorted(s)
    ensures s == SortedBag(multiset(s))
  {
    if s != [] {
      assert s == [s[0]] + s[1..];
      assert multiset(s) - multiset{s[0]} == multiset(s[1..]);
      assert IsLeast(s[0], Elements(multiset(s)));
      LeastUnique(s[0], Least(Elements(multiset(s))), Elements(multiset(s)));
      SortedIsSortedBag(s[1..]);
    }
  }
}
