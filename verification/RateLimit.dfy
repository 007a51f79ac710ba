/** The sliding-window limiter in front of every mutating request: a slice of accepted times, compacted in place. */
module RateLimit {

  const WINDOW: int := 60_000_000_000 // one minute in nanoseconds
  const LIMIT := 120

  /** The times in `ts` strictly after `cut`, in order. */
  function After(ts: seq<int>, cut: int): (r: seq<int>)
    ensures |r| <= |ts|
  {
    if ts == [] then []
    else
      var rest := After(ts[..|ts| - 1], cut);
      if ts[|ts| - 1] > cut then rest + [ts[|ts| - 1]] else rest
  }

  datatype Verdict = Verdict(allowed: bool, kept: seq<int>)

  function Decide(ts: seq<int>, now: int): Verdict {
    var keep := After(ts, now - WINDOW);
    if |keep| >= LIMIT then Verdict(false, keep) else Verdict(true, keep + [now])
  }

  class Limiter {
    const mutations: array<int>
    var count: nat

    ghost predicate Valid() reads this {
      mutations.Length == LIMIT && count <= LIMIT
    }

    ghost function Times(): seq<int>
      reads this, mutations
      requires Valid()
    {
      mutations[..count]
    }

    constructor ()
      ensures Valid() && fresh(mutations) && Times() == []
    {
      mutations := new int[LIMIT];
      count := 0;
    }

    method Allow(now: int) returns (ok: bool)
      requires Valid()
      modifies this`count, mutations
      ensures Valid()
      ensures Verdict(ok, Times()) == Decide(old(Times()), now)
    {
      hide After;
      var cut := now - WINDOW;
      ghost var was := Times();
      assert After(was[..0], cut) == [];
      var keep := 0;
      for i := 0 to count
        invariant Valid() && count == |was| && 0 <= keep <= i
        invariant mutations[..keep] == After(was[..i], cut)
        invariant mutations[i..count] == was[i..]
      {
        var t := mutations[i];
        assert t == was[i];
        assert was[..i + 1] == was[..i] + [t];
        AfterAppend(was[..i], t, cut);
        if t > cut {
          mutations[keep] := t;
          keep := keep + 1;
        }
      }
      assert was[..count] == was;
      count := keep;
      if keep >= LIMIT {
        return false;
      }
      mutations[count] := now;
      count := count + 1;
      return true;
    }
  }

  // ---- whole runs of calls

  ghost predicate Nondecreasing(calls: seq<int>) {
    forall i, j | 0 <= i <= j < |calls| :: calls[i] <= calls[j]
  }

  /** What the limiter holds after the calls, starting empty. */
  ghost function Held(calls: seq<int>): seq<int> {
    if calls == [] then [] else Decide(Held(calls[..|calls| - 1]), calls[|calls| - 1]).kept
  }

  /** The calls that were let through. */
  ghost function Accepted(calls: seq<int>): seq<int> {
    if calls == [] then []
    else
      var now := calls[|calls| - 1];
      var before := calls[..|calls| - 1];
      if Decide(Held(before), now).allowed then Accepted(before) + [now] else Accepted(before)
  }

  /** Accepted calls in the window (x - 60s, x]. */
  ghost function InWindow(ts: seq<int>, x: int): seq<int> {
    if ts == [] then []
    else
      var t := ts[|ts| - 1];
      var rest := InWindow(ts[..|ts| - 1], x);
      if x - 60_000_000_000 < t <= x then rest + [t] else rest
  }

  lemma AfterAppend(ts: seq<int>, x: int, cut: int)
    ensures After(ts + [x], cut) == if x > cut then After(ts, cut) + [x] else After(ts, cut)
  {
    assert (ts + [x])[..|ts|] == ts;
  }

  lemma {:induction false} AfterTwice(ts: seq<int>, a: int, b: int)
    requires a <= b
    ensures After(After(ts, a), b) == After(ts, b)
  {
    if ts != [] {
      var last := ts[|ts| - 1];
      var rest := ts[..|ts| - 1];
      AfterTwice(rest, a, b);
      AfterAppend(After(rest, a), last, b);
    }
  }

  /** One more call: the limiter forgets what left the window and decides on what remains. */
  lemma NextCall(calls: seq<int>, now: int)
    ensures var v := Decide(Held(calls), now);
            Held(calls + [now]) == v.kept &&
            Accepted(calls + [now]) == if v.allowed then Accepted(calls) + [now] else Accepted(calls)
  {
    assert (calls + [now])[..|calls|] == calls;
  }

  lemma PrefixNondecreasing(calls: seq<int>, last: int, now: int)
    requires Nondecreasing(calls + [last] + [now])
    ensures Nondecreasing(calls + [last]) && last <= now
  {
    var all := calls + [last] + [now];
    assert all[|calls|] == last && all[|calls| + 1] == now;
    forall i, j | 0 <= i <= j < |calls + [last]| ensures (calls + [last])[i] <= (calls + [last])[j] {
      assert all[i] <= all[j];
    }
  }

  lemma {:induction false} AcceptedNotLater(calls: seq<int>, now: int)
    requires Nondecreasing(calls + [now])
    ensures forall i | 0 <= i < |Accepted(calls)| :: Accepted(calls)[i] <= now
    decreases |calls|
  {
    if calls != [] {
      var before, last := calls[..|calls| - 1], calls[|calls| - 1];
      assert calls == before + [last];
      PrefixNondecreasing(before, last, now);
      NextCall(before, last);
      AcceptedNotLater(before, last);
    }
  }

  lemma StepInWindow(held: seq<int>, accepted: seq<int>, last: int, now: int)
    requires last <= now
    requires After(held, last - WINDOW) == After(accepted, last - WINDOW)
    ensures var v := Decide(held, last);
            After(v.kept, now - WINDOW) == After(if v.allowed then accepted + [last] else accepted, now - WINDOW)
  {
    var cut, later := last - WINDOW, now - WINDOW;
    AfterTwice(held, cut, later);
    AfterTwice(accepted, cut, later);
    AfterAppend(After(held, cut), last, later);
    AfterAppend(accepted, last, later);
  }

  /** What the limiter still holds when a call at `now` arrives is what it accepted in the last minute. */
  lemma {:induction false} HeldInWindow(calls: seq<int>, now: int)
    requires Nondecreasing(calls + [now])
    ensures After(Held(calls), now - WINDOW) == After(Accepted(calls), now - WINDOW)
    decreases |calls|
  {
    if calls != [] {
      var before, last := calls[..|calls| - 1], calls[|calls| - 1];
      assert calls == before + [last];
      PrefixNondecreasing(before, last, now);
      NextCall(before, last);
      HeldInWindow(before, last);
      StepInWindow(Held(before), Accepted(before), last, now);
    }
  }

  /** After every call the slice is exactly the accepted times that are still inside the window. */
  lemma HeldIsWindow(calls: seq<int>, now: int)
    requires Nondecreasing(calls + [now])
    ensures Held(calls + [now]) == After(Accepted(calls + [now]), now - WINDOW)
  {
    NextCall(calls, now);
    HeldInWindow(calls, now);
    AfterAppend(Accepted(calls), now, now - WINDOW);
  }

  lemma {:induction false} WindowWithinRecent(ts: seq<int>, x: int, now: int)
    requires forall i | 0 <= i < |ts| :: ts[i] <= now
    requires now <= x
    ensures |InWindow(ts, x)| <= |After(ts, now - WINDOW)|
    ensures x == now ==> InWindow(ts, x) == After(ts, now - WINDOW)
  {
    if ts != [] { WindowWithinRecent(ts[..|ts| - 1], x, now); }
  }

  lemma WindowAppend(ts: seq<int>, t: int, x: int)
    ensures InWindow(ts + [t], x) == if x - WINDOW < t <= x then InWindow(ts, x) + [t] else InWindow(ts, x)
  {
    assert (ts + [t])[..|ts|] == ts;
  }

  lemma WindowStaysBounded(held: seq<int>, accepted: seq<int>, now: int, x: int)
    requires After(held, now - WINDOW) == After(accepted, now - WINDOW)
    requires |InWindow(accepted, x)| <= LIMIT && forall i | 0 <= i < |accepted| :: accepted[i] <= now
    ensures |InWindow(if Decide(held, now).allowed then accepted + [now] else accepted, x)| <= LIMIT
  {
    WindowAppend(accepted, now, x);
    if x >= now { WindowWithinRecent(accepted, x, now); }
  }

  /** No minute-long window, wherever it ends, holds more than 120 accepted mutations. */
  lemma {:induction false} RateBound(calls: seq<int>, x: int)
    requires Nondecreasing(calls)
    ensures |InWindow(Accepted(calls), x)| <= 120
    decreases |calls|
  {
    if calls != [] {
      var before, now := calls[..|calls| - 1], calls[|calls| - 1];
      assert calls == before + [now];
      RateBound(before, x);
      HeldInWindow(before, now);
      AcceptedNotLater(before, now);
      WindowStaysBounded(Held(before), Accepted(before), now, x);
      NextCall(before, now);
    }
  }

  /** A call is refused exactly when the window that ends with it already holds 120 accepted mutations. */
  lemma RefusedExactlyWhenFull(calls: seq<int>, now: int)
    requires Nondecreasing(calls + [now])
    ensures !Decide(Held(calls), now).allowed <==> |InWindow(Accepted(calls), now)| == 120
  {
    HeldInWindow(calls, now);
    AcceptedNotLater(calls, now);
    WindowWithinRecent(Accepted(calls), now, now);
    forall i, j | 0 <= i <= j < |calls| ensures calls[i] <= calls[j] {
      assert (calls + [now])[i] <= (calls + [now])[j];
    }
    RateBound(calls, now);
  }
}
