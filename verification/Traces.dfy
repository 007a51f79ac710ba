/** Concrete runs: one request moving alone from where the others are. */
module Traces {
  import opened Protocol

  ghost function Solo(cfg: Config, sh: Shared, pc: Pc, ch: Choice, n: nat): (Shared, Pc)
    decreases n
  {
    if n == 0 then (sh, pc)
    else
      var (next, pc') := Act(cfg, sh, pc, ch);
      Solo(cfg, next, pc', ch, n - 1)
  }

  function Many(r: nat, ch: Choice, n: nat): seq<Step> {
    seq(n, _ => Advance(r, ch))
  }

  lemma ExecAfter(cfg: Config, steps: seq<Step>, step: Step)
    ensures Exec(cfg, steps + [step]) == Do(cfg, Exec(cfg, steps), step)
  {
    assert (steps + [step])[..|steps|] == steps;
  }

  /** One advance of request `r`. */
  ghost predicate Moves(cfg: Config, s: State, t: State, r: nat, ch: Choice) {
    r in s.reqs && var (sh, pc) := Act(cfg, s.sh, s.reqs[r], ch); t == State(sh, s.reqs[r := pc])
  }

  lemma AdvanceMoves(cfg: Config, steps: seq<Step>, r: nat, ch: Choice)
    requires r in Exec(cfg, steps).reqs
    ensures Moves(cfg, Exec(cfg, steps), Exec(cfg, steps + [Advance(r, ch)]), r, ch)
  {
    ExecAfter(cfg, steps, Advance(r, ch));
  }

  /** `n` advances of request `r`. */
  ghost predicate MovesAlone(cfg: Config, s: State, t: State, r: nat, ch: Choice, n: nat) {
    r in s.reqs && var (sh, pc) := Solo(cfg, s.sh, s.reqs[r], ch, n); t == State(sh, s.reqs[r := pc])
  }

  lemma MovesChain(cfg: Config, s: State, m: State, t: State, r: nat, ch: Choice, n: nat)
    requires Moves(cfg, s, m, r, ch) && MovesAlone(cfg, m, t, r, ch, n)
    ensures MovesAlone(cfg, s, t, r, ch, n + 1)
  {
    var (sh, pc) := Act(cfg, s.sh, s.reqs[r], ch);
    SoloStep(cfg, s.sh, s.reqs[r], ch, sh, pc, n);
    assert s.reqs[r := pc][r := t.reqs[r]] == s.reqs[r := t.reqs[r]];
  }

  lemma MovesNowhere(cfg: Config, s: State, r: nat, ch: Choice)
    requires r in s.reqs
    ensures MovesAlone(cfg, s, s, r, ch, 0)
  {
    assert s.reqs[r := s.reqs[r]] == s.reqs;
  }

  lemma {:induction false} AloneRuns(cfg: Config, steps: seq<Step>, r: nat, ch: Choice, n: nat)
    requires r in Exec(cfg, steps).reqs
    ensures MovesAlone(cfg, Exec(cfg, steps), Exec(cfg, steps + Many(r, ch, n)), r, ch, n)
    decreases n
  {
    hide Do, Act;
    if n == 0 {
      assert steps + Many(r, ch, n) == steps;
      MovesNowhere(cfg, Exec(cfg, steps), r, ch);
    } else {
      var next := steps + [Advance(r, ch)];
      AdvanceMoves(cfg, steps, r, ch);
      AloneRuns(cfg, next, r, ch, n - 1);
      assert steps + Many(r, ch, n) == next + Many(r, ch, n - 1);
      MovesChain(cfg, Exec(cfg, steps), Exec(cfg, next), Exec(cfg, steps + Many(r, ch, n)), r, ch, n - 1);
    }
  }

  lemma SoloRuns(cfg: Config, steps: seq<Step>, r: nat, ch: Choice, n: nat)
    requires r in Exec(cfg, steps).reqs
    ensures var s := Exec(cfg, steps);
            var (sh, pc) := Solo(cfg, s.sh, s.reqs[r], ch, n);
            Exec(cfg, steps + Many(r, ch, n)) == State(sh, s.reqs[r := pc])
  {
    AloneRuns(cfg, steps, r, ch, n);
  }

  /** What every step keeps, every continuation keeps. */
  lemma {:induction false} Persists(cfg: Config, steps: seq<Step>, more: seq<Step>, holds: State -> bool)
    requires holds(Exec(cfg, steps))
    requires forall s, step :: holds(s) ==> holds(Do(cfg, s, step))
    ensures holds(Exec(cfg, steps + more))
    decreases |more|
  {
    hide Do, Exec;
    if more == [] {
      assert steps + more == steps;
    } else {
      var rest, last := more[..|more| - 1], more[|more| - 1];
      Persists(cfg, steps, rest, holds);
      ExecAfter(cfg, steps + rest, last);
      assert steps + more == steps + rest + [last];
    }
  }

  /** One step alone, then the rest. */
  lemma SoloStep(cfg: Config, sh: Shared, pc: Pc, ch: Choice, next: Shared, pc': Pc, n: nat)
    requires Act(cfg, sh, pc, ch) == (next, pc')
    ensures Solo(cfg, sh, pc, ch, n + 1) == Solo(cfg, next, pc', ch, n)
  {
  }

  lemma {:induction false} SoloChain(cfg: Config, sh: Shared, pc: Pc, ch: Choice, m: nat, n: nat)
    ensures Solo(cfg, sh, pc, ch, m + n) == Solo(cfg, Solo(cfg, sh, pc, ch, m).0, Solo(cfg, sh, pc, ch, m).1, ch, n)
    decreases m
  {
    if m > 0 {
      var (next, pc') := Act(cfg, sh, pc, ch);
      SoloChain(cfg, next, pc', ch, m - 1, n);
    }
  }
}
