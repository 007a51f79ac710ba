/** Every request ends; and from a moment at which all requests are done, results and grants can bring the run to its end
    exactly when no approval that a task still needs has expired. */
module Ending {
  import opened Model
  import opened Control
  import opened Actions
  import opened Protocol
  import opened CommandSafety
  import opened ScheduleSafety
  import opened Progress
  import opened NotStuck
  import opened Completion
  import opened Expiry
  import Agreement
  import ApprovalSafety
  import Traces

  // ---- a request's distance to its end

  function Tail(cfg: Config): nat { |cfg.plan| + 5 }

  /** From task `i` on. */
  function PassRank(cfg: Config, i: nat): nat {
    if i < |cfg.plan| then 12 * (|cfg.plan| - i) + Tail(cfg) else Tail(cfg)
  }

  function ReadRank(cfg: Config): nat { 1 + PassRank(cfg, 0) }

  function NextRank(cfg: Config, next: Next): nat {
    match next
    case ToSchedule(_) => ReadRank(cfg)
    case ToWalk(_, i, _) => PassRank(cfg, i)
    case ToEnd(_, _) => Tail(cfg)
    case _ => 0
  }

  function StageRank(stage: JobStage): nat {
    match stage
    case Probe => 11
    case Create => 10
    case Rotating => 9
    case LogRequest(_) => 8
    case CallOut => 7
    case Mark(_) => 6
    case LogMark(_, _) => 5
    case _ => 0
  }

  function CheckRank(cfg: Config, check: CheckStage): nat {
    match check
    case Picking => ReadRank(cfg) + 6
    case Poll(_) => ReadRank(cfg) + 5
    case Polled(_) => ReadRank(cfg) + 4
    case Unpoll(_) => 1
    case Settle(_, _) => ReadRank(cfg) + 3
    case LogSettle(_, _) => ReadRank(cfg) + 2
    case CheckAll(i, _) => (if i < |cfg.plan| then |cfg.plan| - i else 0) + 2
  }

  function DecideRank(cfg: Config, decide: DecideStage): nat {
    match decide
    case ReadRequest(_) => ReadRank(cfg) + 4
    case Answered(_) => 1
    case Claiming(_) => ReadRank(cfg) + 3
    case LogDecision(_) => ReadRank(cfg) + 2
    case Releasing => 1
  }

  function Rank(cfg: Config, pc: Pc): nat {
    match pc
    case Done => 0
    case Notes(_, next, _) => 1 + NextRank(cfg, next)
    case InPass(_, Reading) => ReadRank(cfg)
    case InPass(_, Routing(_, i)) => PassRank(cfg, i)
    case InPass(_, Asking(_, _)) => Tail(cfg) + 1
    case InJob(job, stage) => StageRank(stage) + (if job.DispatchJob? then PassRank(cfg, job.i + 1) else 0)
    case InCheck(_, check) => CheckRank(cfg, check)
    case InDecision(_, _, decide) => DecideRank(cfg, decide)
    case InReconcile(_) => 0
  }

  lemma EndRank(cfg: Config, ok: bool, cont: Cont)
    requires cont != FromReconcile
    ensures Rank(cfg, End(ok, cont)) < Tail(cfg)
  {
  }

  lemma WalkRank(cfg: Config, seen: seq<Event>, i: nat, cont: Cont)
    requires cont != FromReconcile
    ensures Rank(cfg, Walk(cfg, seen, i, cont)) <= PassRank(cfg, i)
  {
    WalkStops(cfg, seen, i, cont);
    EndRank(cfg, true, cont);
    EndRank(cfg, false, cont);
  }

  lemma GotoRank(cfg: Config, next: Next)
    requires SmoothNext(next)
    ensures Rank(cfg, Goto(cfg, next)) <= NextRank(cfg, next)
  {
    match next
    case ToWalk(seen, i, cont) => WalkRank(cfg, seen, i, cont);
    case ToEnd(ok, cont) => EndRank(cfg, ok, cont);
    case _ =>
  }

  lemma PassFalls(cfg: Config, cont: Cont, pass: PassStage, out: Outcome)
    requires cont != FromReconcile && PassOk(cfg, pass)
    ensures Rank(cfg, AfterPass(cfg, cont, pass, out)) < Rank(cfg, InPass(cont, pass))
  {
    EndRank(cfg, true, cont);
    EndRank(cfg, false, cont);
    if out.Events? { WalkRank(cfg, out.events, 0, cont); }
  }

  lemma JobFalls(cfg: Config, sh: Shared, job: Job, stage: JobStage, ch: Choice)
    requires SmoothJob(cfg, job, stage) && SmoothChoice(ch)
    ensures var out := Effect(cfg, sh, JobOp(cfg, job, stage), ch).1;
            Rank(cfg, AfterJob(cfg, job, stage, out)) < Rank(cfg, InJob(job, stage))
  {
    hide Effect, Walk, Goto;
    GotoRank(cfg, Proceed(job));
    GotoRank(cfg, Fail(job));
  }

  lemma CheckFalls(cfg: Config, ctl: Ctl, task: string, check: CheckStage, out: Outcome, pick: string)
    requires SmoothCheck(ctl, task, check)
    ensures Rank(cfg, AfterCheck(cfg, task, check, out, pick)) < Rank(cfg, InCheck(task, check)) || check.Polled?
    ensures check.Polled? && out.Observed? && (out.result == ResultCompleted || out.result == NoResult) ==>
              Rank(cfg, AfterCheck(cfg, task, check, out, pick)) < Rank(cfg, InCheck(task, check))
  {
  }

  lemma DecideFalls(cfg: Config, d: Digest, grant: bool, decide: DecideStage, out: Outcome, now: int)
    requires grant && (decide.LogDecision? ==> Succeeded(out))
    ensures Rank(cfg, AfterDecide(d, grant, decide, out, now)) < Rank(cfg, InDecision(d, grant, decide))
  {
  }

  /** Where nothing fails, each step of a request that is not done brings it closer to its end. */
  lemma RankFalls(cfg: Config, sh: Shared, pc: Pc, ch: Choice)
    requires Shaped(cfg, pc) && SmoothPc(cfg, sh.ctl, pc) && SmoothChoice(ch) && !pc.Done?
    ensures Rank(cfg, Act(cfg, sh, pc, ch).1) < Rank(cfg, pc)
  {
    hide Do;
    var out := Effect(cfg, sh, OpOf(cfg, pc, ch.now), ch).1;
    match pc
    case Notes(events, next, abort) => GotoRank(cfg, next);
    case InPass(cont, pass) => PassFalls(cfg, cont, pass, out);
    case InJob(job, stage) => JobFalls(cfg, sh, job, stage, ch);
    case InCheck(task, check) => CheckFalls(cfg, sh.ctl, task, check, out, ch.pick);
    case InDecision(d, grant, decide) => DecideFalls(cfg, d, grant, decide, out, ch.now);
  }

  // ---- every request ends

  predicate StartsAgain(step: Step, r: nat) {
    step.Begin? && step.r == r
  }

  function Advances(steps: seq<Step>, r: nat): nat {
    if steps == [] then 0
    else Advances(steps[..|steps| - 1], r) + (if steps[|steps| - 1].Advance? && steps[|steps| - 1].r == r then 1 else 0)
  }

  ghost predicate Nearer(cfg: Config, s: State, r: nat, start: nat, taken: nat) {
    r in s.reqs && (s.reqs[r].Done? || Rank(cfg, s.reqs[r]) + taken <= start)
  }

  lemma NearerStep(cfg: Config, s: State, step: Step, r: nat, start: nat, taken: nat)
    requires Inv(cfg, s) && SmoothInv(cfg, s) && Smooth(step) && !StartsAgain(step, r) && Nearer(cfg, s, r, start, taken)
    ensures Nearer(cfg, Do(cfg, s, step), r, start, taken + (if step.Advance? && step.r == r then 1 else 0))
  {
    hide Exec, AfterJob, AfterCheck, Global;
    if step.Advance? && step.r == r && !s.reqs[r].Done? {
      assert Local(cfg, s.sh, s.reqs[r]);
      RankFalls(cfg, s.sh, s.reqs[r], step.ch);
    }
  }

  function Good(now: int): Choice {
    Choice(true, Accepted, ResultCompleted, now, "")
  }

  lemma NotDoneHasRank(cfg: Config, sh: Shared, pc: Pc)
    requires Shaped(cfg, pc) && SmoothPc(cfg, sh.ctl, pc) && !pc.Done?
    ensures Rank(cfg, pc) > 0
  {
    RankFalls(cfg, sh, pc, Good(0));
  }

  lemma {:induction false} NearerThroughout(cfg: Config, steps: seq<Step>, more: seq<Step>, r: nat)
    requires Workable(cfg) && AllSmooth(steps + more) && r in Exec(cfg, steps).reqs
    requires forall n | 0 <= n < |more| :: !StartsAgain(more[n], r)
    ensures Nearer(cfg, Exec(cfg, steps + more), r, Rank(cfg, Exec(cfg, steps).reqs[r]), Advances(more, r))
    decreases |more|
  {
    hide Do, Exec, Inv;
    if more == [] {
      assert steps + more == steps;
    } else {
      var rest, last := more[..|more| - 1], more[|more| - 1];
      assert steps + more == (steps + rest) + [last];
      assert forall n | 0 <= n < |steps + rest| :: (steps + rest)[n] == (steps + more)[n];
      assert (steps + more)[|steps + more| - 1] == last;
      NearerThroughout(cfg, steps, rest, r);
      SmoothAlways(cfg, steps + rest);
      Traces.ExecAfter(cfg, steps + rest, last);
      NearerStep(cfg, Exec(cfg, steps + rest), last, r, Rank(cfg, Exec(cfg, steps).reqs[r]), Advances(rest, r));
    }
  }

  /** However requests interleave, a request that has been advanced as often as its rank says is done. */
  lemma EveryRequestEnds(cfg: Config, steps: seq<Step>, more: seq<Step>, r: nat)
    requires Workable(cfg) && AllSmooth(steps + more) && r in Exec(cfg, steps).reqs
    requires forall n | 0 <= n < |more| :: !StartsAgain(more[n], r)
    requires Advances(more, r) >= Rank(cfg, Exec(cfg, steps).reqs[r])
    ensures r in Exec(cfg, steps + more).reqs && Exec(cfg, steps + more).reqs[r].Done?
  {
    hide Do, Global;
    NearerThroughout(cfg, steps, more, r);
    SmoothAlways(cfg, steps + more);
    var s := Exec(cfg, steps + more);
    assert Local(cfg, s.sh, s.reqs[r]);
    if !s.reqs[r].Done? { NotDoneHasRank(cfg, s.sh, s.reqs[r]); }
  }

  // ---- from a quiet moment to the end

  /** What a guarded task is approved for has a scope that redaction leaves alone. */
  ghost predicate Approvable(cfg: Config) {
    forall i | 0 <= i < |cfg.plan| && cfg.plan[i].guarded ::
      cfg.plan[i].action.scope != "" && Fixed(cfg, cfg.plan[i].action.scope)
  }

  ghost predicate Quiet(s: State) {
    0 in s.reqs && forall r | r in s.reqs :: s.reqs[r].Done?
  }

  /** A claim stands for a decision that is logged or on its way. */
  ghost predicate ClaimsInv(s: State) {
    forall d | d in s.sh.claims :: IsDecided(s.sh.log, d) || SomebodyClaims(s, d)
  }

  ghost predicate SomebodyClaims(s: State, d: Digest) {
    exists r | r in s.reqs :: ApprovalSafety.ClaimHeld(s.reqs[r]) == Some(d)
  }

  lemma EffectKeepsClaim(cfg: Config, sh: Shared, pc: Pc, ch: Choice, d: Digest)
    requires SmoothPc(cfg, sh.ctl, pc) && SmoothChoice(ch)
    ensures var (next, pc') := Act(cfg, sh, pc, ch);
            d in next.claims ==>
              || (d in sh.claims && ApprovalSafety.ClaimHeld(pc) != Some(d))
              || ApprovalSafety.ClaimHeld(pc') == Some(d)
              || IsDecided(next.log, d)
  {
    if pc.InDecision? {
      var next := Effect(cfg, sh, OpOf(cfg, pc, ch.now), ch).0;
      if pc.decide.LogDecision? {
        assert next.log[|sh.log|] == ApprovalDecided(pc.digest, true);
        assert ApprovalDecided(pc.digest, true) in next.log;
      }
    } else {
      OthersClaimNothing(cfg, sh, pc, ch);
    }
  }

  lemma OthersClaimNothing(cfg: Config, sh: Shared, pc: Pc, ch: Choice)
    requires !pc.InDecision?
    ensures Effect(cfg, sh, OpOf(cfg, pc, ch.now), ch).0.claims == sh.claims
  {
  }

  lemma DecidedStays(cfg: Config, sh: Shared, op: Op, ch: Choice, d: Digest)
    requires IsDecided(sh.log, d)
    ensures IsDecided(Effect(cfg, sh, op, ch).0.log, d)
  {
  }

  lemma AdvanceKeepsClaims(cfg: Config, s: State, r: nat, ch: Choice)
    requires SmoothInv(cfg, s) && ClaimsInv(s) && r in s.reqs && SmoothChoice(ch)
    ensures ClaimsInv(Do(cfg, s, Advance(r, ch)))
  {
    hide Effect, After, OpOf, Latest, Reboot;
    var (next, pc') := Act(cfg, s.sh, s.reqs[r], ch);
    var t := Do(cfg, s, Advance(r, ch));
    assert t == State(next, s.reqs[r := pc']);
    forall d | d in next.claims ensures IsDecided(next.log, d) || SomebodyClaims(t, d) {
      EffectKeepsClaim(cfg, s.sh, s.reqs[r], ch, d);
      if ApprovalSafety.ClaimHeld(pc') == Some(d) {
        assert t.reqs[r] == pc';
      } else if !IsDecided(next.log, d) {
        if IsDecided(s.sh.log, d) { DecidedStays(cfg, s.sh, OpOf(cfg, s.reqs[r], ch.now), ch, d); }
        var q :| q in s.reqs && ApprovalSafety.ClaimHeld(s.reqs[q]) == Some(d);
        assert t.reqs[q] == s.reqs[q];
      }
    }
  }

  lemma BeginKeepsClaims(cfg: Config, s: State, r: nat, request: Request)
    requires ClaimsInv(s)
    ensures ClaimsInv(Do(cfg, s, Begin(r, request)))
  {
    var t := Do(cfg, s, Begin(r, request));
    if t != s {
      forall d | d in t.sh.claims ensures IsDecided(t.sh.log, d) || SomebodyClaims(t, d) {
        if !IsDecided(t.sh.log, d) {
          var q :| q in s.reqs && ApprovalSafety.ClaimHeld(s.reqs[q]) == Some(d);
          assert q != r && t.reqs[q] == s.reqs[q];
        }
      }
    }
  }

  ghost predicate Calm(s: State) {
    ClaimsInv(s) && !s.sh.fatal && 0 in s.reqs
  }

  lemma StepKeepsCalm(cfg: Config, s: State, step: Step)
    requires SmoothInv(cfg, s) && Calm(s) && Smooth(step)
    ensures Calm(Do(cfg, s, step))
  {
    hide After, OpOf, Reboot;
    match step
    case Begin(r, request) => BeginKeepsClaims(cfg, s, r, request);
    case Advance(r, ch) => if r in s.reqs { AdvanceKeepsClaims(cfg, s, r, ch); }
    case Restart(_) =>
  }

  lemma {:induction false} CalmAlways(cfg: Config, steps: seq<Step>)
    requires Workable(cfg) && AllSmooth(steps)
    ensures Calm(Exec(cfg, steps))
    decreases |steps|
  {
    hide Do, Inv;
    if steps != [] {
      var rest, last := steps[..|steps| - 1], steps[|steps| - 1];
      assert forall n | 0 <= n < |rest| :: rest[n] == steps[n];
      CalmAlways(cfg, rest);
      SmoothAlways(cfg, rest);
      StepKeepsCalm(cfg, Exec(cfg, rest), last);
    }
  }

  // ---- running one request to its end

  /** Nothing fails, and the clock stands. */
  ghost predicate SmoothAt(steps: seq<Step>, now: int) {
    AllSmooth(steps) && forall n | 0 <= n < |steps| && steps[n].Advance? :: steps[n].ch.now == now
  }

  lemma SmoothAtLonger(steps: seq<Step>, more: seq<Step>, now: int)
    requires SmoothAt(steps, now) && SmoothAt(more, now)
    ensures SmoothAt(steps + more, now)
  {
  }

  lemma SmoothLonger(steps: seq<Step>, more: seq<Step>)
    requires AllSmooth(steps) && AllSmooth(more)
    ensures AllSmooth(steps + more)
  {
  }

  /** Only request `r` moved, to its end; the log only grew. */
  ghost predicate RanOut(s: State, t: State, r: nat) {
    r in s.reqs && t.reqs == s.reqs[r := Done] && s.sh.log <= t.sh.log
  }

  lemma AdvanceMoves(cfg: Config, steps: seq<Step>, r: nat, ch: Choice)
    requires r in Exec(cfg, steps).reqs
    ensures var (s, t) := (Exec(cfg, steps), Exec(cfg, steps + [Advance(r, ch)]));
            t.reqs == s.reqs[r := Act(cfg, s.sh, s.reqs[r], ch).1] && s.sh.log <= t.sh.log
  {
    Traces.ExecAfter(cfg, steps, Advance(r, ch));
    var s := Exec(cfg, steps);
    EffectGrowsLog(cfg, s.sh, OpOf(cfg, s.reqs[r], ch.now), ch);
  }

  lemma RanOutChain(s: State, m: State, t: State, r: nat, pc: Pc)
    requires r in s.reqs && m.reqs == s.reqs[r := pc] && s.sh.log <= m.sh.log && RanOut(m, t, r)
    ensures RanOut(s, t, r)
  {
    assert s.reqs[r := pc][r := Done] == s.reqs[r := Done];
  }

  lemma {:induction false} RunOut(cfg: Config, steps: seq<Step>, r: nat, now: int) returns (more: seq<Step>)
    requires Workable(cfg) && AllSmooth(steps) && r in Exec(cfg, steps).reqs
    ensures SmoothAt(more, now) && RanOut(Exec(cfg, steps), Exec(cfg, steps + more), r)
    decreases Rank(cfg, Exec(cfg, steps).reqs[r])
  {
    hide Do, CheckOp, AfterReconcile, AfterPass, Global;
    var s := Exec(cfg, steps);
    SmoothAlways(cfg, steps);
    assert Local(cfg, s.sh, s.reqs[r]);
    if s.reqs[r].Done? {
      more := [];
      assert steps + more == steps;
      assert s.reqs[r := Done] == s.reqs;
    } else {
      RankFalls(cfg, s.sh, s.reqs[r], Good(now));
      AdvanceMoves(cfg, steps, r, Good(now));
      SmoothLonger(steps, [Advance(r, Good(now))]);
      var rest := RunOut(cfg, steps + [Advance(r, Good(now))], r, now);
      more := [Advance(r, Good(now))] + rest;
      assert steps + more == steps + [Advance(r, Good(now))] + rest;
      var next := Act(cfg, s.sh, s.reqs[r], Good(now)).1;
      RanOutChain(s, Exec(cfg, steps + [Advance(r, Good(now))]), Exec(cfg, steps + more), r, next);
    }
  }

  // ---- one more completion, or one more grant

  lemma CheckPolls(cfg: Config, sh: Shared, k: string, task: string, ch: Choice)
    requires k in sh.ctl.commands && sh.ctl.commands[k].state == Acknowledged && sh.ctl.commands[k].task == task
    requires SmoothChoice(ch) && ch.observed == ResultCompleted && ch.pick == k
    ensures var (next, pc) := Traces.Solo(cfg, sh, InCheck(task, Picking), ch, 3);
            && pc == InCheck(task, Settle(k, Completed)) && next.log == sh.log
            && k in next.ctl.commands && next.ctl.commands[k].state == Polling
  {
    var polling := Effect(cfg, sh, Move(k, Polling), ch).0;
    Traces.SoloStep(cfg, sh, InCheck(task, Picking), ch, sh, InCheck(task, Poll(k)), 2);
    Traces.SoloStep(cfg, sh, InCheck(task, Poll(k)), ch, polling, InCheck(task, Polled(k)), 1);
    Traces.SoloStep(cfg, polling, InCheck(task, Polled(k)), ch, polling, InCheck(task, Settle(k, Completed)), 0);
  }

  lemma CheckSettles(cfg: Config, sh: Shared, k: string, task: string, ch: Choice)
    requires k in sh.ctl.commands && sh.ctl.commands[k].state == Polling && ch.appended
    ensures var (next, pc) := Traces.Solo(cfg, sh, InCheck(task, Settle(k, Completed)), ch, 2);
            && pc == Notes([TaskCompleted(task)], ToSchedule(FromResult), Finish)
            && |next.log| == |sh.log| + 1 && sh.log <= next.log && next.log[|sh.log|].CommandEvent?
  {
    var (settled, found) := Effect(cfg, sh, Move(k, Completed), ch);
    var logged := Effect(cfg, settled, CheckOp(LogSettle(Completed, found.cmd)), ch).0;
    Traces.SoloStep(cfg, sh, InCheck(task, Settle(k, Completed)), ch, settled, InCheck(task, LogSettle(Completed, found.cmd)), 1);
    Traces.SoloStep(cfg, settled, InCheck(task, LogSettle(Completed, found.cmd)), ch, logged,
                    Notes([TaskCompleted(task)], ToSchedule(FromResult), Finish), 0);
  }

  lemma CheckRuns(cfg: Config, sh: Shared, k: string, task: string, ch: Choice)
    requires k in sh.ctl.commands && sh.ctl.commands[k].state == Acknowledged && sh.ctl.commands[k].task == task
    requires SmoothChoice(ch) && ch.observed == ResultCompleted && ch.pick == k
    ensures var (next, pc) := Traces.Solo(cfg, sh, InCheck(task, Picking), ch, 5);
            && pc == Notes([TaskCompleted(task)], ToSchedule(FromResult), Finish)
            && |next.log| == |sh.log| + 1 && sh.log <= next.log && next.log[|sh.log|].CommandEvent?
  {
    CheckPolls(cfg, sh, k, task, ch);
    Traces.SoloChain(cfg, sh, InCheck(task, Picking), ch, 3, 2);
    CheckSettles(cfg, Traces.Solo(cfg, sh, InCheck(task, Picking), ch, 3).0, k, task, ch);
  }

  /** A planned request that has not expired passes the review. */
  lemma ReviewPasses(cfg: Config, log: seq<Event>, d: Digest, now: int)
    requires Workable(cfg) && Approvable(cfg) && RequestsAsPlanned(cfg, log) && IsRequested(log, d) && !IsDecided(log, d)
    requires LastRequest(log, d).Some? && LastRequest(log, d).value.ApprovalRequested? && now < LastRequest(log, d).value.expires
    ensures Review(log, d, true, "", now) == InDecision(d, true, Claiming(LastRequest(log, d).value.task))
  {
    ApprovalSafety.LastRequestIsLogged(log, d);
    var e := LastRequest(log, d).value;
    assert AsPlanned(cfg, e);
  }

  lemma DecisionRuns(cfg: Config, sh: Shared, d: Digest, ch: Choice)
    requires Workable(cfg) && Approvable(cfg) && RequestsAsPlanned(cfg, sh.log) && IsRequested(sh.log, d) && !IsDecided(sh.log, d)
    requires LastRequest(sh.log, d).Some? && LastRequest(sh.log, d).value.ApprovalRequested?
    requires SmoothChoice(ch) && ch.now < LastRequest(sh.log, d).value.expires && d !in sh.claims
    ensures var (next, pc) := Traces.Solo(cfg, sh, InDecision(d, true, ReadRequest("")), ch, 2);
            pc.InDecision? && pc.digest == d && pc.grant && pc.decide.LogDecision? && next.log == sh.log
  {
    hide Do, AfterJob;
    var task := LastRequest(sh.log, d).value.task;
    var claimed := sh.(claims := sh.claims + {d});
    ReviewPasses(cfg, sh.log, d, ch.now);
    Traces.SoloStep(cfg, sh, InDecision(d, true, ReadRequest("")), ch, sh, InDecision(d, true, Claiming(task)), 1);
    Traces.SoloStep(cfg, sh, InDecision(d, true, Claiming(task)), ch, claimed, InDecision(d, true, LogDecision(task)), 0);
  }

  lemma SmoothMany(r: nat, ch: Choice, n: nat)
    requires SmoothChoice(ch)
    ensures SmoothAt(Traces.Many(r, ch, n), ch.now)
  {
  }

  /** The next step of request 0 logs something that matters. */
  ghost predicate AboutToCount(cfg: Config, s: State, ch: Choice) {
    0 in s.reqs && SmoothChoice(ch) && var op := OpOf(cfg, s.reqs[0], ch.now); op.Append? && Matters(op.e)
  }

  /** Every other request is done. */
  ghost predicate Alone(s: State) {
    0 in s.reqs && forall q | q in s.reqs && q != 0 :: s.reqs[q].Done?
  }

  lemma CountAndFinish(cfg: Config, steps: seq<Step>, ch: Choice) returns (more: seq<Step>)
    requires Workable(cfg) && AllSmooth(steps) && AboutToCount(cfg, Exec(cfg, steps), ch) && Alone(Exec(cfg, steps))
    ensures SmoothAt(more, ch.now) && Quiet(Exec(cfg, steps + more))
    ensures Remaining(cfg, Exec(cfg, steps + more).sh.log) < Remaining(cfg, Exec(cfg, steps).sh.log)
  {
    hide Do, Act, Exec, OpOf, Workable;
    var step := Advance(0, ch);
    SmoothLonger(steps, [step]);
    CountOne(cfg, steps, ch);
    AdvanceMoves(cfg, steps, 0, ch);
    var rest := RunOut(cfg, steps + [step], 0, ch.now);
    SmoothAtLonger([step], rest, ch.now);
    more := [step] + rest;
    assert steps + more == steps + [step] + rest;
    QuietAfter(Exec(cfg, steps), Exec(cfg, steps + [step]), Exec(cfg, steps + more));
    FewerLeft(cfg, Exec(cfg, steps + [step]).sh.log, Exec(cfg, steps + more).sh.log);
  }

  lemma QuietAfter(s: State, m: State, t: State)
    requires Alone(s) && (forall q | q in s.reqs && q != 0 :: q in m.reqs && m.reqs[q] == s.reqs[q]) && m.reqs.Keys == s.reqs.Keys
    requires RanOut(m, t, 0)
    ensures Quiet(t) && m.sh.log <= t.sh.log
  {
  }

  lemma CountOne(cfg: Config, steps: seq<Step>, ch: Choice)
    requires Workable(cfg) && AllSmooth(steps) && AboutToCount(cfg, Exec(cfg, steps), ch)
    ensures Remaining(cfg, Exec(cfg, steps + [Advance(0, ch)]).sh.log) < Remaining(cfg, Exec(cfg, steps).sh.log)
  {
    hide Effect, After, OpOf, Latest, Inv;
    FullInvAlways(cfg, steps);
    StepRemaining(cfg, Exec(cfg, steps), 0, ch);
    Traces.ExecAfter(cfg, steps, Advance(0, ch));
  }

  /** A new request 0, moved `n` steps alone from a quiet state. */
  lemma BeginAlone(cfg: Config, steps: seq<Step>, request: Request, ch: Choice, n: nat)
    requires Workable(cfg) && AllSmooth(steps) && Quiet(Exec(cfg, steps)) && Smooth(Begin(0, request)) && SmoothChoice(ch)
    ensures var s := Exec(cfg, steps);
            var (sh, pc) := Traces.Solo(cfg, s.sh, Entry(request), ch, n);
            var more := [Begin(0, request)] + Traces.Many(0, ch, n);
            && SmoothAt(more, ch.now)
            && Exec(cfg, steps + more) == State(sh, s.reqs[0 := pc])
  {
    hide Act, Exec, Latest, Reboot, Entry;
    var s, begin := Exec(cfg, steps), Begin(0, request);
    CalmAlways(cfg, steps);
    SmoothMany(0, ch, n);
    Traces.ExecAfter(cfg, steps, begin);
    assert Exec(cfg, steps + [begin]) == State(s.sh, s.reqs[0 := Entry(request)]);
    Traces.SoloRuns(cfg, steps + [begin], 0, ch, n);
    var pc := Traces.Solo(cfg, s.sh, Entry(request), ch, n).1;
    assert s.reqs[0 := Entry(request)][0 := pc] == s.reqs[0 := pc];
    assert steps + ([begin] + Traces.Many(0, ch, n)) == steps + [begin] + Traces.Many(0, ch, n);
  }

  /** The run after `first` gets on, as the run after `steps` did. */
  lemma GetOn(cfg: Config, steps: seq<Step>, first: seq<Step>, ch: Choice) returns (more: seq<Step>)
    requires Workable(cfg) && AllSmooth(steps) && SmoothAt(first, ch.now)
    requires AboutToCount(cfg, Exec(cfg, steps + first), ch) && Alone(Exec(cfg, steps + first))
    requires Exec(cfg, steps).sh.log <= Exec(cfg, steps + first).sh.log
    ensures SmoothAt(more, ch.now) && Quiet(Exec(cfg, steps + more))
    ensures Remaining(cfg, Exec(cfg, steps + more).sh.log) < Remaining(cfg, Exec(cfg, steps).sh.log)
  {
    hide Act, Exec, JobOp;
    SmoothLonger(steps, first);
    var rest := CountAndFinish(cfg, steps + first, ch);
    SmoothAtLonger(first, rest, ch.now);
    more := first + rest;
    assert steps + more == steps + first + rest;
    FewerLeft(cfg, Exec(cfg, steps).sh.log, Exec(cfg, steps + first).sh.log);
  }

  lemma KeyIsOfTask(cfg: Config, ctl: Ctl, i: nat)
    requires CommandsOfPlan(cfg, ctl) && i < |cfg.plan| && KeyAt(cfg, i) in ctl.commands
    ensures ctl.commands[KeyAt(cfg, i)].task == cfg.plan[i].id
  {
    OfPlanIsKey(cfg, KeyAt(cfg, i), ctl.commands[KeyAt(cfg, i)]);
    KeyNamesTask(cfg, cfg.plan[i].id, ctl.commands[KeyAt(cfg, i)].task);
  }

  lemma CompleteOne(cfg: Config, steps: seq<Step>, i: nat, now: int) returns (more: seq<Step>)
    requires Workable(cfg) && AllSmooth(steps) && Quiet(Exec(cfg, steps)) && i < |cfg.plan|
    requires var ctl := Exec(cfg, steps).sh.ctl;
             KeyAt(cfg, i) in ctl.commands && ctl.commands[KeyAt(cfg, i)].state == Acknowledged
    ensures SmoothAt(more, now) && Quiet(Exec(cfg, steps + more))
    ensures Remaining(cfg, Exec(cfg, steps + more).sh.log) < Remaining(cfg, Exec(cfg, steps).sh.log)
  {
    hide Act, Exec, JobOp, Inv;
    var ch := Good(now).(pick := KeyAt(cfg, i));
    var request := CheckResult(cfg.plan[i].id);
    SmoothAlways(cfg, steps);
    KeyIsOfTask(cfg, Exec(cfg, steps).sh.ctl, i);
    CheckRuns(cfg, Exec(cfg, steps).sh, KeyAt(cfg, i), cfg.plan[i].id, ch);
    BeginAlone(cfg, steps, request, ch, 5);
    more := GetOn(cfg, steps, [Begin(0, request)] + Traces.Many(0, ch, 5), ch);
  }

  lemma GrantOne(cfg: Config, steps: seq<Step>, d: Digest, now: int) returns (more: seq<Step>)
    requires Workable(cfg) && Approvable(cfg) && AllSmooth(steps) && Quiet(Exec(cfg, steps))
    requires Open(Exec(cfg, steps).sh.log, d) && !ExpiredBy(Exec(cfg, steps).sh.log, d, now)
    ensures SmoothAt(more, now) && Quiet(Exec(cfg, steps + more))
    ensures Remaining(cfg, Exec(cfg, steps + more).sh.log) < Remaining(cfg, Exec(cfg, steps).sh.log)
  {
    hide Do, Act, Exec, JobOp, CheckOp;
    var s := Exec(cfg, steps);
    AsksAlways(cfg, steps);
    CalmAlways(cfg, steps);
    LastRequestExists(s.sh.log, d);
    ApprovalSafety.LastRequestIsLogged(s.sh.log, d);
    NobodyClaims(s, d);
    var ch, request := Good(now), Decide(d, true, "");
    DecisionRuns(cfg, s.sh, d, ch);
    BeginAlone(cfg, steps, request, ch, 2);
    more := GetOn(cfg, steps, [Begin(0, request)] + Traces.Many(0, ch, 2), ch);
  }

  lemma NobodyClaims(s: State, d: Digest)
    requires Quiet(s) && ClaimsInv(s) && !IsDecided(s.sh.log, d)
    ensures d !in s.sh.claims
  {
  }

  // ---- no approval expires while the clock stands

  ghost predicate NoneStranded(cfg: Config, log: seq<Event>, now: int) {
    forall i: nat :: !Stranded(cfg, log, i, now)
  }

  /** Whatever is asked for at `now` has not expired at `now`. */
  lemma AppendStrandsNothing(cfg: Config, sh: Shared, pc: Pc, ch: Choice)
    requires Shaped(cfg, pc) && NoneStranded(cfg, sh.log, ch.now)
    ensures NoneStranded(cfg, Act(cfg, sh, pc, ch).0.log, ch.now)
  {
    hide After, LastRequest, OpOf;
    var op := OpOf(cfg, pc, ch.now);
    if op.Append? && ch.appended {
      var e := Scrub(cfg, op.e);
      AskedNow(cfg, pc, ch.now);
      forall i: nat | i < |cfg.plan| && cfg.plan[i].guarded ensures !Stranded(cfg, sh.log + [e], i, ch.now) {
        StrandedAppend(cfg, sh.log, e, i, ch.now);
      }
    }
  }

  lemma AskedNow(cfg: Config, pc: Pc, now: int)
    requires Shaped(cfg, pc)
    ensures var op := OpOf(cfg, pc, now); op.Append? && op.e.ApprovalRequested? ==> now < op.e.expires
  {
    OnlyAskingAsks(cfg, pc, now);
    FreshIsUnexpired(now);
  }

  lemma StrandedAppend(cfg: Config, log: seq<Event>, e: Event, i: nat, now: int)
    requires !Stranded(cfg, log, i, now) && (e.ApprovalRequested? ==> now < e.expires)
    ensures !Stranded(cfg, log + [e], i, now)
  {
    hide LastRequest;
    if i < |cfg.plan| && cfg.plan[i].guarded {
      var d := DigestAt(cfg, i);
      LastRequestAppend(log, e, d);
      ApprovalSafety.DecidedAppend(log, e, d);
      assert forall x :: x in log + [e] <==> x in log || x == e;
    }
  }

  lemma {:induction false} NothingExpiresMeanwhile(cfg: Config, steps: seq<Step>, more: seq<Step>, now: int)
    requires Workable(cfg) && SmoothAt(more, now) && NoneStranded(cfg, Exec(cfg, steps).sh.log, now)
    ensures NoneStranded(cfg, Exec(cfg, steps + more).sh.log, now)
    decreases |more|
  {
    hide Do, Exec, NoneStranded, Inv;
    if more == [] {
      assert steps + more == steps;
    } else {
      var rest, last := more[..|more| - 1], more[|more| - 1];
      assert forall n | 0 <= n < |rest| :: rest[n] == more[n];
      NothingExpiresMeanwhile(cfg, steps, rest, now);
      InvAlways(cfg, steps + rest);
      StepStrandsNothing(cfg, Exec(cfg, steps + rest), last, now);
      Traces.ExecAfter(cfg, steps + rest, last);
      assert steps + more == steps + rest + [last];
    }
  }

  lemma StepStrandsNothing(cfg: Config, s: State, step: Step, now: int)
    requires Inv(cfg, s) && Smooth(step) && (step.Advance? ==> step.ch.now == now) && NoneStranded(cfg, s.sh.log, now)
    ensures NoneStranded(cfg, Do(cfg, s, step).sh.log, now)
  {
    hide Act, NoneStranded, Global, Owning, HoldsCopy, NotCalled;
    if step.Advance? && step.r in s.reqs {
      assert Local(cfg, s.sh, s.reqs[step.r]);
      AppendStrandsNothing(cfg, s.sh, s.reqs[step.r], step.ch);
    }
  }

  // ---- to the end

  lemma OneMore(cfg: Config, steps: seq<Step>, now: int) returns (more: seq<Step>)
    requires Workable(cfg) && Approvable(cfg) && AllSmooth(steps) && Quiet(Exec(cfg, steps))
    requires NoneStranded(cfg, Exec(cfg, steps).sh.log, now)
    requires !(AllCompleted(cfg, Exec(cfg, steps).sh.log) && Note(DispatchCompleted, "") in Exec(cfg, steps).sh.log)
    ensures SmoothAt(more, now) && Quiet(Exec(cfg, steps + more))
    ensures Remaining(cfg, Exec(cfg, steps + more).sh.log) < Remaining(cfg, Exec(cfg, steps).sh.log)
  {
    hide Do, Exec, Remaining, Stranded, Open, ExpiredBy;
    NeverStuck(cfg, steps, now);
    var sh := Exec(cfg, steps).sh;
    var i: nat :| Waiting(cfg, sh, i, now);
    if KeyAt(cfg, i) in sh.ctl.commands && sh.ctl.commands[KeyAt(cfg, i)].state == Acknowledged {
      more := CompleteOne(cfg, steps, i, now);
    } else {
      more := GrantOne(cfg, steps, DigestAt(cfg, i), now);
    }
  }

  ghost predicate Finished(cfg: Config, s: State) {
    Quiet(s) && AllCompleted(cfg, s.sh.log) && Note(DispatchCompleted, "") in s.sh.log
  }

  lemma {:induction false} QuietRunsFinish(cfg: Config, steps: seq<Step>, now: int) returns (more: seq<Step>)
    requires Workable(cfg) && Approvable(cfg) && AllSmooth(steps) && Quiet(Exec(cfg, steps))
    requires NoneStranded(cfg, Exec(cfg, steps).sh.log, now)
    ensures SmoothAt(more, now) && Finished(cfg, Exec(cfg, steps + more))
    decreases Remaining(cfg, Exec(cfg, steps).sh.log)
  {
    hide Do, Exec, NoneStranded;
    var sh := Exec(cfg, steps).sh;
    if AllCompleted(cfg, sh.log) && Note(DispatchCompleted, "") in sh.log {
      more := [];
      assert steps + more == steps;
    } else {
      var first := OneMore(cfg, steps, now);
      SmoothLonger(steps, first);
      NothingExpiresMeanwhile(cfg, steps, first, now);
      var rest := QuietRunsFinish(cfg, steps + first, now);
      SmoothAtLonger(first, rest, now);
      more := first + rest;
      assert steps + more == steps + first + rest;
    }
  }

  /** The start of the run, or a moment at which all requests are done, and what the clock has shown until then. */
  ghost predicate Pause(cfg: Config, steps: seq<Step>, now: int) {
    && AllSmooth(steps) && Ticks(steps) && NotAfter(steps, now)
    && (steps == [] || AllDone(Exec(cfg, steps)))
  }

  /** Results and grants that come in at once bring the run to its end. */
  lemma RunsCanFinish(cfg: Config, steps: seq<Step>, now: int) returns (more: seq<Step>)
    requires Workable(cfg) && Approvable(cfg) && Pause(cfg, steps, now)
    requires NoneStranded(cfg, Exec(cfg, steps).sh.log, now)
    ensures SmoothAt(more, now) && Finished(cfg, Exec(cfg, steps + more))
  {
    hide Do, NoneStranded;
    CalmAlways(cfg, steps);
    var first: seq<Step> := [];
    if steps == [] {
      first := RunOut(cfg, [], 0, now);
      QuietStart(cfg, Exec(cfg, [] + first));
    }
    assert steps == [] ==> steps + first == [] + first;
    assert steps != [] ==> steps + first == steps;
    SmoothLonger(steps, first);
    NothingExpiresMeanwhile(cfg, steps, first, now);
    var rest := QuietRunsFinish(cfg, steps + first, now);
    more := first + rest;
    assert steps + more == steps + first + rest;
    SmoothAtLonger(first, rest, now);
  }

  lemma QuietStart(cfg: Config, t: State)
    requires RanOut(Init(cfg), t, 0)
    ensures Quiet(t)
  {
  }

  // ---- a completed task was cleared

  /** While nothing fails, every planned task with a command is cleared. */
  ghost predicate KnownCleared(cfg: Config, sh: Shared) {
    forall i: nat | i < |cfg.plan| && KeyAt(cfg, i) in sh.ctl.commands :: Cleared(cfg, sh.log, i)
  }

  lemma PlanKeysDiffer(cfg: Config, i: nat, j: nat)
    requires PlanDistinct(cfg) && i < |cfg.plan| && j < |cfg.plan| && KeyAt(cfg, i) == KeyAt(cfg, j)
    ensures i == j
  {
    KeyNamesTask(cfg, cfg.plan[i].id, cfg.plan[j].id);
    assert i < j || j < i || i == j;
  }

  lemma ActClears(cfg: Config, sh: Shared, pc: Pc, ch: Choice)
    requires PlanDistinct(cfg) && KnownCleared(cfg, sh) && Ready(cfg, sh.log, pc) && SmoothPc(cfg, sh.ctl, pc)
    ensures KnownCleared(cfg, Act(cfg, sh, pc, ch).0)
  {
    hide After, Ready, SmoothPc, Cleared;
    var op := OpOf(cfg, pc, ch.now);
    var next := Act(cfg, sh, pc, ch).0;
    EffectGrowsLog(cfg, sh, op, ch);
    forall i: nat | i < |cfg.plan| && KeyAt(cfg, i) in next.ctl.commands ensures Cleared(cfg, next.log, i) {
      if KeyAt(cfg, i) in sh.ctl.commands {
        ClearedGrows(cfg, sh.log, next.log, i);
      } else {
        NewIsCleared(cfg, sh, pc, ch, i);
      }
    }
  }

  lemma OnlyJobsCreate(cfg: Config, sh: Shared, pc: Pc, ch: Choice, k: string)
    requires k !in sh.ctl.commands && k in Act(cfg, sh, pc, ch).0.ctl.commands
    ensures pc.InJob? && pc.stage.Create? && JobKey(cfg, pc.job) == k
  {
    hide After, Latest;
    if !(pc.InJob? && pc.stage.Create?) { Agreement.NoNewKey(cfg, sh, pc, ch, k); }
  }

  lemma NewIsCleared(cfg: Config, sh: Shared, pc: Pc, ch: Choice, i: nat)
    requires PlanDistinct(cfg) && Ready(cfg, sh.log, pc) && SmoothPc(cfg, sh.ctl, pc)
    requires i < |cfg.plan| && KeyAt(cfg, i) !in sh.ctl.commands && KeyAt(cfg, i) in Act(cfg, sh, pc, ch).0.ctl.commands
    ensures Cleared(cfg, Act(cfg, sh, pc, ch).0.log, i)
  {
    hide After, Cleared, Latest;
    OnlyJobsCreate(cfg, sh, pc, ch, KeyAt(cfg, i));
    PlanKeysDiffer(cfg, i, pc.job.i);
    ClearedGrows(cfg, pc.job.seen, sh.log, i);
  }

  lemma StepClears(cfg: Config, s: State, step: Step)
    requires PlanDistinct(cfg) && Smooth(step) && KnownCleared(cfg, s.sh) && ScheduleInv(cfg, s) && SmoothInv(cfg, s)
    ensures KnownCleared(cfg, Do(cfg, s, step).sh)
  {
    hide Act, Ready, SmoothPc, KnownCleared;
    if step.Advance? && step.r in s.reqs { ActClears(cfg, s.sh, s.reqs[step.r], step.ch); }
  }

  lemma {:induction false} ClearedAlways(cfg: Config, steps: seq<Step>)
    requires Workable(cfg) && AllSmooth(steps)
    ensures KnownCleared(cfg, Exec(cfg, steps).sh)
    decreases |steps|
  {
    hide Do, Inv, ScheduleInv, SmoothInv;
    if steps != [] {
      var rest := steps[..|steps| - 1];
      assert forall n | 0 <= n < |rest| :: rest[n] == steps[n];
      ClearedAlways(cfg, rest);
      ScheduleInvAlways(cfg, rest);
      SmoothAlways(cfg, rest);
      StepClears(cfg, Exec(cfg, rest), steps[|steps| - 1]);
    }
  }

  lemma CompletedWasGranted(cfg: Config, steps: seq<Step>, i: nat)
    requires Workable(cfg) && AllSmooth(steps) && i < |cfg.plan| && cfg.plan[i].guarded
    requires IsCompleted(Exec(cfg, steps).sh.log, cfg.plan[i].id)
    ensures IsGranted(Exec(cfg, steps).sh.log, DigestAt(cfg, i))
  {
    hide Do, Exec, Inv;
    OnceAlways(cfg, steps);
    ClearedAlways(cfg, steps);
    assert KeyAt(cfg, i) in Exec(cfg, steps).sh.ctl.commands;
  }

  // ---- exactly when a run can be finished

  /** The run goes on from `steps`, its clock from `now`, and nothing fails. */
  ghost predicate GoesOn(steps: seq<Step>, more: seq<Step>, now: int) {
    AllSmooth(more) && NotBefore(more, now) && Ticks(steps + more)
  }

  lemma StandingGoesOn(steps: seq<Step>, more: seq<Step>, now: int)
    requires Ticks(steps) && NotAfter(steps, now) && SmoothAt(more, now)
    ensures GoesOn(steps, more, now)
  {
    TicksOn(steps, more, now);
  }

  /** From its start, and from every moment at which all requests are done, results and grants can bring a run to its end,
      all tasks completed and the run logged as completed, exactly when no task needs an approval that was asked for, is not
      decided, and has expired. */
  lemma FinishesIffNothingExpired(cfg: Config, steps: seq<Step>, now: int)
    requires Workable(cfg) && Approvable(cfg) && Pause(cfg, steps, now)
    ensures (exists more :: GoesOn(steps, more, now) && Finished(cfg, Exec(cfg, steps + more)))
       <==> NoneStranded(cfg, Exec(cfg, steps).sh.log, now)
  {
    hide Do, Exec, NoneStranded, Stranded, Finished;
    if NoneStranded(cfg, Exec(cfg, steps).sh.log, now) {
      var more := RunsCanFinish(cfg, steps, now);
      StandingGoesOn(steps, more, now);
    } else {
      forall more | GoesOn(steps, more, now) ensures !Finished(cfg, Exec(cfg, steps + more)) {
        StrandedNeverFinishes(cfg, steps, more, now);
      }
    }
  }

  lemma StrandedNeverFinishes(cfg: Config, steps: seq<Step>, more: seq<Step>, now: int)
    requires Workable(cfg) && Pause(cfg, steps, now) && GoesOn(steps, more, now)
    requires !NoneStranded(cfg, Exec(cfg, steps).sh.log, now)
    ensures !Finished(cfg, Exec(cfg, steps + more))
  {
    hide Do, ExpiredBy;
    var i: nat :| Stranded(cfg, Exec(cfg, steps).sh.log, i, now);
    ExpiredIsForever(cfg, steps, more, DigestAt(cfg, i), now);
    SmoothLonger(steps, more);
    if IsCompleted(Exec(cfg, steps + more).sh.log, cfg.plan[i].id) { CompletedWasGranted(cfg, steps + more, i); }
    assert cfg.plan[i] in cfg.plan;
  }
}
