/** What a restart brings back, against what was in memory: never more than what had happened. */
module Recovery {
  import opened Model
  import opened Control
  import opened Actions
  import ControlRuns
  import opened Protocol
  import opened CommandSafety

  // ---- the log's idea of a command

  lemma LatestAppend(log: seq<Event>, e: Event, k: string)
    ensures !NamesKey(e, k) ==> (k in Latest(log + [e]) <==> k in Latest(log))
    ensures !NamesKey(e, k) && k in Latest(log) ==> Latest(log + [e])[k] == Latest(log)[k]
    ensures NamesKey(e, k) && k != "" && e.cmd.value.id != "" && e.cmd.value.task != "" ==>
              k in Latest(log + [e]) && LoggedOf(Latest(log + [e])[k]) == e.cmd.value
  {
    assert (log + [e])[..|log|] == log;
  }

  // ---- recovery never gets ahead

  ghost predicate Behind(sh: Shared) {
    forall k | k in Latest(sh.log) && k in sh.ctl.commands ::
      ControlRuns.Reaches(Latest(sh.log)[k].state, sh.ctl.commands[k].state)
  }

  ghost predicate CopyBehind(ctl: Ctl, pc: Pc) {
    InHand(pc).Some? && InHand(pc).value.key in ctl.commands ==>
      ControlRuns.Reaches(InHand(pc).value.state, ctl.commands[InHand(pc).value.key].state)
  }

  ghost predicate BehindInv(s: State) {
    Behind(s.sh) && forall r | r in s.reqs :: CopyBehind(s.sh.ctl, s.reqs[r])
  }

  /** Within one process, commands stay and only move forward. */
  lemma EffectAdvances(cfg: Config, sh: Shared, op: Op, ch: Choice, k: string)
    requires k in sh.ctl.commands
    ensures var next := Effect(cfg, sh, op, ch).0;
            && k in next.ctl.commands
            && next.ctl.commands[k].task == sh.ctl.commands[k].task
            && ControlRuns.Reaches(sh.ctl.commands[k].state, next.ctl.commands[k].state)
  {
  }

  lemma EffectKeepsCopyBehind(cfg: Config, sh: Shared, op: Op, ch: Choice, other: Pc)
    requires InHand(other).Some? ==> InHand(other).value.key in sh.ctl.commands
    requires CopyBehind(sh.ctl, other)
    ensures CopyBehind(Effect(cfg, sh, op, ch).0.ctl, other)
  {
    if InHand(other).Some? {
      var k := InHand(other).value.key;
      EffectAdvances(cfg, sh, op, ch, k);
      ControlRuns.ReachesTransitive(InHand(other).value.state, sh.ctl.commands[k].state,
                                    Effect(cfg, sh, op, ch).0.ctl.commands[k].state);
    }
  }

  lemma AppendKeepsBehind(cfg: Config, sh: Shared, pc: Pc, e: Event)
    requires CtlOk(cfg, sh.ctl) && Local(cfg, sh, pc) && Behind(sh) && CopyBehind(sh.ctl, pc)
    requires e.CommandEvent? && e.cmd.Some? ==> InHand(pc).Some? && e.cmd.value == LoggedOf(InHand(pc).value)
    ensures Behind(sh.(log := sh.log + [Scrub(cfg, e)]))
  {
    ScrubHeld(cfg, sh, pc, e);
    var e' := Scrub(cfg, e);
    forall k | k in Latest(sh.log + [e']) && k in sh.ctl.commands
      ensures ControlRuns.Reaches(Latest(sh.log + [e'])[k].state, sh.ctl.commands[k].state)
    {
      LatestAppend(sh.log, e', k);
      if NamesKey(e', k) { assert FixedCommand(cfg, k, sh.ctl.commands[k]); }
    }
  }

  lemma EffectKeepsBehind(cfg: Config, sh: Shared, pc: Pc, op: Op, ch: Choice)
    requires Global(cfg, sh) && Local(cfg, sh, pc) && OpBacked(cfg, sh, pc, op)
    requires Behind(sh) && CopyBehind(sh.ctl, pc)
    ensures Behind(Effect(cfg, sh, op, ch).0)
  {
    var next := Effect(cfg, sh, op, ch).0;
    if op.Append? {
      AppendKeepsBehind(cfg, sh, pc, op.e);
    } else {
      assert next.log == sh.log;
      forall k | k in Latest(next.log) && k in next.ctl.commands
        ensures ControlRuns.Reaches(Latest(next.log)[k].state, next.ctl.commands[k].state)
      {
        LatestIsKnown(cfg, sh);
        EffectAdvances(cfg, sh, op, ch, k);
        ControlRuns.ReachesTransitive(Latest(sh.log)[k].state, sh.ctl.commands[k].state, next.ctl.commands[k].state);
      }
    }
  }

  lemma CreationTakesCopy(cfg: Config, sh: Shared, job: Job, ch: Choice)
    ensures var (next, out) := Effect(cfg, sh, JobOp(cfg, job, Create), ch);
            CopyBehind(next.ctl, AfterJob(cfg, job, Create, out))
  {
    GotoHoldsNothing(cfg, Proceed(job));
    GotoHoldsNothing(cfg, Fail(job));
  }

  lemma RotationTakesCopy(cfg: Config, sh: Shared, job: Job, ch: Choice)
    requires CtlOk(cfg, sh.ctl)
    ensures var (next, out) := Effect(cfg, sh, JobOp(cfg, job, Rotating), ch);
            CopyBehind(next.ctl, AfterJob(cfg, job, Rotating, out))
  {
    GotoHoldsNothing(cfg, Fail(job));
    var key := JobKey(cfg, job);
    if key in sh.ctl.commands { assert FixedCommand(cfg, key, sh.ctl.commands[key]); }
  }

  lemma MarkTakesCopy(cfg: Config, sh: Shared, job: Job, to: CommandState, ch: Choice)
    requires Global(cfg, sh)
    ensures var (next, out) := Effect(cfg, sh, JobOp(cfg, job, Mark(to)), ch);
            CopyBehind(next.ctl, AfterJob(cfg, job, Mark(to), out))
  {
    hide Effect, Global, NewCommand, LogAgrees;
    MoveYieldsCopy(cfg, sh, JobKey(cfg, job), to, ch);
  }

  lemma JobHoldsNothing(cfg: Config, job: Job, stage: JobStage, out: Outcome)
    requires !stage.Create? && !stage.Rotating? && !stage.Mark?
    ensures InHand(AfterJob(cfg, job, stage, out)).None?
  {
    GotoHoldsNothing(cfg, Proceed(job));
    GotoHoldsNothing(cfg, Fail(job));
  }

  /** A copy that a step takes is the command as the step left it. */
  lemma JobTakesCopy(cfg: Config, sh: Shared, job: Job, stage: JobStage, ch: Choice)
    requires Global(cfg, sh)
    ensures var (next, out) := Effect(cfg, sh, JobOp(cfg, job, stage), ch);
            CopyBehind(next.ctl, AfterJob(cfg, job, stage, out))
  {
    match stage
    case Create => CreationTakesCopy(cfg, sh, job, ch);
    case Rotating => RotationTakesCopy(cfg, sh, job, ch);
    case Mark(to) => MarkTakesCopy(cfg, sh, job, to, ch);
    case _ => JobHoldsNothing(cfg, job, stage, Effect(cfg, sh, JobOp(cfg, job, stage), ch).1);
  }

  lemma WalkHoldsNothing(cfg: Config, seen: seq<Event>, i: nat, cont: Cont)
    ensures InHand(Walk(cfg, seen, i, cont)).None?
  {
    WalkStops(cfg, seen, i, cont);
  }

  lemma GotoHoldsNothing(cfg: Config, next: Next)
    ensures InHand(Goto(cfg, next)).None?
  {
    if next.ToWalk? { WalkHoldsNothing(cfg, next.seen, next.i, next.cont); }
  }

  lemma CheckTakesCopy(cfg: Config, sh: Shared, task: string, check: CheckStage, ch: Choice)
    requires Global(cfg, sh)
    ensures var (next, out) := Effect(cfg, sh, CheckOp(check), ch);
            CopyBehind(next.ctl, AfterCheck(cfg, task, check, out, ch.pick))
  {
    hide Effect, Global;
    if check.Settle? { MoveYieldsCopy(cfg, sh, check.key, check.to, ch); }
  }

  lemma OthersHoldNothing(cfg: Config, pc: Pc, out: Outcome, ch: Choice)
    requires !pc.InJob? && !pc.InCheck?
    ensures InHand(After(cfg, pc, out, ch)).None?
  {
    match pc
    case Notes(events, next, abort) =>
      GotoHoldsNothing(cfg, next);
      GotoHoldsNothing(cfg, abort);
    case InPass(cont, pass) => if out.Events? { WalkHoldsNothing(cfg, out.events, 0, cont); }
    case InDecision(d, grant, decide) => DecideHoldsNothing(d, grant, decide, out, ch.now);
    case InReconcile(reconcile) => ReconcileHoldsNothing(cfg, reconcile, out);
    case Done =>
  }

  lemma DecideHoldsNothing(d: Digest, grant: bool, decide: DecideStage, out: Outcome, now: int)
    ensures InHand(AfterDecide(d, grant, decide, out, now)).None?
  {
  }

  lemma ReconcileHoldsNothing(cfg: Config, reconcile: ReconcileStage, out: Outcome)
    ensures InHand(AfterReconcile(cfg, reconcile, out)).None?
  {
  }

  lemma PointTakesCopy(cfg: Config, sh: Shared, pc: Pc, ch: Choice)
    requires Global(cfg, sh)
    ensures var (next, pc') := Act(cfg, sh, pc, ch);
            CopyBehind(next.ctl, pc')
  {
    if pc.InJob? {
      JobTakesCopy(cfg, sh, pc.job, pc.stage, ch);
    } else if pc.InCheck? {
      CheckTakesCopy(cfg, sh, pc.task, pc.check, ch);
    } else {
      OthersHoldNothing(cfg, pc, Effect(cfg, sh, OpOf(cfg, pc, ch.now), ch).1, ch);
    }
  }

  lemma AdvanceKeepsBehind(cfg: Config, s: State, r: nat, ch: Choice)
    requires GoodConfig(cfg) && Inv(cfg, s) && BehindInv(s) && r in s.reqs
    ensures BehindInv(Do(cfg, s, Advance(r, ch)))
  {
    hide Effect, After, OpOf, Reboot, Global;
    var pc := s.reqs[r];
    var op := OpOf(cfg, pc, ch.now);
    var (next, pc') := Act(cfg, s.sh, pc, ch);
    OpIsBacked(cfg, s.sh, pc, ch.now);
    EffectKeepsBehind(cfg, s.sh, pc, op, ch);
    PointTakesCopy(cfg, s.sh, pc, ch);
    forall q | q in s.reqs && q != r ensures CopyBehind(next.ctl, s.reqs[q]) {
      EffectKeepsCopyBehind(cfg, s.sh, op, ch, s.reqs[q]);
    }
    assert Do(cfg, s, Advance(r, ch)) == State(next, s.reqs[r := pc']);
  }

  lemma RestartKeepsBehind(cfg: Config, sh: Shared, appended: bool)
    requires GoodConfig(cfg) && Global(cfg, sh)
    ensures Behind(Reboot(cfg, sh, appended))
  {
    RecoveryNeverFails(cfg, sh);
    var next := Reboot(cfg, sh, appended);
    forall k | k in Latest(next.log) && k in next.ctl.commands ensures Latest(next.log)[k] == next.ctl.commands[k] {
      LatestAppend(sh.log, Note(DispatchInterrupted, ""), k);
    }
  }

  lemma {:induction false} BehindAlways(cfg: Config, steps: seq<Step>)
    requires GoodConfig(cfg)
    ensures Inv(cfg, Exec(cfg, steps)) && BehindInv(Exec(cfg, steps))
    decreases |steps|
  {
    hide Do, Inv, Global, Local, OwnedKey;
    InvAlways(cfg, steps);
    if steps != [] {
      BehindAlways(cfg, steps[..|steps| - 1]);
      StepKeepsBehind(cfg, Exec(cfg, steps[..|steps| - 1]), steps[|steps| - 1]);
    }
  }

  lemma StepKeepsBehind(cfg: Config, s: State, step: Step)
    requires GoodConfig(cfg) && Inv(cfg, s) && BehindInv(s)
    ensures BehindInv(Do(cfg, s, step))
  {
    hide Act, Global, Local;
    match step
    case Begin(r, request) => if Do(cfg, s, step) != s { assert InHand(Entry(request)).None?; }
    case Advance(r, ch) => if r in s.reqs { AdvanceKeepsBehind(cfg, s, r, ch); }
    case Restart(appended) => RestartKeepsBehind(cfg, s.sh, appended);
  }

  /** At every moment of every run: a crash loses progress only. Each command a restart would bring back is one the server
      has, no further in its life than it really is. */
  lemma RestartIsNeverAhead(cfg: Config, steps: seq<Step>, k: string)
    requires GoodConfig(cfg) && k in Recover(cfg, Exec(cfg, steps).sh.log).commands
    ensures var sh := Exec(cfg, steps).sh;
            k in sh.ctl.commands && ControlRuns.Reaches(Recover(cfg, sh.log).commands[k].state, sh.ctl.commands[k].state)
  {
    hide Do, Local, OwnedKey;
    BehindAlways(cfg, steps);
    RecoveryNeverFails(cfg, Exec(cfg, steps).sh);
    LatestIsKnown(cfg, Exec(cfg, steps).sh);
  }
}
