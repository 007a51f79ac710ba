/** The emergency stop over whole runs: once the log holds it, no command is ever created again, across restarts; and after
    a restart nothing at all is sent. */
module StopSafety {
  import opened Model
  import opened Control
  import opened Actions
  import opened Protocol
  import opened CommandSafety
  import Traces

  predicate IsHalt(job: Job) {
    job.ControlJob? && job.kind == Halt
  }

  /** A request is past the point where it stopped the controller, or carries the event that says so. */
  ghost predicate Announces(pc: Pc) {
    match pc
    case Notes(events, _, _) => EmergencyStopped in events
    case InJob(job, stage) => IsHalt(job) && (stage.Mark? || stage.LogMark? || stage.CallOut? || stage.Unsure?)
    case _ => false
  }

  ghost predicate StopInv(s: State) {
    && (EmergencyStopped in s.sh.log ==> s.sh.ctl.stopped)
    && forall r | r in s.reqs :: Announces(s.reqs[r]) ==> s.sh.ctl.stopped
  }

  // ---- one step

  lemma EffectKeepsStop(cfg: Config, sh: Shared, pc: Pc, ch: Choice)
    requires Announces(pc) ==> sh.ctl.stopped
    requires EmergencyStopped in sh.log ==> sh.ctl.stopped
    ensures var next := Effect(cfg, sh, OpOf(cfg, pc, ch.now), ch).0;
            && (sh.ctl.stopped ==> next.ctl.stopped)
            && (EmergencyStopped in next.log ==> next.ctl.stopped)
  {
    hide Latest;
    var op := OpOf(cfg, pc, ch.now);
    if op.Append? && Scrub(cfg, op.e) == EmergencyStopped {
      match pc
      case Notes(events, _, _) => assert events != [] ==> events[0] in events;
      case _ =>
    }
  }

  lemma WalkIsQuiet(cfg: Config, seen: seq<Event>, i: nat, cont: Cont)
    ensures Quiet(Walk(cfg, seen, i, cont)) && !Announces(Walk(cfg, seen, i, cont))
  {
    WalkStops(cfg, seen, i, cont);
  }

  lemma GotoIsQuiet(cfg: Config, next: Next)
    ensures Quiet(Goto(cfg, next)) && !Announces(Goto(cfg, next))
  {
    if next.ToWalk? { WalkIsQuiet(cfg, next.seen, next.i, next.cont); }
  }

  /** No command of this request's own is on its way. */
  predicate Quiet(pc: Pc) {
    pc.InJob? ==> !OwnsStage(pc.stage)
  }

  lemma JobAnnounces(cfg: Config, sh: Shared, job: Job, stage: JobStage, ch: Choice)
    requires Announces(InJob(job, stage)) ==> sh.ctl.stopped
    ensures var (next, out) := Effect(cfg, sh, JobOp(cfg, job, stage), ch);
            Announces(AfterJob(cfg, job, stage, out)) ==> next.ctl.stopped
  {
    hide Walk;
    GotoIsQuiet(cfg, Proceed(job));
    GotoIsQuiet(cfg, Fail(job));
  }

  lemma OthersAnnounceNothingNew(cfg: Config, pc: Pc, out: Outcome, ch: Choice)
    requires !pc.InJob?
    ensures Quiet(After(cfg, pc, out, ch))
    ensures Announces(After(cfg, pc, out, ch)) ==> Announces(pc)
  {
    match pc
    case Notes(events, next, abort) =>
      GotoIsQuiet(cfg, next);
      GotoIsQuiet(cfg, abort);
    case InPass(cont, pass) => if out.Events? { WalkIsQuiet(cfg, out.events, 0, cont); }
    case InCheck(task, check) => CheckIsQuiet(cfg, task, check, out, ch.pick);
    case InDecision(d, grant, decide) => DecideIsQuiet(d, grant, decide, out, ch.now);
    case InReconcile(reconcile) => ReconcileIsQuiet(cfg, reconcile, out);
    case Done =>
  }

  lemma CheckIsQuiet(cfg: Config, task: string, check: CheckStage, out: Outcome, pick: string)
    ensures Quiet(AfterCheck(cfg, task, check, out, pick)) && !Announces(AfterCheck(cfg, task, check, out, pick))
  {
  }

  lemma DecideIsQuiet(d: Digest, grant: bool, decide: DecideStage, out: Outcome, now: int)
    ensures Quiet(AfterDecide(d, grant, decide, out, now)) && !Announces(AfterDecide(d, grant, decide, out, now))
  {
  }

  lemma ReconcileIsQuiet(cfg: Config, reconcile: ReconcileStage, out: Outcome)
    ensures Quiet(AfterReconcile(cfg, reconcile, out)) && !Announces(AfterReconcile(cfg, reconcile, out))
  {
  }

  lemma AdvanceKeepsStop(cfg: Config, s: State, r: nat, ch: Choice)
    requires StopInv(s) && r in s.reqs
    ensures StopInv(Do(cfg, s, Advance(r, ch)))
  {
    var pc := s.reqs[r];
    var (next, out) := Effect(cfg, s.sh, OpOf(cfg, pc, ch.now), ch);
    var pc' := After(cfg, pc, out, ch);
    EffectKeepsStop(cfg, s.sh, pc, ch);
    if pc.InJob? { JobAnnounces(cfg, s.sh, pc.job, pc.stage, ch); } else { OthersAnnounceNothingNew(cfg, pc, out, ch); }
    assert Do(cfg, s, Advance(r, ch)) == State(next, s.reqs[r := pc']);
  }

  lemma StepKeepsStop(cfg: Config, s: State, step: Step)
    requires GoodConfig(cfg) && Inv(cfg, s) && StopInv(s)
    ensures StopInv(Do(cfg, s, step))
  {
    hide Act, Recover, Global, CtlOk;
    match step
    case Begin(r, request) => if Do(cfg, s, step) != s { assert !Announces(Entry(request)); }
    case Advance(r, ch) => if r in s.reqs { AdvanceKeepsStop(cfg, s, r, ch); }
    case Restart(appended) => RecoveryNeverFails(cfg, s.sh);
  }

  lemma {:induction false} StopInvAlways(cfg: Config, steps: seq<Step>)
    requires GoodConfig(cfg)
    ensures Inv(cfg, Exec(cfg, steps)) && StopInv(Exec(cfg, steps))
    decreases |steps|
  {
    InvAlways(cfg, steps);
    if steps != [] {
      StopInvAlways(cfg, steps[..|steps| - 1]);
      StepKeepsStop(cfg, Exec(cfg, steps[..|steps| - 1]), steps[|steps| - 1]);
    }
  }

  // ---- what follows

  /** A logged stop is in force at every moment, whatever crashed since. */
  lemma LoggedStopIsInForce(cfg: Config, steps: seq<Step>)
    requires GoodConfig(cfg)
    ensures EmergencyStopped in Exec(cfg, steps).sh.log ==> Exec(cfg, steps).sh.ctl.stopped
  {
    StopInvAlways(cfg, steps);
  }

  lemma EffectFreezes(cfg: Config, sh: Shared, op: Op, ch: Choice)
    requires sh.ctl.stopped
    ensures Effect(cfg, sh, op, ch).0.ctl.commands.Keys == sh.ctl.commands.Keys
    ensures sh.log <= Effect(cfg, sh, op, ch).0.log
  {
  }

  lemma StepFreezes(cfg: Config, s: State, step: Step)
    requires GoodConfig(cfg) && Inv(cfg, s) && StopInv(s) && EmergencyStopped in s.sh.log
    ensures Do(cfg, s, step).sh.ctl.commands.Keys <= s.sh.ctl.commands.Keys
    ensures EmergencyStopped in Do(cfg, s, step).sh.log
  {
    hide After, Global, Local, NewCommand;
    match step
    case Begin(_, _) =>
    case Advance(r, ch) => if r in s.reqs { EffectFreezes(cfg, s.sh, OpOf(cfg, s.reqs[r], ch.now), ch); }
    case Restart(appended) =>
      RecoveryNeverFails(cfg, s.sh);
      LatestIsKnown(cfg, s.sh);
  }

  /** A logged stop, with no commands beyond `keys`. */
  ghost predicate Frozen(cfg: Config, s: State, keys: set<string>) {
    Inv(cfg, s) && StopInv(s) && EmergencyStopped in s.sh.log && s.sh.ctl.commands.Keys <= keys
  }

  lemma StepStaysFrozen(cfg: Config, s: State, step: Step, keys: set<string>)
    requires GoodConfig(cfg) && Frozen(cfg, s, keys)
    ensures Frozen(cfg, Do(cfg, s, step), keys)
  {
    StepKeeps(cfg, s, step);
    StepKeepsStop(cfg, s, step);
    StepFreezes(cfg, s, step);
  }

  /** Once the stop is in the log no command is ever created, whatever requests are in flight or follow and however often
      the server restarts. */
  lemma StopFreezesTheRun(cfg: Config, steps: seq<Step>, more: seq<Step>)
    requires GoodConfig(cfg) && EmergencyStopped in Exec(cfg, steps).sh.log
    ensures Exec(cfg, steps + more).sh.ctl.commands.Keys <= Exec(cfg, steps).sh.ctl.commands.Keys
    ensures EmergencyStopped in Exec(cfg, steps + more).sh.log && Exec(cfg, steps + more).sh.ctl.stopped
  {
    StopInvAlways(cfg, steps);
    var keys := Exec(cfg, steps).sh.ctl.commands.Keys;
    forall s, step | Frozen(cfg, s, keys) ensures Frozen(cfg, Do(cfg, s, step), keys) { StepStaysFrozen(cfg, s, step, keys); }
    Traces.Persists(cfg, steps, more, (s: State) => Frozen(cfg, s, keys));
  }

  ghost predicate AllQuiet(s: State) {
    forall r | r in s.reqs :: Quiet(s.reqs[r])
  }

  lemma StoppedJobIsQuiet(cfg: Config, sh: Shared, job: Job, stage: JobStage, ch: Choice)
    requires sh.ctl.stopped && !OwnsStage(stage)
    ensures var (next, out) := Effect(cfg, sh, JobOp(cfg, job, stage), ch);
            Quiet(AfterJob(cfg, job, stage, out)) && next.calls == sh.calls
  {
    GotoIsQuiet(cfg, Proceed(job));
    GotoIsQuiet(cfg, Fail(job));
  }

  lemma StepStaysQuiet(cfg: Config, s: State, step: Step)
    requires s.sh.ctl.stopped && AllQuiet(s)
    ensures AllQuiet(Do(cfg, s, step)) && Do(cfg, s, step).sh.calls == s.sh.calls
  {
    match step
    case Begin(r, request) => if Do(cfg, s, step) != s { assert Quiet(Entry(request)); }
    case Advance(r, ch) =>
      if r in s.reqs {
        var pc := s.reqs[r];
        var (next, out) := Effect(cfg, s.sh, OpOf(cfg, pc, ch.now), ch);
        if pc.InJob? {
          StoppedJobIsQuiet(cfg, s.sh, pc.job, pc.stage, ch);
        } else {
          OthersAnnounceNothingNew(cfg, pc, out, ch);
          OthersCallNothing(cfg, s.sh, pc, ch);
        }
        assert Do(cfg, s, step) == State(next, s.reqs[r := After(cfg, pc, out, ch)]);
      }
    case Restart(_) =>
  }

  lemma OthersCallNothing(cfg: Config, sh: Shared, pc: Pc, ch: Choice)
    requires !pc.InJob?
    ensures Effect(cfg, sh, OpOf(cfg, pc, ch.now), ch).0.calls == sh.calls
  {
  }

  /** A logged stop, no command on its way, and nothing sent beyond `calls`. */
  ghost predicate Silent(cfg: Config, s: State, calls: seq<Call>) {
    Inv(cfg, s) && StopInv(s) && EmergencyStopped in s.sh.log && AllQuiet(s) && s.sh.calls == calls
  }

  lemma StepStaysSilent(cfg: Config, s: State, step: Step, calls: seq<Call>)
    requires GoodConfig(cfg) && Silent(cfg, s, calls)
    ensures Silent(cfg, Do(cfg, s, step), calls)
  {
    StepKeeps(cfg, s, step);
    StepKeepsStop(cfg, s, step);
    StepFreezes(cfg, s, step);
    StepStaysQuiet(cfg, s, step);
  }

  lemma RestartIsSilent(cfg: Config, steps: seq<Step>, appended: bool)
    requires GoodConfig(cfg) && EmergencyStopped in Exec(cfg, steps).sh.log
    ensures Silent(cfg, Exec(cfg, steps + [Restart(appended)]), Exec(cfg, steps).sh.calls)
  {
    hide Act, Exec, Recover, Entry, Inv, Global, Local, OwnedKey;
    var s := Exec(cfg, steps);
    StopInvAlways(cfg, steps);
    Traces.ExecAfter(cfg, steps, Restart(appended));
    StepKeeps(cfg, s, Restart(appended));
    StepKeepsStop(cfg, s, Restart(appended));
    StepFreezes(cfg, s, Restart(appended));
  }

  /** After a logged stop and a restart, nothing reaches an adapter any more. */
  lemma StopAndRestartSilence(cfg: Config, steps: seq<Step>, appended: bool, more: seq<Step>)
    requires GoodConfig(cfg) && EmergencyStopped in Exec(cfg, steps).sh.log
    ensures Exec(cfg, steps + [Restart(appended)] + more).sh.calls == Exec(cfg, steps).sh.calls
  {
    var calls := Exec(cfg, steps).sh.calls;
    RestartIsSilent(cfg, steps, appended);
    forall s, step | Silent(cfg, s, calls) ensures Silent(cfg, Do(cfg, s, step), calls) { StepStaysSilent(cfg, s, step, calls); }
    Traces.Persists(cfg, steps + [Restart(appended)], more, (s: State) => Silent(cfg, s, calls));
  }
}
