/** A command whose request is logged and which no request in flight is sending stays requested for good: it is neither
    sent again nor polled nor reconciled. A crash leaves one exactly where the request is the log's last word. */
module Orphans {
  import opened Model
  import opened Control
  import opened Actions
  import ControlRuns
  import opened Protocol
  import opened CommandSafety
  import Traces
  import opened Recovery

  ghost predicate Orphan(cfg: Config, s: State, k: string) {
    && k in s.sh.ctl.commands && s.sh.ctl.commands[k].state == Requested
    && Keyed(s.sh.log, k)
    && forall r | r in s.reqs :: OwnedKey(cfg, s.reqs[r]) != Some(k)
  }

  lemma EffectKeepsOrphan(cfg: Config, sh: Shared, pc: Pc, op: Op, ch: Choice, k: string)
    requires OpBacked(cfg, sh, pc, op) && OwnedKey(cfg, pc) != Some(k)
    requires k in sh.ctl.commands && sh.ctl.commands[k].state == Requested && Keyed(sh.log, k)
    ensures var next := Effect(cfg, sh, op, ch).0;
            && k in next.ctl.commands && next.ctl.commands[k].state == Requested && Keyed(next.log, k)
            && sh.calls <= next.calls
            && (forall i | |sh.calls| <= i < |next.calls| :: next.calls[i].key != k)
  {
    hide Do, Latest;
    if op.Append? { KeyedGrows(sh.log, [Scrub(cfg, op.e)], k); }
  }

  /** Only a creation and a poll take a command over, and neither gets one that is requested. */
  lemma CreationTakesNoOrphan(cfg: Config, sh: Shared, job: Job, ch: Choice, k: string)
    requires k in sh.ctl.commands
    ensures var (next, out) := Effect(cfg, sh, JobOp(cfg, job, Create), ch);
            OwnedKey(cfg, AfterJob(cfg, job, Create, out)) != Some(k)
  {
    GotoPlainly(cfg, Proceed(job));
    GotoPlainly(cfg, Fail(job));
  }

  lemma WalkPlainly(cfg: Config, seen: seq<Event>, i: nat, cont: Cont)
    ensures OwnedKey(cfg, Walk(cfg, seen, i, cont)).None?
  {
    WalkStops(cfg, seen, i, cont);
  }

  lemma GotoPlainly(cfg: Config, next: Next)
    ensures OwnedKey(cfg, Goto(cfg, next)).None?
  {
    if next.ToWalk? { WalkPlainly(cfg, next.seen, next.i, next.cont); }
  }

  lemma JobTakesNoOrphan(cfg: Config, job: Job, stage: JobStage, out: Outcome, k: string)
    requires OwnedKey(cfg, InJob(job, stage)) != Some(k) && !stage.Create?
    ensures OwnedKey(cfg, AfterJob(cfg, job, stage, out)) != Some(k)
  {
    GotoPlainly(cfg, Proceed(job));
    GotoPlainly(cfg, Fail(job));
    if stage.Rotating? && FoundCommand(out).Some? {
      assert JobKey(cfg, WithToken(job, out.cmd.value.fence)) == JobKey(cfg, job);
    }
  }

  lemma CheckTakesNoOrphan(cfg: Config, sh: Shared, task: string, check: CheckStage, ch: Choice, k: string)
    requires OwnedKey(cfg, InCheck(task, check)) != Some(k) && k in sh.ctl.commands && sh.ctl.commands[k].state == Requested
    ensures var (next, out) := Effect(cfg, sh, CheckOp(check), ch);
            OwnedKey(cfg, AfterCheck(cfg, task, check, out, ch.pick)) != Some(k)
  {
  }

  lemma OthersTakeNothing(cfg: Config, pc: Pc, out: Outcome, ch: Choice)
    requires !pc.InJob? && !pc.InCheck?
    ensures OwnedKey(cfg, After(cfg, pc, out, ch)).None?
  {
    match pc
    case Notes(events, next, abort) =>
      GotoPlainly(cfg, next);
      GotoPlainly(cfg, abort);
    case InPass(cont, pass) => if out.Events? { WalkPlainly(cfg, out.events, 0, cont); }
    case InDecision(d, grant, decide) => AfterDecidePlain(cfg, d, grant, decide, out, ch.now);
    case InReconcile(reconcile) => AfterReconcilePlain(cfg, reconcile, out);
    case Done =>
  }

  lemma PointTakesNoOrphan(cfg: Config, sh: Shared, pc: Pc, ch: Choice, k: string)
    requires OwnedKey(cfg, pc) != Some(k) && k in sh.ctl.commands && sh.ctl.commands[k].state == Requested
    ensures OwnedKey(cfg, Act(cfg, sh, pc, ch).1) != Some(k)
  {
    var out := Effect(cfg, sh, OpOf(cfg, pc, ch.now), ch).1;
    match pc
    case InJob(job, stage) =>
      if stage.Create? { CreationTakesNoOrphan(cfg, sh, job, ch, k); } else { JobTakesNoOrphan(cfg, job, stage, out, k); }
    case InCheck(task, check) => CheckTakesNoOrphan(cfg, sh, task, check, ch, k);
    case _ => OthersTakeNothing(cfg, pc, out, ch);
  }

  ghost predicate NoNewCall(before: seq<Call>, after: seq<Call>, k: string) {
    before <= after && forall i | |before| <= i < |after| :: after[i].key != k
  }

  /** Nothing is behind a requested command, so the log has it as requested. */
  lemma LoggedAsRequested(cfg: Config, sh: Shared, k: string)
    requires GoodConfig(cfg) && Global(cfg, sh) && Behind(sh)
    requires k in sh.ctl.commands && sh.ctl.commands[k].state == Requested && Keyed(sh.log, k)
    ensures k in Recover(cfg, sh.log).commands && Recover(cfg, sh.log).commands[k].state == Requested
  {
    hide Do, Global;
    RecoveryNeverFails(cfg, sh);
    LatestIsKnown(cfg, sh);
    assert ControlRuns.Reaches(Latest(sh.log)[k].state, Requested);
  }

  lemma RestartFindsOrphan(cfg: Config, s: State, appended: bool, k: string)
    requires GoodConfig(cfg) && Inv(cfg, s) && Behind(s.sh)
    requires k in s.sh.ctl.commands && s.sh.ctl.commands[k].state == Requested && Keyed(s.sh.log, k)
    ensures Orphan(cfg, Do(cfg, s, Restart(appended)), k)
  {
    hide Act, Latest, Global, Local, OwnedKey;
    LoggedAsRequested(cfg, s.sh, k);
    KeyedGrows(s.sh.log, [Note(DispatchInterrupted, "")], k);
  }

  lemma StepKeepsOrphan(cfg: Config, s: State, step: Step, k: string)
    requires GoodConfig(cfg) && Inv(cfg, s) && BehindInv(s) && Orphan(cfg, s, k)
    ensures Orphan(cfg, Do(cfg, s, step), k) && NoNewCall(s.sh.calls, Do(cfg, s, step).sh.calls, k)
  {
    hide Exec, Global, Local;
    match step
    case Begin(r, request) => if Do(cfg, s, step) != s { assert OwnedKey(cfg, Entry(request)).None?; }
    case Advance(r, ch) =>
      if r in s.reqs {
        OpIsBacked(cfg, s.sh, s.reqs[r], ch.now);
        EffectKeepsOrphan(cfg, s.sh, s.reqs[r], OpOf(cfg, s.reqs[r], ch.now), ch, k);
        PointTakesNoOrphan(cfg, s.sh, s.reqs[r], ch, k);
      }
    case Restart(appended) => RestartFindsOrphan(cfg, s, appended, k);
  }

  lemma CallsChain(a: seq<Call>, b: seq<Call>, c: seq<Call>, k: string)
    requires NoNewCall(a, b, k) && NoNewCall(b, c, k)
    ensures NoNewCall(a, c, k)
  {
    forall i | |a| <= i < |c| ensures c[i].key != k { if i < |b| { assert c[i] == b[i]; } }
  }

  /** The command is orphaned and was not sent since `calls`. */
  ghost predicate Forgotten(cfg: Config, s: State, k: string, calls: seq<Call>) {
    Inv(cfg, s) && BehindInv(s) && Orphan(cfg, s, k) && NoNewCall(calls, s.sh.calls, k)
  }

  lemma StepStaysForgotten(cfg: Config, s: State, step: Step, k: string, calls: seq<Call>)
    requires GoodConfig(cfg) && Forgotten(cfg, s, k, calls)
    ensures Forgotten(cfg, Do(cfg, s, step), k, calls)
  {
    StepKeeps(cfg, s, step);
    StepKeepsBehind(cfg, s, step);
    StepKeepsOrphan(cfg, s, step, k);
    CallsChain(calls, s.sh.calls, Do(cfg, s, step).sh.calls, k);
  }

  /** Once orphaned, a command stays requested over every continuation, restarts included, and never reaches an adapter. */
  lemma OrphanForever(cfg: Config, steps: seq<Step>, more: seq<Step>, k: string)
    requires GoodConfig(cfg) && Orphan(cfg, Exec(cfg, steps), k)
    ensures Orphan(cfg, Exec(cfg, steps + more), k)
    ensures NoNewCall(Exec(cfg, steps).sh.calls, Exec(cfg, steps + more).sh.calls, k)
  {
    hide Do, Inv, OwnedKey;
    BehindAlways(cfg, steps);
    var calls := Exec(cfg, steps).sh.calls;
    forall s, step | Forgotten(cfg, s, k, calls) ensures Forgotten(cfg, Do(cfg, s, step), k, calls) {
      StepStaysForgotten(cfg, s, step, k, calls);
    }
    Traces.Persists(cfg, steps, more, (s: State) => Forgotten(cfg, s, k, calls));
  }

  /** A crash orphans exactly the commands of which the log's last word is the request: not sent yet, sent and not
      answered, or answered with the acknowledgement not appended yet. */
  lemma CrashOrphans(cfg: Config, steps: seq<Step>, appended: bool, k: string)
    requires GoodConfig(cfg)
    ensures var log := Exec(cfg, steps).sh.log;
            Orphan(cfg, Exec(cfg, steps + [Restart(appended)]), k) <==>
            k in Latest(log) && Latest(log)[k].state == Requested
  {
    hide Act, Exec, Recover, Latest, Inv, OwnedKey;
    InvAlways(cfg, steps);
    var sh := Exec(cfg, steps).sh;
    RecoveryNeverFails(cfg, sh);
    LatestIsKnown(cfg, sh);
    KeyedAppend(sh.log, Note(DispatchInterrupted, ""), k);
    Traces.ExecAfter(cfg, steps, Restart(appended));
  }

  /** Such a command is requested for good: no continuation sends it, polls it or reconciles it. */
  lemma OrphanedByCrash(cfg: Config, steps: seq<Step>, appended: bool, more: seq<Step>, k: string)
    requires GoodConfig(cfg)
    requires var log := Exec(cfg, steps).sh.log; k in Latest(log) && Latest(log)[k].state == Requested
    ensures var after := Exec(cfg, steps + [Restart(appended)] + more).sh;
            && k in after.ctl.commands && after.ctl.commands[k].state == Requested
            && NoNewCall(Exec(cfg, steps).sh.calls, after.calls, k)
  {
    hide Act, Exec, Recover, Latest, Inv, OwnedKey;
    CrashOrphans(cfg, steps, appended, k);
    Traces.ExecAfter(cfg, steps, Restart(appended));
    OrphanForever(cfg, steps + [Restart(appended)], more, k);
  }
}
