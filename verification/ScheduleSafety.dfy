/** Scheduling over whole runs: no task is requested or sent before its dependencies are done and, when it has side
    effects, before its own action is granted, however old the log is that the scheduling pass looked at. */
module ScheduleSafety {
  import opened Model
  import opened Control
  import opened Actions
  import opened Protocol
  import opened CommandSafety
  import ApprovalSafety

  /** What must be in a log before task `i` of the plan may be handed out. */
  ghost predicate Cleared(cfg: Config, log: seq<Event>, i: nat) {
    && i < |cfg.plan|
    && DepsCompleted(log, cfg.plan[i].deps)
    && (cfg.plan[i].guarded ==> IsGranted(log, DigestOf(cfg.plan[i].action)))
  }

  /** Some planned task of this id is cleared. */
  ghost predicate ClearedTask(cfg: Config, log: seq<Event>, task: string) {
    exists i: nat | i < |cfg.plan| :: cfg.plan[i].id == task && Cleared(cfg, log, i)
  }

  predicate IsDispatchRequest(e: Event) {
    e.CommandEvent? && e.source == ByCommand && e.kind == Dispatch && e.suffix == Requested && e.cmd.Some?
  }

  ghost predicate RequestsCleared(cfg: Config, log: seq<Event>) {
    forall j | 0 <= j < |log| && IsDispatchRequest(log[j]) :: ClearedTask(cfg, log[..j], log[j].cmd.value.task)
  }

  ghost predicate CallsCleared(cfg: Config, sh: Shared) {
    forall i | 0 <= i < |sh.calls| && sh.calls[i].kind == Dispatch ::
      sh.calls[i].key == DispatchKey(cfg, sh.calls[i].task) && ClearedTask(cfg, sh.log, sh.calls[i].task)
  }

  ghost predicate NextReady(log: seq<Event>, next: Next) {
    match next
    case ToWalk(seen, _, _) => seen <= log
    case ToCreate(job) => job.RetryJob?
    case _ => true
  }

  ghost predicate JobReady(cfg: Config, log: seq<Event>, job: Job) {
    match job
    case DispatchJob(seen, i, _) => seen <= log && Cleared(cfg, seen, i)
    case ControlJob(kind, _, _, _) => kind != Dispatch
    case RetryJob(_, _, _) => true
  }

  ghost predicate PassReady(cfg: Config, log: seq<Event>, pass: PassStage) {
    pass.Routing? ==> pass.seen <= log && pass.i < |cfg.plan| && DepsCompleted(pass.seen, cfg.plan[pass.i].deps)
  }

  /** What a request has checked so far, against the log it has seen: a prefix of the log as it is now. */
  ghost predicate Ready(cfg: Config, log: seq<Event>, pc: Pc) {
    match pc
    case Notes(_, next, abort) => NextReady(log, next) && NextReady(log, abort)
    case InPass(_, pass) => PassReady(cfg, log, pass)
    case InJob(job, stage) =>
      JobReady(cfg, log, job) && (stage.LogRequest? && job.DispatchJob? ==> stage.cmd.task == cfg.plan[job.i].id)
    case InCheck(_, check) => check.LogSettle? ==> check.logTo != Requested
    case _ => true
  }

  ghost predicate ScheduleInv(cfg: Config, s: State) {
    && RequestsCleared(cfg, s.sh.log)
    && CallsCleared(cfg, s.sh)
    && forall r | r in s.reqs :: Ready(cfg, s.sh.log, s.reqs[r])
  }

  // ---- growth of the log

  lemma ClearedGrows(cfg: Config, log: seq<Event>, more: seq<Event>, i: nat)
    requires log <= more && Cleared(cfg, log, i)
    ensures Cleared(cfg, more, i)
  {
    forall d | d in cfg.plan[i].deps ensures IsCompleted(more, d) { assert IsCompleted(log, d); }
  }

  lemma ClearedTaskGrows(cfg: Config, log: seq<Event>, more: seq<Event>, task: string)
    requires log <= more && ClearedTask(cfg, log, task)
    ensures ClearedTask(cfg, more, task)
  {
    var i: nat :| i < |cfg.plan| && cfg.plan[i].id == task && Cleared(cfg, log, i);
    ClearedGrows(cfg, log, more, i);
  }

  lemma ReadyGrows(cfg: Config, log: seq<Event>, more: seq<Event>, pc: Pc)
    requires log <= more && Ready(cfg, log, pc)
    ensures Ready(cfg, more, pc)
  {
  }

  lemma RequestsAppend(cfg: Config, log: seq<Event>, e: Event)
    requires RequestsCleared(cfg, log)
    requires IsDispatchRequest(e) ==> ClearedTask(cfg, log, e.cmd.value.task)
    ensures RequestsCleared(cfg, log + [e])
  {
    var all := log + [e];
    forall j | 0 <= j < |all| && IsDispatchRequest(all[j]) ensures ClearedTask(cfg, all[..j], all[j].cmd.value.task) {
      assert all[..j] == log[..j];
      assert log[..|log|] == log;
    }
  }

  lemma CallsGrow(cfg: Config, sh: Shared, next: Shared)
    requires CallsCleared(cfg, sh) && sh.log <= next.log && next.calls == sh.calls
    ensures CallsCleared(cfg, next)
  {
    forall i | 0 <= i < |next.calls| && next.calls[i].kind == Dispatch
      ensures ClearedTask(cfg, next.log, next.calls[i].task)
    {
      ClearedTaskGrows(cfg, sh.log, next.log, sh.calls[i].task);
    }
  }

  // ---- one step

  /** Requests for tasks and calls that hand them out come from a job whose task is cleared. */
  ghost predicate OpCleared(cfg: Config, log: seq<Event>, op: Op) {
    match op
    case Append(e) => IsDispatchRequest(e) ==> ClearedTask(cfg, log, e.cmd.value.task)
    case Adapter(call) => call.kind == Dispatch ==> call.key == DispatchKey(cfg, call.task) && ClearedTask(cfg, log, call.task)
    case _ => true
  }

  lemma ReadyJobIsCleared(cfg: Config, log: seq<Event>, job: Job)
    requires JobReady(cfg, log, job)
    ensures job.DispatchJob? ==>
              ClearedTask(cfg, log, JobTask(cfg, job)) && JobKey(cfg, job) == DispatchKey(cfg, JobTask(cfg, job))
              && JobTask(cfg, job) == cfg.plan[job.i].id
    ensures !job.DispatchJob? ==> JobKind(job) != Dispatch
  {
    if job.DispatchJob? { ClearedGrows(cfg, job.seen, log, job.i); }
  }

  lemma OpIsCleared(cfg: Config, log: seq<Event>, pc: Pc, now: int)
    requires Shaped(cfg, pc) && Ready(cfg, log, pc)
    ensures OpCleared(cfg, log, OpOf(cfg, pc, now))
  {
    match pc
    case Notes(events, _, _) => assert events != [] ==> events[0] in events;
    case InJob(job, stage) => ReadyJobIsCleared(cfg, log, job);
    case InCheck(_, check) =>
    case _ =>
  }

  lemma ScrubKeepsRequests(cfg: Config, e: Event)
    ensures IsDispatchRequest(Scrub(cfg, e)) <==> IsDispatchRequest(e)
  {
  }

  lemma EffectGrowsLog(cfg: Config, sh: Shared, op: Op, ch: Choice)
    ensures sh.log <= Effect(cfg, sh, op, ch).0.log
  {
  }

  lemma EffectKeepsSchedule(cfg: Config, sh: Shared, pc: Pc, op: Op, ch: Choice)
    requires Global(cfg, sh) && Local(cfg, sh, pc) && OpBacked(cfg, sh, pc, op)
    requires RequestsCleared(cfg, sh.log) && CallsCleared(cfg, sh) && OpCleared(cfg, sh.log, op)
    ensures var next := Effect(cfg, sh, op, ch).0;
            RequestsCleared(cfg, next.log) && CallsCleared(cfg, next)
  {
    hide Scrub, Local, Shaped, OwnedKey, CtlOk, LogAgrees;
    var next := Effect(cfg, sh, op, ch).0;
    if op.Append? && ch.appended {
      ScrubHeld(cfg, sh, pc, op.e);
      ScrubKeepsRequests(cfg, op.e);
      RequestsAppend(cfg, sh.log, Scrub(cfg, op.e));
    }
    if !op.Adapter? { CallsGrow(cfg, sh, next); }
  }

  // ---- where the request goes next

  lemma WalkReady(cfg: Config, log: seq<Event>, seen: seq<Event>, i: nat, cont: Cont)
    requires seen <= log
    ensures Ready(cfg, log, Walk(cfg, seen, i, cont))
  {
    WalkStops(cfg, seen, i, cont);
  }

  lemma GotoReady(cfg: Config, log: seq<Event>, next: Next)
    requires NextReady(log, next)
    ensures Ready(cfg, log, Goto(cfg, next))
  {
    if next.ToWalk? { WalkReady(cfg, log, next.seen, next.i, next.cont); }
  }

  lemma PassLandsReady(cfg: Config, log: seq<Event>, cont: Cont, pass: PassStage, out: Outcome)
    requires PassReady(cfg, log, pass) && (out.Events? ==> out.events <= log)
    ensures Ready(cfg, log, AfterPass(cfg, cont, pass, out))
  {
    if pass.Reading? && out.Events? { WalkReady(cfg, log, out.events, 0, cont); }
  }

  lemma MarkNotesReady(cfg: Config, log: seq<Event>, job: Job, to: CommandState)
    requires JobReady(cfg, log, job)
    ensures Ready(cfg, log, MarkNotes(cfg, job, to))
  {
  }

  /** A creation or a rotation hands back the command that was asked for. */
  ghost predicate OutcomeFits(cfg: Config, job: Job, stage: JobStage, out: Outcome) {
    && (stage.Create? && out.Creation? && out.made.Created? ==> out.made.cmd.task == JobTask(cfg, job))
    && (stage.Rotating? && out.Found? && out.cmd.Some? ==> out.cmd.value.task == JobTask(cfg, job))
  }

  lemma JobLandsReady(cfg: Config, log: seq<Event>, job: Job, stage: JobStage, out: Outcome)
    requires Ready(cfg, log, InJob(job, stage)) && OutcomeFits(cfg, job, stage, out)
    ensures Ready(cfg, log, AfterJob(cfg, job, stage, out))
  {
    GotoReady(cfg, log, Proceed(job));
    GotoReady(cfg, log, Fail(job));
    if stage.LogMark? { MarkNotesReady(cfg, log, job, stage.logTo); }
  }

  lemma EffectOutcomeFits(cfg: Config, sh: Shared, job: Job, stage: JobStage, ch: Choice)
    ensures OutcomeFits(cfg, job, stage, Effect(cfg, sh, JobOp(cfg, job, stage), ch).1)
  {
  }

  lemma CheckLandsReady(cfg: Config, log: seq<Event>, task: string, check: CheckStage, out: Outcome, pick: string)
    requires CheckOk(check)
    ensures Ready(cfg, log, AfterCheck(cfg, task, check, out, pick))
  {
  }

  lemma NotesLandReady(cfg: Config, log: seq<Event>, events: seq<Event>, next: Next, abort: Next, out: Outcome)
    requires NextReady(log, next) && NextReady(log, abort)
    ensures Ready(cfg, log, AfterNotes(cfg, events, next, abort, out))
  {
    GotoReady(cfg, log, next);
    GotoReady(cfg, log, abort);
  }

  lemma DecideLandsReady(cfg: Config, log: seq<Event>, d: Digest, grant: bool, decide: DecideStage, out: Outcome, now: int)
    ensures Ready(cfg, log, AfterDecide(d, grant, decide, out, now))
  {
  }

  lemma ReconcileLandsReady(cfg: Config, log: seq<Event>, reconcile: ReconcileStage, out: Outcome)
    ensures Ready(cfg, log, AfterReconcile(cfg, reconcile, out))
  {
  }

  lemma PointLandsReady(cfg: Config, sh: Shared, pc: Pc, ch: Choice)
    requires Shaped(cfg, pc) && Ready(cfg, sh.log, pc)
    ensures var (next, pc') := Act(cfg, sh, pc, ch);
            Ready(cfg, next.log, pc')
  {
    var op := OpOf(cfg, pc, ch.now);
    var (next, out) := Effect(cfg, sh, op, ch);
    EffectGrowsLog(cfg, sh, op, ch);
    ReadyGrows(cfg, sh.log, next.log, pc);
    match pc
    case Done =>
    case Notes(events, then_, abort) => NotesLandReady(cfg, next.log, events, then_, abort, out);
    case InPass(cont, pass) => PassLandsReady(cfg, next.log, cont, pass, out);
    case InJob(job, stage) =>
      EffectOutcomeFits(cfg, sh, job, stage, ch);
      JobLandsReady(cfg, next.log, job, stage, out);
    case InCheck(task, check) => CheckLandsReady(cfg, next.log, task, check, out, ch.pick);
    case InDecision(d, grant, decide) => DecideLandsReady(cfg, next.log, d, grant, decide, out, ch.now);
    case InReconcile(reconcile) => ReconcileLandsReady(cfg, next.log, reconcile, out);
  }

  // ---- runs

  lemma AdvanceKeepsSchedule(cfg: Config, s: State, r: nat, ch: Choice)
    requires GoodConfig(cfg) && Inv(cfg, s) && ScheduleInv(cfg, s) && r in s.reqs
    ensures ScheduleInv(cfg, Do(cfg, s, Advance(r, ch)))
  {
    hide Exec, Effect, After, OpOf, Reboot, Global;
    var pc := s.reqs[r];
    var op := OpOf(cfg, pc, ch.now);
    var (next, pc') := Act(cfg, s.sh, pc, ch);
    OpIsBacked(cfg, s.sh, pc, ch.now);
    OpIsCleared(cfg, s.sh.log, pc, ch.now);
    EffectKeepsSchedule(cfg, s.sh, pc, op, ch);
    PointLandsReady(cfg, s.sh, pc, ch);
    EffectGrowsLog(cfg, s.sh, op, ch);
    forall q | q in s.reqs && q != r ensures Ready(cfg, next.log, s.reqs[q]) {
      ReadyGrows(cfg, s.sh.log, next.log, s.reqs[q]);
    }
    assert Do(cfg, s, Advance(r, ch)) == State(next, s.reqs[r := pc']);
  }

  lemma RestartKeepsSchedule(cfg: Config, s: State, appended: bool)
    requires ScheduleInv(cfg, s)
    ensures ScheduleInv(cfg, Do(cfg, s, Restart(appended)))
  {
    hide Act, Recover, Entry;
    var next := Reboot(cfg, s.sh, appended);
    RequestsAppend(cfg, s.sh.log, Note(DispatchInterrupted, ""));
    CallsGrow(cfg, s.sh, next);
  }

  lemma StepKeepsSchedule(cfg: Config, s: State, step: Step)
    requires GoodConfig(cfg) && Inv(cfg, s) && ScheduleInv(cfg, s)
    ensures ScheduleInv(cfg, Do(cfg, s, step))
  {
    hide Act, Reboot, Inv;
    match step
    case Begin(r, request) =>
      if Do(cfg, s, step) != s { assert Ready(cfg, s.sh.log, Entry(request)); }
    case Advance(r, ch) => if r in s.reqs { AdvanceKeepsSchedule(cfg, s, r, ch); }
    case Restart(appended) => RestartKeepsSchedule(cfg, s, appended);
  }

  lemma {:induction false} ScheduleInvAlways(cfg: Config, steps: seq<Step>)
    requires GoodConfig(cfg)
    ensures Inv(cfg, Exec(cfg, steps)) && ScheduleInv(cfg, Exec(cfg, steps))
    decreases |steps|
  {
    hide Do, Inv, Global, Local, OwnedKey;
    InvAlways(cfg, steps);
    if steps != [] {
      ScheduleInvAlways(cfg, steps[..|steps| - 1]);
      StepKeepsSchedule(cfg, Exec(cfg, steps[..|steps| - 1]), steps[|steps| - 1]);
    }
  }

  // ---- what follows

  ghost predicate PlanDistinct(cfg: Config) {
    forall i, j | 0 <= i < j < |cfg.plan| :: cfg.plan[i].id != cfg.plan[j].id
  }

  lemma ClearedTaskIs(cfg: Config, log: seq<Event>, i: nat)
    requires PlanDistinct(cfg) && i < |cfg.plan| && ClearedTask(cfg, log, cfg.plan[i].id)
    ensures Cleared(cfg, log, i)
  {
    var j: nat :| j < |cfg.plan| && cfg.plan[j].id == cfg.plan[i].id && Cleared(cfg, log, j);
  }

  /** A logged request for a planned task comes after the completion of each dependency and, for a guarded task, after the
      grant of the digest of exactly its action. */
  lemma RequestFollowsClearance(cfg: Config, steps: seq<Step>, j: nat, i: nat)
    requires GoodConfig(cfg) && PlanDistinct(cfg)
    requires var log := Exec(cfg, steps).sh.log;
             && j < |log| && IsDispatchRequest(log[j])
             && i < |cfg.plan| && log[j].cmd.value.task == cfg.plan[i].id
    ensures var before := Exec(cfg, steps).sh.log[..j];
            && (forall d | d in cfg.plan[i].deps :: TaskCompleted(d) in before)
            && (cfg.plan[i].guarded ==> ApprovalDecided(DigestOf(cfg.plan[i].action), true) in before)
  {
    hide Do, Inv;
    ScheduleInvAlways(cfg, steps);
    var before := Exec(cfg, steps).sh.log[..j];
    ClearedTaskIs(cfg, before, i);
    forall d | d in cfg.plan[i].deps ensures TaskCompleted(d) in before { assert IsCompleted(before, d); }
  }

  /** Every dispatch request is for a task of the plan. */
  lemma RequestsArePlanned(cfg: Config, steps: seq<Step>, j: nat) returns (i: nat)
    requires GoodConfig(cfg)
    requires var log := Exec(cfg, steps).sh.log; j < |log| && IsDispatchRequest(log[j])
    ensures i < |cfg.plan| && Exec(cfg, steps).sh.log[j].cmd.value.task == cfg.plan[i].id
  {
    ScheduleInvAlways(cfg, steps);
    var log := Exec(cfg, steps).sh.log;
    i :| i < |cfg.plan| && cfg.plan[i].id == log[j].cmd.value.task && Cleared(cfg, log[..j], i);
  }

  /** The adapter is asked to dispatch a task at most once in a run, in every interleaving and across every restart. */
  lemma DispatchedAtMostOnce(cfg: Config, steps: seq<Step>, i: nat, j: nat)
    requires GoodConfig(cfg)
    requires var calls := Exec(cfg, steps).sh.calls;
             && i < |calls| && j < |calls| && calls[i].kind == Dispatch && calls[j].kind == Dispatch
             && calls[i].task == calls[j].task
    ensures i == j
  {
    ScheduleInvAlways(cfg, steps);
  }

  /** What reaches the adapter as a dispatch is a cleared task of the plan. */
  lemma DispatchIsCleared(cfg: Config, steps: seq<Step>, c: nat, i: nat)
    requires GoodConfig(cfg) && PlanDistinct(cfg)
    requires var calls := Exec(cfg, steps).sh.calls;
             c < |calls| && calls[c].kind == Dispatch && i < |cfg.plan| && calls[c].task == cfg.plan[i].id
    ensures Cleared(cfg, Exec(cfg, steps).sh.log, i)
  {
    ScheduleInvAlways(cfg, steps);
    ClearedTaskIs(cfg, Exec(cfg, steps).sh.log, i);
  }

  /** A guarded task is requested only after its own action was put up for approval and then granted: the request carries
      that very action, agent, versions and scope. */
  lemma GuardedRequestWasApproved(cfg: Config, steps: seq<Step>, j: nat, i: nat) returns (asked: nat, granted: nat)
    requires GoodConfig(cfg) && PlanDistinct(cfg)
    requires var log := Exec(cfg, steps).sh.log;
             && j < |log| && IsDispatchRequest(log[j])
             && i < |cfg.plan| && log[j].cmd.value.task == cfg.plan[i].id && cfg.plan[i].guarded
    ensures var log := Exec(cfg, steps).sh.log;
            && asked < granted < j
            && log[granted] == ApprovalDecided(DigestOf(cfg.plan[i].action), true)
            && log[asked].ApprovalRequested? && log[asked].action == cfg.plan[i].action
  {
    RequestFollowsClearance(cfg, steps, j, i);
    var log := Exec(cfg, steps).sh.log;
    var before := log[..j];
    granted :| 0 <= granted < |before| && before[granted] == ApprovalDecided(DigestOf(cfg.plan[i].action), true);
    asked := ApprovalSafety.DecisionAnswersARequest(cfg, steps, granted);
  }

  /** A guarded task whose action was denied is never requested, before or after. */
  lemma DeniedTaskIsNeverRequested(cfg: Config, steps: seq<Step>, j: nat, i: nat)
    requires GoodConfig(cfg) && PlanDistinct(cfg)
    requires i < |cfg.plan| && cfg.plan[i].guarded
    requires ApprovalDecided(DigestOf(cfg.plan[i].action), false) in Exec(cfg, steps).sh.log
    requires j < |Exec(cfg, steps).sh.log| && IsDispatchRequest(Exec(cfg, steps).sh.log[j])
    ensures Exec(cfg, steps).sh.log[j].cmd.value.task != cfg.plan[i].id
  {
    var log := Exec(cfg, steps).sh.log;
    if log[j].cmd.value.task == cfg.plan[i].id {
      RequestFollowsClearance(cfg, steps, j, i);
      var d := DigestOf(cfg.plan[i].action);
      var g :| 0 <= g < |log[..j]| && log[..j][g] == ApprovalDecided(d, true);
      var n :| 0 <= n < |log| && log[n] == ApprovalDecided(d, false);
      ApprovalSafety.OneDecisionPerApproval(cfg, steps, g, n);
    }
  }
}
