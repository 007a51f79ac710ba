/** What a restart makes of a run's definitions. The graph and the catalog are stored redacted and read back from the store,
    so from the first restart on the server works from what redaction left of them. */
module Reloading {
  import opened Model
  import opened Control
  import opened Actions
  import opened Protocol
  import opened CommandSafety
  import opened EmptyRuns
  import opened Traces

  ghost predicate Restarted(steps: seq<Step>) {
    exists n | 0 <= n < |steps| :: steps[n].Restart?
  }

  ghost function Now(cfg: Config, later: Config, steps: seq<Step>): Config {
    if Restarted(steps) then later else cfg
  }

  /** A run as the server lives it: from the definitions as they were given, and after a restart from the stored ones. */
  ghost function Live(cfg: Config, later: Config, steps: seq<Step>): State
    decreases |steps|
  {
    if steps == [] then Init(cfg)
    else
      var rest := steps[..|steps| - 1];
      Do(Now(cfg, later, rest), Live(cfg, later, rest), steps[|steps| - 1])
  }

  /** The same run, bound and store. */
  ghost predicate SameServer(cfg: Config, later: Config) {
    cfg.run == later.run && cfg.bound == later.bound && cfg.redact == later.redact
  }

  lemma RestartedPrefix(steps: seq<Step>)
    requires steps != []
    ensures Restarted(steps) <==> Restarted(steps[..|steps| - 1]) || steps[|steps| - 1].Restart?
  {
    var rest := steps[..|steps| - 1];
    assert forall n | 0 <= n < |rest| :: rest[n] == steps[n];
  }

  /** Definitions that come back as they were make no difference, and neither does anything before the first restart. */
  lemma {:induction false} LiveIsExec(cfg: Config, later: Config, steps: seq<Step>)
    requires later == cfg || !Restarted(steps)
    ensures Live(cfg, later, steps) == Exec(cfg, steps)
    decreases |steps|
  {
    hide Do;
    if steps != [] {
      RestartedPrefix(steps);
      LiveIsExec(cfg, later, steps[..|steps| - 1]);
    }
  }

  /** Until the first scheduling pass nothing depends on the definitions. */
  lemma StartIsPlanless(cfg: Config, later: Config)
    requires SameServer(cfg, later)
    ensures Live(cfg, later, START) == Exec(later, START)
  {
    hide Act;
    var first := [Advance(0, CH)];
    StartLogs(cfg);
    StartLogs(later);
    LiveIsExec(cfg, later, first);
    assert START[..|START| - 1] == first && START[|START| - 1] == Restart(true);
    SameReboot(cfg, later, Exec(later, first), true);
  }

  lemma SameReboot(cfg: Config, later: Config, s: State, appended: bool)
    requires SameServer(cfg, later)
    ensures Do(cfg, s, Restart(appended)) == Do(later, s, Restart(appended))
  {
    hide RestoreCommands, Latest;
  }

  /** A server that restarts right after the start has scheduled from the stored definitions only. */
  lemma {:induction false} LiveAfterStart(cfg: Config, later: Config, steps: seq<Step>)
    requires SameServer(cfg, later)
    ensures Live(cfg, later, START + steps) == Exec(later, START + steps)
    decreases |steps|
  {
    hide Do;
    var all := START + steps;
    if steps == [] {
      assert all == START;
      StartIsPlanless(cfg, later);
    } else {
      assert all[..|all| - 1] == START + steps[..|steps| - 1];
      assert all[..|all| - 1][1] == Restart(true);
      LiveAfterStart(cfg, later, steps[..|steps| - 1]);
    }
  }

  // ---- what a logged completion of the run says about its tasks

  predicate IsCompletion(e: Event) {
    e.Note? && e.what == DispatchCompleted
  }

  /** Whoever is about to log the completion of the run has seen every task completed. */
  ghost predicate Counted(cfg: Config, log: seq<Event>, pc: Pc) {
    match pc
    case InCheck(_, CheckAll(i, all)) => all ==> forall j | 0 <= j < i && j < |cfg.plan| :: IsCompleted(log, cfg.plan[j].id)
    case Notes(events, _, _) => (exists e | e in events :: IsCompletion(e)) ==> AllCompleted(cfg, log)
    case _ => true
  }

  lemma CountedGrows(cfg: Config, log: seq<Event>, more: seq<Event>, pc: Pc)
    requires Counted(cfg, log, pc) && log <= more
    ensures Counted(cfg, more, pc)
  {
    assert forall e | e in log :: e in more;
  }

  lemma EndCounted(cfg: Config, log: seq<Event>, ok: bool, cont: Cont)
    ensures Counted(cfg, log, End(ok, cont))
  {
  }

  lemma WalkCounted(cfg: Config, log: seq<Event>, seen: seq<Event>, i: nat, cont: Cont)
    ensures Counted(cfg, log, Walk(cfg, seen, i, cont))
  {
    WalkStops(cfg, seen, i, cont);
    EndCounted(cfg, log, true, cont);
    EndCounted(cfg, log, false, cont);
  }

  lemma GotoCounted(cfg: Config, log: seq<Event>, next: Next)
    ensures Counted(cfg, log, Goto(cfg, next))
  {
    match next
    case ToWalk(seen, i, cont) => WalkCounted(cfg, log, seen, i, cont);
    case ToEnd(ok, cont) => EndCounted(cfg, log, ok, cont);
    case _ =>
  }

  lemma PassCounted(cfg: Config, log: seq<Event>, cont: Cont, pass: PassStage, out: Outcome)
    ensures Counted(cfg, log, AfterPass(cfg, cont, pass, out))
  {
    EndCounted(cfg, log, true, cont);
    EndCounted(cfg, log, false, cont);
    if out.Events? { WalkCounted(cfg, log, out.events, 0, cont); }
  }

  lemma JobCounted(cfg: Config, log: seq<Event>, job: Job, stage: JobStage, out: Outcome)
    ensures Counted(cfg, log, AfterJob(cfg, job, stage, out))
  {
    hide Goto, AllCompleted;
    GotoCounted(cfg, log, Proceed(job));
    GotoCounted(cfg, log, Fail(job));
  }

  lemma CheckCounted(cfg: Config, log: seq<Event>, task: string, check: CheckStage, out: Outcome, pick: string)
    requires Counted(cfg, log, InCheck(task, check)) && (check.CheckAll? && out.Events? ==> out.events == log)
    ensures Counted(cfg, log, AfterCheck(cfg, task, check, out, pick))
  {
    if check.CheckAll? && check.i >= |cfg.plan| && check.all {
      forall t | t in cfg.plan ensures IsCompleted(log, t.id) {
        var j :| 0 <= j < |cfg.plan| && cfg.plan[j] == t;
      }
    }
  }

  lemma DecideCounted(cfg: Config, log: seq<Event>, d: Digest, grant: bool, decide: DecideStage, out: Outcome, now: int)
    ensures Counted(cfg, log, AfterDecide(d, grant, decide, out, now))
  {
    hide AllCompleted;
  }

  lemma ReconcileCounted(cfg: Config, log: seq<Event>, reconcile: ReconcileStage, out: Outcome)
    requires reconcile.SurveyLog? && out.Events? ==> out.events == log
    ensures Counted(cfg, log, AfterReconcile(cfg, reconcile, out))
  {
  }

  lemma NotesCounted(cfg: Config, log: seq<Event>, events: seq<Event>, next: Next, abort: Next, out: Outcome)
    requires Counted(cfg, log, Notes(events, next, abort))
    ensures Counted(cfg, log, AfterNotes(cfg, events, next, abort, out))
  {
    GotoCounted(cfg, log, next);
    GotoCounted(cfg, log, abort);
    assert forall e | |events| > 1 && e in events[1..] :: e in events;
  }

  lemma PointCounted(cfg: Config, sh: Shared, pc: Pc, ch: Choice)
    requires Counted(cfg, sh.log, pc)
    ensures var (next, pc') := Act(cfg, sh, pc, ch);
            Counted(cfg, next.log, pc')
  {
    hide AfterJob, AfterPass, AfterCheck, AfterReconcile, AfterNotes, AfterDecide, Counted, JobOp;
    var (next, out) := Effect(cfg, sh, OpOf(cfg, pc, ch.now), ch);
    LogGrows(cfg, sh, OpOf(cfg, pc, ch.now), ch);
    CountedGrows(cfg, sh.log, next.log, pc);
    match pc
    case Done => assert Counted(cfg, next.log, Done);
    case Notes(events, n, abort) => NotesCounted(cfg, next.log, events, n, abort, out);
    case InPass(cont, pass) => PassCounted(cfg, next.log, cont, pass, out);
    case InJob(job, stage) => JobCounted(cfg, next.log, job, stage, out);
    case InCheck(task, check) => CheckCounted(cfg, next.log, task, check, out, ch.pick);
    case InDecision(d, grant, decide) => DecideCounted(cfg, next.log, d, grant, decide, out, ch.now);
    case InReconcile(reconcile) => ReconcileCounted(cfg, next.log, reconcile, out);
  }

  lemma LogGrows(cfg: Config, sh: Shared, op: Op, ch: Choice)
    ensures sh.log <= Effect(cfg, sh, op, ch).0.log
  {
  }

  /** Every completion in the log is kept under an identifier that redaction leaves alone. */
  ghost predicate CompletionsStored(cfg: Config, log: seq<Event>) {
    forall task | TaskCompleted(task) in log :: Fixed(cfg, task)
  }

  ghost predicate Idempotent(redact: string -> string) {
    forall s :: redact(redact(s)) == redact(s)
  }

  ghost predicate CountedInv(cfg: Config, s: State) {
    CompletionsStored(cfg, s.sh.log) && forall r | r in s.reqs :: Counted(cfg, s.sh.log, s.reqs[r])
  }

  /** When a step logs the completion of the run, every task of the plan has completed. */
  lemma AppendCounts(cfg: Config, sh: Shared, pc: Pc, ch: Choice)
    requires Idempotent(cfg.redact) && CompletionsStored(cfg, sh.log) && Counted(cfg, sh.log, pc)
    ensures var next := Act(cfg, sh, pc, ch).0;
            && CompletionsStored(cfg, next.log)
            && (CompletionLogged(next.log) ==> CompletionLogged(sh.log) || AllCompleted(cfg, sh.log))
  {
    hide After, AllCompleted;
    var op := OpOf(cfg, pc, ch.now);
    if op.Append? && ch.appended {
      var e := Scrub(cfg, op.e);
      assert forall x :: x in sh.log + [e] <==> x in sh.log || x == e;
      if IsCompletion(e) {
        assert pc.Notes? && pc.events[0] in pc.events && IsCompletion(pc.events[0]);
      }
    }
  }

  lemma StepCounts(cfg: Config, s: State, step: Step)
    requires Idempotent(cfg.redact) && CountedInv(cfg, s)
    ensures var t := Do(cfg, s, step);
            && CountedInv(cfg, t) && s.sh.log <= t.sh.log
            && (CompletionLogged(t.sh.log) ==> CompletionLogged(s.sh.log) || AllCompleted(cfg, s.sh.log))
  {
    hide Effect, After, OpOf, Recover, AllCompleted, CompletionsStored;
    match step
    case Begin(r, request) => if Do(cfg, s, step) != s { assert Counted(cfg, s.sh.log, Entry(request)); }
    case Advance(r, ch) =>
      if r in s.reqs {
        LogGrows(cfg, s.sh, OpOf(cfg, s.reqs[r], ch.now), ch);
        AppendCounts(cfg, s.sh, s.reqs[r], ch);
        PointCounted(cfg, s.sh, s.reqs[r], ch);
        var next := Act(cfg, s.sh, s.reqs[r], ch).0;
        forall q | q in s.reqs ensures Counted(cfg, next.log, s.reqs[q]) { CountedGrows(cfg, s.sh.log, next.log, s.reqs[q]); }
      }
    case Restart(appended) => RebootCounts(cfg, s.sh, appended);
  }

  lemma RebootCounts(cfg: Config, sh: Shared, appended: bool)
    requires CompletionsStored(cfg, sh.log)
    ensures var log := Reboot(cfg, sh, appended).log;
            && CompletionsStored(cfg, log) && sh.log <= log && (CompletionLogged(log) ==> CompletionLogged(sh.log))
  {
    hide Recover;
    var e := Note(DispatchInterrupted, "");
    assert forall x :: x in sh.log + [e] <==> x in sh.log || x == e;
  }

  // ---- completion as seen from the definitions as they were given

  /** Every task has completed, under the id the store keeps it by. */
  ghost predicate Earned(cfg: Config, log: seq<Event>) {
    forall t | t in cfg.plan :: TaskCompleted(cfg.redact(t.id)) in log
  }

  /** Every task comes back, under the id the store keeps it by. */
  ghost predicate Covers(cfg: Config, later: Config) {
    forall t | t in cfg.plan :: exists u | u in later.plan :: u.id == cfg.redact(t.id)
  }

  ghost predicate LiveInv(cfg: Config, later: Config, steps: seq<Step>) {
    var s := Live(cfg, later, steps);
    && CountedInv(Now(cfg, later, steps), s)
    && (CompletionLogged(s.sh.log) ==> Earned(cfg, s.sh.log))
    && (CompletionLogged(s.sh.log) && !Restarted(steps) ==> AllCompleted(cfg, s.sh.log))
  }

  lemma CompletedIsEarned(cfg: Config, now: Config, log: seq<Event>)
    requires now == cfg || Covers(cfg, now)
    requires now.redact == cfg.redact && CompletionsStored(now, log) && AllCompleted(now, log)
    ensures Earned(cfg, log)
  {
    forall t | t in cfg.plan ensures TaskCompleted(cfg.redact(t.id)) in log {
      if now == cfg {
        assert IsCompleted(log, t.id);
      } else {
        var u :| u in now.plan && u.id == cfg.redact(t.id);
        assert IsCompleted(log, u.id);
      }
    }
  }

  lemma {:induction false} LiveAlways(cfg: Config, later: Config, steps: seq<Step>)
    requires SameServer(cfg, later) && Idempotent(cfg.redact) && (Restarted(steps) ==> Covers(cfg, later))
    ensures LiveInv(cfg, later, steps)
    decreases |steps|
  {
    hide Do, Counted, CompletionsStored, Covers;
    if steps == [] {
      LiveStart(cfg);
    } else {
      var rest, last := steps[..|steps| - 1], steps[|steps| - 1];
      RestartedPrefix(steps);
      LiveAlways(cfg, later, rest);
      var now, s, t := Now(cfg, later, rest), Live(cfg, later, rest), Live(cfg, later, steps);
      StepCounts(now, s, last);
      LogKeeps(cfg, s.sh.log, t.sh.log);
      if CompletionLogged(t.sh.log) && !CompletionLogged(s.sh.log) { CompletedIsEarned(cfg, now, s.sh.log); }
      if last.Restart? { RestartCounts(cfg, later, s, last); }
    }
  }

  lemma LiveStart(cfg: Config)
    ensures CountedInv(cfg, Init(cfg)) && !CompletionLogged(Init(cfg).sh.log)
  {
    hide AllCompleted;
    var e := Note(DispatchStarted, "");
    assert forall x :: x in [e] <==> x == e;
    assert Counted(cfg, [], Notes([e], ToSchedule(FromStart), Finish));
  }

  lemma LogKeeps(cfg: Config, log: seq<Event>, more: seq<Event>)
    requires log <= more
    ensures Earned(cfg, log) ==> Earned(cfg, more)
    ensures AllCompleted(cfg, log) ==> AllCompleted(cfg, more)
  {
    assert forall e | e in log :: e in more;
  }

  lemma RestartCounts(cfg: Config, later: Config, s: State, step: Step)
    requires SameServer(cfg, later) && step.Restart?
    requires CompletionsStored(cfg, s.sh.log) || CompletionsStored(later, s.sh.log)
    ensures CountedInv(later, Do(cfg, s, step)) && CountedInv(later, Do(later, s, step))
  {
    assert CompletionsStored(cfg, s.sh.log) <==> CompletionsStored(later, s.sh.log);
    RebootCounts(later, s.sh, step.appended);
    assert Reboot(cfg, s.sh, step.appended).log == Reboot(later, s.sh, step.appended).log;
  }

  /** Before the first restart the completion of a run is logged only when every task has completed under its own id: so
      redaction must leave every id alone. */
  lemma CompletionNeedsCleanIds(cfg: Config, steps: seq<Step>)
    requires Idempotent(cfg.redact) && !Restarted(steps) && CompletionLogged(Exec(cfg, steps).sh.log)
    ensures AllCompleted(cfg, Exec(cfg, steps).sh.log)
    ensures forall t | t in cfg.plan :: Fixed(cfg, t.id)
  {
    hide Do, Exec, Live;
    LiveAlways(cfg, cfg, steps);
    LiveIsExec(cfg, cfg, steps);
    var log := Exec(cfg, steps).sh.log;
    forall t | t in cfg.plan ensures Fixed(cfg, t.id) { assert IsCompleted(log, t.id); }
  }

  // ---- two tasks stored under one id

  ghost predicate StoredApart(cfg: Config) {
    forall i, j | 0 <= i < j < |cfg.plan| :: cfg.redact(cfg.plan[i].id) != cfg.redact(cfg.plan[j].id)
  }

  /** How the definitions come back: a graph with two tasks of one id is refused, and leaves the run without one. */
  ghost predicate Reloads(cfg: Config, later: Config) {
    SameServer(cfg, later) && if StoredApart(cfg) then Covers(cfg, later) else later.plan == []
  }

  ghost predicate CompletionIsEarned(cfg: Config, later: Config) {
    forall steps :: CompletionLogged(Live(cfg, later, steps).sh.log) ==> Earned(cfg, Live(cfg, later, steps).sh.log)
  }

  /** A stop for one of these two tasks is completed under an id that is not the first task's. */
  lemma StopApart(cfg: Config) returns (task: string)
    requires Idempotent(cfg.redact) && Fixed(cfg, "run") && Fixed(cfg, "x") && cfg.plan != []
    ensures (task == "" || task == "x") && cfg.redact(StopTask(task)) != cfg.redact(cfg.plan[0].id)
  {
    task := if cfg.redact(cfg.plan[0].id) == "run" then "x" else "";
  }

  /** Over every run and its restarts, the run is logged as completed only when every task has completed, exactly when no
      two tasks of its graph are stored under one id. Otherwise the graph is gone after a restart, and the next result
      that comes in completes the run. */
  lemma EarnedIffStoredApart(cfg: Config, later: Config)
    requires Idempotent(cfg.redact) && Reloads(cfg, later) && cfg.plan != [] && cfg.bound > 0
    requires Fixed(cfg, "run")
    requires Admissible(cfg, ControlTask(Halt, "k", "", 0)) && Admissible(cfg, ControlTask(Halt, "k", "x", 0))
    ensures CompletionIsEarned(cfg, later) <==> StoredApart(cfg)
  {
    hide Do, Exec, Live;
    if StoredApart(cfg) {
      forall steps ensures CompletionLogged(Live(cfg, later, steps).sh.log) ==> Earned(cfg, Live(cfg, later, steps).sh.log) {
        LiveAlways(cfg, later, steps);
      }
    } else {
      var task := StopApart(cfg);
      var steps := StopRun("k", task, 0);
      StopRunCompletes(later, "k", task, 0);
      assert steps == START + steps[2..];
      LiveAfterStart(cfg, later, steps[2..]);
      assert cfg.plan[0] in cfg.plan;
      assert !Earned(cfg, Live(cfg, later, steps).sh.log);
    }
  }

  // ---- before a restart, a task with a masked id holds up what depends on it

  /** The scheduler came to task `i` with its dependencies completed. */
  ghost predicate Unheld(cfg: Config, i: nat) {
    i < |cfg.plan| && forall dep | dep in cfg.plan[i].deps :: Fixed(cfg, dep)
  }

  ghost predicate NextUnheld(cfg: Config, next: Next) {
    match next
    case ToWalk(seen, _, _) => CompletionsStored(cfg, seen)
    case ToCreate(job) => !job.DispatchJob? && JobKind(job) != Dispatch
    case _ => true
  }

  ghost predicate PcUnheld(cfg: Config, pc: Pc) {
    match pc
    case Notes(_, next, abort) => NextUnheld(cfg, next) && NextUnheld(cfg, abort)
    case InPass(_, Routing(seen, i)) => CompletionsStored(cfg, seen) && Unheld(cfg, i)
    case InJob(DispatchJob(seen, i, _), _) => CompletionsStored(cfg, seen) && Unheld(cfg, i)
    case InJob(job, _) => JobKind(job) != Dispatch
    case _ => true
  }

  /** What was sent as a dispatch is a task whose dependencies could complete. */
  ghost predicate CallUnheld(cfg: Config, call: Call) {
    call.kind == Dispatch ==> exists i: nat :: Unheld(cfg, i) && cfg.plan[i].id == call.task
  }

  ghost predicate UnheldInv(cfg: Config, s: State) {
    && CompletionsStored(cfg, s.sh.log)
    && (forall r | r in s.reqs :: PcUnheld(cfg, s.reqs[r]))
    && (forall c | c in s.sh.calls :: CallUnheld(cfg, c))
  }

  lemma WalkUnheld(cfg: Config, seen: seq<Event>, i: nat, cont: Cont)
    requires CompletionsStored(cfg, seen)
    ensures PcUnheld(cfg, Walk(cfg, seen, i, cont))
  {
    WalkStops(cfg, seen, i, cont);
    var pc := Walk(cfg, seen, i, cont);
    if pc.InPass? && pc.pass.Routing? {
      forall dep | dep in cfg.plan[pc.pass.i].deps ensures Fixed(cfg, dep) { assert IsCompleted(seen, dep); }
    }
  }

  lemma GotoUnheld(cfg: Config, next: Next)
    requires NextUnheld(cfg, next)
    ensures PcUnheld(cfg, Goto(cfg, next))
  {
    if next.ToWalk? { WalkUnheld(cfg, next.seen, next.i, next.cont); }
  }

  lemma JobUnheld(cfg: Config, job: Job, stage: JobStage, out: Outcome)
    requires PcUnheld(cfg, InJob(job, stage))
    ensures PcUnheld(cfg, AfterJob(cfg, job, stage, out))
  {
    hide Goto, Unheld, CompletionsStored;
    GotoUnheld(cfg, Proceed(job));
    GotoUnheld(cfg, Fail(job));
  }

  lemma OthersUnheld(cfg: Config, pc: Pc, out: Outcome, ch: Choice)
    requires PcUnheld(cfg, pc) && !pc.InJob? && (out.Events? ==> CompletionsStored(cfg, out.events))
    ensures PcUnheld(cfg, After(cfg, pc, out, ch))
  {
    hide AfterDecide, AfterPass, AfterNotes, AfterCheck, AfterReconcile, PcUnheld, CompletionsStored;
    match pc
    case Done => assert PcUnheld(cfg, Done) by { DoneUnheld(cfg); }
    case Notes(events, next, abort) => NotesUnheld(cfg, events, next, abort, out);
    case InPass(cont, pass) => PassUnheld(cfg, cont, pass, out);
    case InCheck(task, check) => CheckUnheld(cfg, task, check, out, ch.pick);
    case InDecision(d, grant, decide) => DecideUnheld(cfg, d, grant, decide, out, ch.now);
    case InReconcile(reconcile) => ReconcileUnheld(cfg, reconcile, out);
  }

  lemma DoneUnheld(cfg: Config)
    ensures PcUnheld(cfg, Done)
  {
  }

  lemma NotesUnheld(cfg: Config, events: seq<Event>, next: Next, abort: Next, out: Outcome)
    requires PcUnheld(cfg, Notes(events, next, abort))
    ensures PcUnheld(cfg, AfterNotes(cfg, events, next, abort, out))
  {
    hide Goto, CompletionsStored;
    GotoUnheld(cfg, next);
    GotoUnheld(cfg, abort);
  }

  lemma PassUnheld(cfg: Config, cont: Cont, pass: PassStage, out: Outcome)
    requires PcUnheld(cfg, InPass(cont, pass)) && (out.Events? ==> CompletionsStored(cfg, out.events))
    ensures PcUnheld(cfg, AfterPass(cfg, cont, pass, out))
  {
    hide Walk, Unheld, CompletionsStored;
    if out.Events? { WalkUnheld(cfg, out.events, 0, cont); }
  }

  lemma CheckUnheld(cfg: Config, task: string, check: CheckStage, out: Outcome, pick: string)
    ensures PcUnheld(cfg, AfterCheck(cfg, task, check, out, pick))
  {
  }

  lemma ReconcileUnheld(cfg: Config, reconcile: ReconcileStage, out: Outcome)
    ensures PcUnheld(cfg, AfterReconcile(cfg, reconcile, out))
  {
  }

  lemma DecideUnheld(cfg: Config, d: Digest, grant: bool, decide: DecideStage, out: Outcome, now: int)
    ensures PcUnheld(cfg, AfterDecide(d, grant, decide, out, now))
  {
  }

  lemma PointUnheld(cfg: Config, sh: Shared, pc: Pc, ch: Choice)
    requires PcUnheld(cfg, pc) && CompletionsStored(cfg, sh.log)
    ensures PcUnheld(cfg, Act(cfg, sh, pc, ch).1)
  {
    hide AfterJob, PcUnheld, After;
    var out := Effect(cfg, sh, OpOf(cfg, pc, ch.now), ch).1;
    if pc.InJob? {
      JobUnheld(cfg, pc.job, pc.stage, out);
      assert After(cfg, pc, out, ch) == AfterJob(cfg, pc.job, pc.stage, out) by { AfterInJob(cfg, pc.job, pc.stage, out, ch); }
    } else {
      OthersUnheld(cfg, pc, out, ch);
    }
  }

  lemma AfterInJob(cfg: Config, job: Job, stage: JobStage, out: Outcome, ch: Choice)
    ensures After(cfg, InJob(job, stage), out, ch) == AfterJob(cfg, job, stage, out)
  {
    hide AfterJob;
  }

  lemma CallsUnheld(cfg: Config, sh: Shared, pc: Pc, ch: Choice)
    requires PcUnheld(cfg, pc)
    requires forall c | c in sh.calls :: CallUnheld(cfg, c)
    ensures forall c | c in Act(cfg, sh, pc, ch).0.calls :: CallUnheld(cfg, c)
  {
    hide After, Unheld;
    var op := OpOf(cfg, pc, ch.now);
    if op.Adapter? {
      assert pc.InJob? && pc.stage.CallOut?;
      assert CallUnheld(cfg, op.call) by {
        if pc.job.DispatchJob? { assert Unheld(cfg, pc.job.i); PlannedAtOf(cfg, pc.job.i); }
      }
      assert forall c :: c in sh.calls + [op.call] <==> c in sh.calls || c == op.call;
    }
  }

  lemma PlannedAtOf(cfg: Config, i: nat)
    requires Unheld(cfg, i)
    ensures PlannedAt(cfg, i) == cfg.plan[i]
  {
  }

  lemma StepUnheld(cfg: Config, s: State, step: Step)
    requires Idempotent(cfg.redact) && CountedInv(cfg, s) && UnheldInv(cfg, s) && !step.Restart?
    ensures UnheldInv(cfg, Do(cfg, s, step))
  {
    hide Effect, After, OpOf, Counted, CallUnheld, Recover;
    StepCounts(cfg, s, step);
    match step
    case Begin(r, request) => if Do(cfg, s, step) != s { assert PcUnheld(cfg, Entry(request)); }
    case Advance(r, ch) =>
      if r in s.reqs {
        PointUnheld(cfg, s.sh, s.reqs[r], ch);
        CallsUnheld(cfg, s.sh, s.reqs[r], ch);
      }
  }

  lemma {:induction false} UnheldAlways(cfg: Config, steps: seq<Step>)
    requires Idempotent(cfg.redact) && !Restarted(steps)
    ensures CountedInv(cfg, Exec(cfg, steps)) && UnheldInv(cfg, Exec(cfg, steps))
    decreases |steps|
  {
    hide Do, Counted, CompletionsStored, CallUnheld;
    if steps == [] {
      LiveStart(cfg);
    } else {
      RestartedPrefix(steps);
      var rest := steps[..|steps| - 1];
      UnheldAlways(cfg, rest);
      StepCounts(cfg, Exec(cfg, rest), steps[|steps| - 1]);
      StepUnheld(cfg, Exec(cfg, rest), steps[|steps| - 1]);
    }
  }

  /** Until a restart, the completion of a task whose id redaction rewrites is logged under another name and never found:
      nothing that depends on the task is sent, whatever happens. */
  lemma MaskedTaskHoldsItsDependents(cfg: Config, steps: seq<Step>, i: nat, dep: string, call: Call)
    requires Idempotent(cfg.redact) && !Restarted(steps)
    requires forall a, b | 0 <= a < b < |cfg.plan| :: cfg.plan[a].id != cfg.plan[b].id
    requires i < |cfg.plan| && dep in cfg.plan[i].deps && !Fixed(cfg, dep)
    requires call in Exec(cfg, steps).sh.calls && call.kind == Dispatch
    ensures call.task != cfg.plan[i].id
  {
    UnheldAlways(cfg, steps);
    assert CallUnheld(cfg, call);
    var j: nat :| Unheld(cfg, j) && cfg.plan[j].id == call.task;
    assert i < j || j < i || i == j;
  }
}
