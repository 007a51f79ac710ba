/** A run without tasks: a graph may be empty, and definitions that do not come back after a restart leave a run with an
    empty one. Nothing completes such a run but a result for a command of an emergency stop, and that always does. */
module EmptyRuns {
  import opened Model
  import opened Control
  import opened Actions
  import opened Protocol
  import opened CommandSafety
  import opened Traces
  import ControlRuns
  import ApprovalSafety
  import Ending
  import Progress

  /** The run is logged as completed. */
  ghost predicate CompletionLogged(log: seq<Event>) {
    exists e | e in log :: e.Note? && e.what == DispatchCompleted
  }

  // ---- without an emergency stop nothing ever happens

  /** Requests that may come in: any, but of the controls only those that are allowed. */
  ghost predicate ControlsAmong(steps: seq<Step>, allowed: Request -> bool) {
    forall n | 0 <= n < |steps| && steps[n].Begin? && steps[n].request.ControlTask? :: allowed(steps[n].request)
  }

  ghost predicate IsStop(cfg: Config, request: Request) {
    request.ControlTask? && request.kind == Halt && Admissible(cfg, request)
  }

  /** Points that requests come to as long as there is no command and no fence. */
  predicate EmptyPc(pc: Pc) {
    match pc
    case Done => true
    case Notes(events, next, abort) => events == [Note(DispatchStarted, "")] && next == ToSchedule(FromStart) && abort == Finish
    case InPass(cont, pass) => cont == FromStart && pass.Reading?
    case InJob(job, stage) => job.ControlJob? && job.kind != Halt && (stage.RetryGuard? || stage.Probe? || stage.Token?)
    case InCheck(_, check) => check.Picking?
    case InDecision(_, _, decide) => decide.ReadRequest?
    case InReconcile(reconcile) => reconcile.ProbeUnknown?
  }

  ghost predicate EmptyLog(log: seq<Event>) {
    forall e | e in log :: e.Note? && (e.what == DispatchStarted || e.what == DispatchInterrupted)
  }

  ghost predicate NoTokens(ctl: Ctl) {
    ctl.commands == map[] && forall t :: Fence(ctl, t) == 0
  }

  ghost predicate EmptyInv(s: State) {
    EmptyLog(s.sh.log) && NoTokens(s.sh.ctl) && forall r | r in s.reqs :: EmptyPc(s.reqs[r])
  }

  lemma EmptyPoint(cfg: Config, sh: Shared, pc: Pc, ch: Choice)
    requires cfg.plan == [] && EmptyPc(pc) && EmptyLog(sh.log) && NoTokens(sh.ctl)
    ensures var (next, pc') := Act(cfg, sh, pc, ch);
            EmptyPc(pc') && EmptyLog(next.log) && NoTokens(next.ctl)
  {
    hide Do;
    if pc.InDecision? { ApprovalSafety.LastRequestIsLogged(sh.log, pc.digest); }
  }

  lemma EmptyRestart(cfg: Config, sh: Shared, appended: bool)
    requires GoodConfig(cfg) && Global(cfg, sh) && EmptyLog(sh.log)
    ensures EmptyLog(Reboot(cfg, sh, appended).log) && NoTokens(Reboot(cfg, sh, appended).ctl)
  {
    hide Latest, Recover, Global;
    RecoveryNeverFails(cfg, sh);
    LatestIsKnown(cfg, sh);
    forall k ensures k !in Latest(sh.log) { NothingKeyed(sh.log, k); }
    var back := Recover(cfg, sh.log);
    forall t ensures Fence(back, t) == 0 { assert ControlRuns.IsTopFence(back.commands, t, Fence(back, t)); }
  }

  lemma NothingKeyed(log: seq<Event>, k: string)
    requires EmptyLog(log)
    ensures !Keyed(log, k)
  {
    forall i | 0 <= i < |log| ensures !NamesKey(log[i], k) { assert log[i] in log; }
  }

  lemma EmptyStep(cfg: Config, s: State, step: Step)
    requires GoodConfig(cfg) && cfg.plan == [] && Inv(cfg, s) && EmptyInv(s) && (step.Begin? ==> !IsStop(cfg, step.request))
    ensures EmptyInv(Do(cfg, s, step))
  {
    hide Act, Reboot, Local, OwnedKey, CtlOk;
    match step
    case Begin(r, request) => if Do(cfg, s, step) != s { assert EmptyPc(Entry(request)); }
    case Advance(r, ch) => if r in s.reqs { EmptyPoint(cfg, s.sh, s.reqs[r], ch); }
    case Restart(appended) => EmptyRestart(cfg, s.sh, appended);
  }

  lemma {:induction false} EmptyAlways(cfg: Config, steps: seq<Step>)
    requires GoodConfig(cfg) && cfg.plan == []
    requires forall n | 0 <= n < |steps| && steps[n].Begin? :: !IsStop(cfg, steps[n].request)
    ensures EmptyInv(Exec(cfg, steps))
    decreases |steps|
  {
    hide Do, Inv, Global, Local, OwnedKey, Admissible;
    if steps != [] {
      var rest, last := steps[..|steps| - 1], steps[|steps| - 1];
      assert forall n | 0 <= n < |rest| :: rest[n] == steps[n];
      EmptyAlways(cfg, rest);
      InvAlways(cfg, rest);
      EmptyStep(cfg, Exec(cfg, rest), last);
    }
  }

  // ---- a result of whatever command completes the run

  /** What is new in the log completes no task but `task`. */
  ghost predicate CompletesOnly(log: seq<Event>, more: seq<Event>, task: string) {
    log <= more && forall i | |log| <= i < |more| && more[i].TaskCompleted? :: more[i].task == task
  }

  lemma EmptyPassCompletes(cfg: Config, sh: Shared, task: string, ch: Choice)
    requires cfg.plan == [] && ch.appended
    ensures var (next, pc) := Solo(cfg, sh, Notes([TaskCompleted(task)], ToSchedule(FromResult), Finish), ch, 4);
            next.log == sh.log + [TaskCompleted(cfg.redact(task))] + [Note(DispatchCompleted, cfg.redact(""))]
  {
    hide JobOp, AfterJob, AfterReconcile;
    var told := sh.(log := sh.log + [TaskCompleted(cfg.redact(task))]);
    var note := Notes([Note(DispatchCompleted, "")], Finish, Finish);
    SoloStep(cfg, sh, Notes([TaskCompleted(task)], ToSchedule(FromResult), Finish), ch, told, InPass(FromResult, Reading), 3);
    SoloStep(cfg, told, InPass(FromResult, Reading), ch, told, InCheck("", CheckAll(0, true)), 2);
    SoloStep(cfg, told, InCheck("", CheckAll(0, true)), ch, told, note, 1);
    SoloStep(cfg, told, note, ch, told.(log := told.log + [Note(DispatchCompleted, cfg.redact(""))]), Done, 0);
  }

  /** Without tasks there is nothing the run waits for: the next completed result, whatever it is for, ends the run. */
  lemma ResultCompletesEmptyRun(cfg: Config, sh: Shared, k: string, task: string, ch: Choice)
    requires cfg.plan == [] && k in sh.ctl.commands
    requires sh.ctl.commands[k].state == Acknowledged && sh.ctl.commands[k].task == task
    requires Progress.SmoothChoice(ch) && ch.observed == ResultCompleted && ch.pick == k
    ensures var next := Solo(cfg, sh, InCheck(task, Picking), ch, 9).0;
            CompletionLogged(next.log) && CompletesOnly(sh.log, next.log, cfg.redact(task))
  {
    hide Act;
    Ending.CheckRuns(cfg, sh, k, task, ch);
    SoloChain(cfg, sh, InCheck(task, Picking), ch, 5, 4);
    var told := Solo(cfg, sh, InCheck(task, Picking), ch, 5).0;
    EmptyPassCompletes(cfg, told, task, ch);
    var done := Solo(cfg, sh, InCheck(task, Picking), ch, 9).0;
    assert done.log[|done.log| - 1] in done.log;
  }

  // ---- the run of an emergency stop and a result for it

  /** The stop's command is created and its request logged. */
  lemma StopIsRequested(cfg: Config, sh: Shared, job: Job, ch: Choice)
    requires job.ControlJob? && job.kind == Halt && job.key != "" && job.key !in sh.ctl.commands
    requires !sh.ctl.stopped && sh.ctl.count < sh.ctl.maxCommands && ch.appended
    ensures var (next, pc) := Solo(cfg, sh, InJob(job, Probe), ch, 3);
            && pc == InJob(job, Stopping) && next.fatal == sh.fatal
            && job.key in next.ctl.commands && next.ctl.commands[job.key].state == Requested
            && next.ctl.commands[job.key].task == JobTask(cfg, job)
            && |next.log| == |sh.log| + 1 && sh.log <= next.log && next.log[|sh.log|].CommandEvent?
  {
    hide CheckOp, AfterPass, AfterReconcile, AfterDecide, Goto;
    var cmd := RequestOnce(sh.ctl, NewCommand(cfg, job), ch.now).1.cmd;
    var created := Effect(cfg, sh, CreateCommand(NewCommand(cfg, job)), ch).0;
    var logged := Effect(cfg, created, JobOp(cfg, job, LogRequest(cmd)), ch).0;
    SoloStep(cfg, sh, InJob(job, Probe), ch, sh, InJob(job, Create), 2);
    SoloStep(cfg, sh, InJob(job, Create), ch, created, InJob(job, LogRequest(cmd)), 1);
    SoloStep(cfg, created, InJob(job, LogRequest(cmd)), ch, logged, InJob(job, Stopping), 0);
  }

  /** The stop takes effect and is logged, its command acknowledged. */
  lemma StopIsAcknowledged(cfg: Config, sh: Shared, job: Job, ch: Choice)
    requires job.ControlJob? && job.kind == Halt && ch.appended
    requires job.key in sh.ctl.commands && sh.ctl.commands[job.key].state == Requested
    ensures var (next, pc) := Solo(cfg, sh, InJob(job, Stopping), ch, 4);
            && pc == Done && next.fatal == sh.fatal
            && job.key in next.ctl.commands && next.ctl.commands[job.key].state == Acknowledged
            && next.ctl.commands[job.key].task == sh.ctl.commands[job.key].task
            && |next.log| == |sh.log| + 2 && sh.log <= next.log
            && next.log[|sh.log|].CommandEvent? && next.log[|sh.log| + 1] == EmergencyStopped
  {
    hide CheckOp, AfterPass, AfterReconcile, AfterDecide, Walk;
    var stopped := Effect(cfg, sh, StopAll, ch).0;
    var (marked, found) := Effect(cfg, stopped, Move(job.key, Acknowledged), ch);
    var logged := Effect(cfg, marked, JobOp(cfg, job, LogMark(Acknowledged, found.cmd)), ch).0;
    var note := Notes([EmergencyStopped], Finish, Finish);
    SoloStep(cfg, sh, InJob(job, Stopping), ch, stopped, InJob(job, Mark(Acknowledged)), 3);
    SoloStep(cfg, stopped, InJob(job, Mark(Acknowledged)), ch, marked, InJob(job, LogMark(Acknowledged, found.cmd)), 2);
    SoloStep(cfg, marked, InJob(job, LogMark(Acknowledged, found.cmd)), ch, logged, note, 1);
    SoloStep(cfg, logged, note, ch, logged.(log := logged.log + [EmergencyStopped]), Done, 0);
  }

  const CH := Choice(true, Accepted, ResultCompleted, 0, "")

  function StopTask(task: string): string {
    if task == "" then "run" else task
  }

  /** The run is started, and the server restarts. */
  const START := [Advance(0, CH), Restart(true)]

  /** The start, a restart, an emergency stop, and a result check for the task the stop was asked for. */
  function StopRun(key: string, task: string, token: nat): seq<Step> {
    START + [Begin(0, ControlTask(Halt, key, task, token))] + Many(0, CH, 7)
    + [Begin(0, CheckResult(StopTask(task)))] + Many(0, CH.(pick := key), 9)
  }

  lemma StartLogs(cfg: Config)
    ensures Exec(cfg, [Advance(0, CH)])
         == State(Init(cfg).sh.(log := [Note(DispatchStarted, cfg.redact(""))]), map[0 := InPass(FromStart, Reading)])
  {
    var e := Note(DispatchStarted, cfg.redact(""));
    assert [] + [e] == [e];
    assert [Advance(0, CH)] == [] + [Advance(0, CH)];
    ExecAfter(cfg, [], Advance(0, CH));
    var pc := InPass(FromStart, Reading);
    assert Init(cfg).reqs[0 := pc] == map[0 := pc];
  }

  /** The server after that restart. */
  lemma StartRestarts(cfg: Config)
    requires cfg.bound > 0
    ensures var s := Exec(cfg, START);
            && s.reqs == map[] && !s.sh.fatal && s.sh.ctl == NewCtl(cfg.bound)
            && forall e | e in s.sh.log :: !e.TaskCompleted?
  {
    hide Act, Exec;
    StartLogs(cfg);
    assert START == [Advance(0, CH)] + [Restart(true)];
    ExecAfter(cfg, [Advance(0, CH)], Restart(true));
    var log := Exec(cfg, [Advance(0, CH)]).sh.log;
    assert log[..0] == [] && Latest([]) == map[] && Latest(log) == map[];
    NothingToRestore();
  }

  lemma NothingToRestore()
    ensures Listing(map[]) == []
  {
    ListingLists(map[]);
  }

  lemma StopRunStops(cfg: Config, key: string, task: string, token: nat)
    requires cfg.bound > 0 && Admissible(cfg, ControlTask(Halt, key, task, token))
    ensures var s := Exec(cfg, START + [Begin(0, ControlTask(Halt, key, task, token))] + Many(0, CH, 7));
            && s.reqs == map[0 := Done] && !s.sh.fatal && (forall e | e in s.sh.log :: !e.TaskCompleted?)
            && key in s.sh.ctl.commands && s.sh.ctl.commands[key].state == Acknowledged
            && s.sh.ctl.commands[key].task == StopTask(task)
  {
    hide Act, Exec, Reboot, Solo;
    var job := ControlJob(Halt, key, task, token);
    var begin := Begin(0, ControlTask(Halt, key, task, token));
    StartRestarts(cfg);
    ExecAfter(cfg, START, begin);
    var s := Exec(cfg, START + [begin]);
    assert s.reqs == map[0 := InJob(job, Probe)];
    StopIsRequested(cfg, s.sh, job, CH);
    SoloChain(cfg, s.sh, InJob(job, Probe), CH, 3, 4);
    StopIsAcknowledged(cfg, Solo(cfg, s.sh, InJob(job, Probe), CH, 3).0, job, CH);
    SoloRuns(cfg, START + [begin], 0, CH, 7);
  }

  /** In a run without tasks an emergency stop and a result for it end in a run logged as completed. */
  lemma StopRunCompletes(cfg: Config, key: string, task: string, token: nat)
    requires cfg.bound > 0 && cfg.plan == [] && Admissible(cfg, ControlTask(Halt, key, task, token))
    ensures var log := Exec(cfg, StopRun(key, task, token)).sh.log;
            CompletionLogged(log) && forall e | e in log && e.TaskCompleted? :: e.task == cfg.redact(StopTask(task))
  {
    hide Act, Exec, Reboot, Solo;
    var stop := START + [Begin(0, ControlTask(Halt, key, task, token))] + Many(0, CH, 7);
    var begin, ch := Begin(0, CheckResult(StopTask(task))), CH.(pick := key);
    StopRunStops(cfg, key, task, token);
    ExecAfter(cfg, stop, begin);
    var s := Exec(cfg, stop + [begin]);
    assert s.reqs[0] == InCheck(StopTask(task), Picking) && s.sh == Exec(cfg, stop).sh;
    ResultCompletesEmptyRun(cfg, s.sh, key, StopTask(task), ch);
    SoloRuns(cfg, stop + [begin], 0, ch, 9);
    assert stop + [begin] + Many(0, ch, 9) == StopRun(key, task, token);
    var log := Exec(cfg, StopRun(key, task, token)).sh.log;
    assert forall i | 0 <= i < |s.sh.log| :: log[i] == s.sh.log[i] && s.sh.log[i] in s.sh.log;
  }

  ghost predicate CanComplete(cfg: Config, allowed: Request -> bool) {
    exists steps :: ControlsAmong(steps, allowed) && CompletionLogged(Exec(cfg, steps).sh.log)
  }

  /** A graph without tasks is valid. Its run can be logged as completed exactly when an emergency stop may be asked for:
      the other controls need a token, which only tasks have, and nothing else makes a command. */
  lemma EmptyRunsCompleteIffStoppable(cfg: Config, allowed: Request -> bool)
    requires GoodConfig(cfg) && cfg.plan == []
    ensures CanComplete(cfg, allowed) <==> exists request :: allowed(request) && IsStop(cfg, request)
  {
    hide Exec, Do, Admissible;
    if request :| allowed(request) && IsStop(cfg, request) {
      StopRunCompletes(cfg, request.key, request.task, request.token);
      StopRunAsks(request.key, request.task, request.token, allowed);
    } else {
      forall steps | ControlsAmong(steps, allowed) ensures !CompletionLogged(Exec(cfg, steps).sh.log) {
        EmptyAlways(cfg, steps);
      }
    }
  }

  lemma StopRunAsks(key: string, task: string, token: nat, allowed: Request -> bool)
    requires allowed(ControlTask(Halt, key, task, token))
    ensures ControlsAmong(StopRun(key, task, token), allowed)
  {
  }
}
