/** Operators' controls and fencing tokens over whole runs: a control takes effect only under the token that is the current
    one of its task when it is checked, and a control that comes under a superseded token leaves no trace. */
module ControlTokens {
  import opened Model
  import opened Control
  import opened Actions
  import opened Protocol
  import opened Duties
  import opened DutyLaw
  import opened CommandSafety
  import opened Causes
  import opened CommandCauses
  import opened Answers
  import Fencing
  import ScheduleSafety
  import Traces

  /** The task a control is for: the run's own if none is named. */
  function TaskMeant(task: string): string { if task == "" then "run" else task }

  // ---- what creates commands

  predicate CreatesNone(ds: seq<Deed>) {
    forall d | d in ds :: !d.Creates?
  }

  /** A command is created where it is absent, for a control once its token is found current, and for an accepted retry. */
  ghost predicate CreationNeeds(cfg: Config, fact: Fact, cmd: Command) {
    || (fact.Absent? && !(fact.job.ControlJob? && fact.job.kind != Halt) && cmd == NewCommand(cfg, fact.job))
    || (fact.Current? && cmd == NewCommand(cfg, fact.job))
    || (exists task, key, token: nat :: cmd == NewCommand(cfg, RetryJob(key, task, token)))
  }

  lemma MarksCreate(cfg: Config, job: Job, to: CommandState, cmd: Command)
    requires Creates(cmd) in Marks(cfg, job, to)
    ensures exists task, key, token: nat :: cmd == NewCommand(cfg, RetryJob(key, task, token))
  {
    hide NewCommand;
    assert Creates(cmd) in Reports(cfg, job, to);
    assert Creates(cmd) in Aftermath(cfg, job, to);
    assert job.ControlJob? && cmd == NewCommand(cfg, RetryJob(job.key, job.task, job.token));
  }

  lemma MadeCreatesNone(cfg: Config, job: Job)
    ensures CreatesNone(MadeDue(cfg, job))
  {
    hide NewCommand;
    assert job.RetryJob? || (job.ControlJob? && job.kind == Halt) ==> CreatesNone(Aftermath(cfg, job, Acknowledged));
    assert CreatesNone(AskedDue(cfg, job));
    assert CreatesNone(RequestDue(cfg, job));
  }

  lemma ReplyCreates(cfg: Config, job: Job, reply: Reply, cmd: Command)
    requires Creates(cmd) in ReplyDue(cfg, job, reply)
    ensures exists task, key, token: nat :: cmd == NewCommand(cfg, RetryJob(key, task, token))
  {
    hide NewCommand, Marks;
    var to := match reply case Accepted => Acknowledged case Refused => Failed case Unknown => OutcomeUnknown;
    assert Creates(cmd) in Marks(cfg, job, to);
    MarksCreate(cfg, job, to, cmd);
  }

  lemma AnswerCreatesNone(cfg: Config, task: string, key: string, result: Observation)
    ensures CreatesNone(AnswerDue(cfg, task, key, result))
  {
  }

  lemma CreationIsDueOn(cfg: Config, fact: Fact, cmd: Command)
    requires Creates(cmd) in Due(cfg, fact)
    ensures CreationNeeds(cfg, fact, cmd)
  {
    hide EndDue, MadeDue, ReplyDue, NewCommand;
    match fact
    case Goes(cont, next) =>
      EndMovesNone(cfg, true, cont);
      EndMovesNone(cfg, false, cont);
    case Broke(cont) => EndMovesNone(cfg, false, cont);
    case Made(job) => MadeCreatesNone(cfg, job);
    case ReplyTo(job, reply) => ReplyCreates(cfg, job, reply, cmd);
    case Answer(task, key, result) => AnswerCreatesNone(cfg, task, key, result);
    case _ =>
  }

  // ---- controls that took effect

  /** The key is neither a dispatch's nor a retried dispatch's. */
  ghost predicate OperatorsKey(cfg: Config, k: string) {
    (forall task :: k != DispatchKey(cfg, task)) && (forall task, key :: k != RetryKey(cfg, task, key))
  }

  /** At this step a control under the key is checked, and its token is the current one. */
  ghost predicate PassedAt(cfg: Config, steps: seq<Step>, n: nat, kind: Kind, k: string, task: string, token: nat) {
    && CurrentAt(cfg, steps, n, TaskMeant(task), token)
    && Asked(steps[..n], ControlTask(kind, k, task, token))
  }

  ghost predicate PassedWith(cfg: Config, steps: seq<Step>, k: string, token: nat) {
    exists n: nat, kind, task :: PassedAt(cfg, steps, n, kind, k, task, token)
  }

  lemma CurrentPassed(cfg: Config, steps: seq<Step>, p: (Fact, Fact))
    requires p in Facts(cfg, steps) && p.1.Current? && p.1.job.ControlJob?
    ensures PassedWith(cfg, steps, p.1.job.key, p.1.job.token)
  {
    hide Exec, Book, Facts, Meets;
    var n := FactHappened(cfg, steps, p);
    var s, r, ch, job := Exec(cfg, steps[..n]), steps[n].r, steps[n].ch, p.1.job;
    MeetingPoint(cfg, s.sh, s.reqs[r], ch, p.1);
    CurrentSuits(cfg, steps[..n], r, ch, job);
    assert CurrentAt(cfg, steps, n, TaskMeant(job.task), job.token);
    assert PassedAt(cfg, steps, n, job.kind, job.key, job.task, job.token);
  }

  /** Who is found current was asked for before. */
  lemma CurrentSuits(cfg: Config, before: seq<Step>, r: nat, ch: Choice, job: Job)
    requires var s := Exec(cfg, before); r in s.reqs && Meets(cfg, s.sh, s.reqs[r], ch) == Some(Current(job)) && job.ControlJob?
    ensures Asked(before, ControlTask(job.kind, job.key, job.task, job.token))
  {
    hide Exec, Book, Facts, Meets, Dutiful, LineInv, FactInv, IsDue;
    CausesAlways(cfg, before);
    var s, record := Exec(cfg, before), Book(cfg, before)[r];
    assert RecordInv(cfg, s.sh.log, s.reqs[r], record, Facts(cfg, before));
    PointSuits(cfg, s.sh, s.reqs[r], ch, Origin(record));
    OriginWasAsked(cfg, before, Origin(record), ControlTask(job.kind, job.key, job.task, job.token));
  }

  /** A command under an operator's key was created for an emergency stop, or for a control whose token was current when it was
      checked, after the control was asked for. */
  lemma ControlsWereCurrent(cfg: Config, steps: seq<Step>, k: string)
    requires GoodConfig(cfg) && OperatorsKey(cfg, k) && k in Exec(cfg, steps).sh.ctl.commands
    ensures (exists task, token: nat :: Asked(steps, ControlTask(Halt, k, task, token)))
         || (exists token: nat :: PassedWith(cfg, steps, k, token))
  {
    hide Exec, Book, Facts, Due, Asked, PassedWith;
    EveryStateIsDue(cfg, steps, k);
    var facts := Facts(cfg, steps);
    var cmd: Command :| IsDue(cfg, facts, Creates(cmd)) && cmd.key == k;
    var p :| p in facts && Creates(cmd) in Due(cfg, p.1);
    CreationIsDueOn(cfg, p.1, cmd);
    CausesAlways(cfg, steps);
    assert FactSuits(Exec(cfg, steps).sh.log, p.0, p.1) && (p.0, p.0) in facts;
    NoRetry(cfg, k, cmd);
    var job := p.1.job;
    assert cmd == NewCommand(cfg, job) && JobKey(cfg, job) == k;
    assert job.ControlJob? && job.key == k;
    if p.1.Current? { CurrentPassed(cfg, steps, p); }
    else { OriginWasAsked(cfg, steps, p.0, ControlTask(Halt, k, job.task, job.token)); }
  }

  lemma NoRetry(cfg: Config, k: string, cmd: Command)
    requires OperatorsKey(cfg, k) && cmd.key == k
    ensures forall task, key, token: nat :: cmd != NewCommand(cfg, RetryJob(key, task, token))
  {
    forall task, key, token: nat ensures cmd != NewCommand(cfg, RetryJob(key, task, token)) {
      assert k != RetryKey(cfg, task, key);
    }
  }

  // ---- controls under superseded tokens

  /** When the control is asked for, a greater token of its task is logged as issued. */
  ghost predicate Superseded(cfg: Config, before: seq<Step>, task: string, token: nat) {
    exists e | e in Exec(cfg, before).sh.log ::
      IssuesToken(e) && e.cmd.value.task == TaskMeant(task) && token < e.cmd.value.fence
  }

  /** Every control under the key is other than an emergency stop, and comes too late. */
  ghost predicate AllLate(cfg: Config, steps: seq<Step>, k: string) {
    forall n | 0 <= n < |steps| && steps[n].Begin? && steps[n].request.ControlTask? && steps[n].request.key == k ::
      steps[n].request.kind != Halt && Superseded(cfg, steps[..n], steps[n].request.task, steps[n].request.token)
  }

  lemma {:induction false} LogGrows(cfg: Config, steps: seq<Step>, n: nat)
    requires n <= |steps|
    ensures Exec(cfg, steps[..n]).sh.log <= Exec(cfg, steps).sh.log
    decreases |steps|
  {
    hide After, OpOf, Recover, Entry;
    if n < |steps| {
      var rest, last := steps[..|steps| - 1], steps[|steps| - 1];
      LogGrows(cfg, rest, n);
      assert rest[..n] == steps[..n];
      var s := Exec(cfg, rest);
      if last.Advance? && last.r in s.reqs {
        ScheduleSafety.EffectGrowsLog(cfg, s.sh, OpOf(cfg, s.reqs[last.r], last.ch.now), last.ch);
      }
    } else {
      assert steps[..n] == steps;
    }
  }

  /** A token that was superseded before is not current. */
  lemma LateIsNotCurrent(cfg: Config, steps: seq<Step>, m: nat, n: nat, task: string, token: nat)
    requires GoodConfig(cfg) && m <= n <= |steps| && Superseded(cfg, steps[..m], task, token)
    ensures !CurrentAt(cfg, steps, n, TaskMeant(task), token)
  {
    hide Exec, Inv;
    var e :| e in Exec(cfg, steps[..m]).sh.log
             && IssuesToken(e) && e.cmd.value.task == TaskMeant(task) && token < e.cmd.value.fence;
    LogGrows(cfg, steps[..n], m);
    assert steps[..n][..m] == steps[..m];
    FencesCover(cfg, steps[..n], e);
  }

  lemma FencesCover(cfg: Config, steps: seq<Step>, e: Event)
    requires GoodConfig(cfg) && e in Exec(cfg, steps).sh.log && IssuesToken(e)
    ensures e.cmd.value.fence <= Fence(Exec(cfg, steps).sh.ctl, e.cmd.value.task)
  {
    hide Exec, Local;
    Fencing.FenceInvAlways(cfg, steps);
    var sh := Exec(cfg, steps).sh;
    var j :| 0 <= j < |sh.log| && sh.log[j] == e;
    Fencing.IssuedToken(cfg, sh, j);
  }

  lemma NoHalt(cfg: Config, steps: seq<Step>, k: string)
    requires AllLate(cfg, steps, k)
    ensures forall task, token: nat :: !Asked(steps, ControlTask(Halt, k, task, token))
  {
    hide Superseded;
  }

  lemma NobodyPassed(cfg: Config, steps: seq<Step>, k: string, token: nat)
    requires GoodConfig(cfg) && AllLate(cfg, steps, k)
    ensures !PassedWith(cfg, steps, k, token)
  {
    hide Exec, Superseded, Fence;
    forall n: nat, kind, task ensures !PassedAt(cfg, steps, n, kind, k, task, token) {
      if PassedAt(cfg, steps, n, kind, k, task, token) {
        var m :| 0 <= m < |steps[..n]| && steps[..n][m].Begin? && steps[..n][m].request == ControlTask(kind, k, task, token);
        assert steps[m] == steps[..n][m];
        LateIsNotCurrent(cfg, steps, m, n, task, token);
      }
    }
  }

  /** A control that comes under a token the log has superseded changes nothing, whatever else goes on: no command, no event
      and no call ever bears its key. */
  lemma LateControlsDoNothing(cfg: Config, steps: seq<Step>, k: string)
    requires GoodConfig(cfg) && OperatorsKey(cfg, k) && AllLate(cfg, steps, k)
    ensures var sh := Exec(cfg, steps).sh;
            k !in sh.ctl.commands && !Keyed(sh.log, k) && !CalledWith(sh.calls, k)
  {
    hide Exec, OperatorsKey, Superseded, Local, Fence;
    if k in Exec(cfg, steps).sh.ctl.commands {
      ControlsWereCurrent(cfg, steps, k);
      NoHalt(cfg, steps, k);
      var token: nat :| PassedWith(cfg, steps, k, token);
      NobodyPassed(cfg, steps, k, token);
    }
    InvAlways(cfg, steps);
    UnknownLeavesNoTrace(cfg, Exec(cfg, steps).sh, k);
  }

  lemma UnknownLeavesNoTrace(cfg: Config, sh: Shared, k: string)
    requires Global(cfg, sh) && k !in sh.ctl.commands
    ensures !Keyed(sh.log, k) && !CalledWith(sh.calls, k)
  {
    CalledIsKeyed(sh, k);
    if Keyed(sh.log, k) { KeyedIsKnown(sh, k); }
  }

  // ---- retried dispatches

  /** The control the job stems from is there, with the job's token. */
  ghost predicate Carried(sh: Shared, job: Job)
    requires !job.DispatchJob?
  {
    job.key in sh.ctl.commands && sh.ctl.commands[job.key].fence == job.token
  }

  /** Once its token is issued, a control and the retry it leads to carry it. */
  ghost predicate Carries(sh: Shared, pc: Pc) {
    match pc
    case Notes(_, next, abort) =>
      && (next.ToCreate? ==> next.job.RetryJob? && Carried(sh, next.job) && Keyed(sh.log, next.job.key))
      && (abort.Finish? || abort.ToEnd?)
    case InJob(job, stage) =>
      && (stage.Rotating? ==> Rotates(job))
      && (job.RetryJob? ==> Carried(sh, job) && Keyed(sh.log, job.key))
      && (job.ControlJob? && Rotates(job) && !Early(stage) && !stage.Rotating? ==>
            Carried(sh, job) && (stage.LogRequest? || Keyed(sh.log, job.key)))
    case _ => true
  }

  lemma EffectKeepsIssued(cfg: Config, sh: Shared, op: Op, ch: Choice, k: string)
    requires k in sh.ctl.commands && !(op.RotateFence? && op.key == k)
    ensures var next := Effect(cfg, sh, op, ch).0;
            k in next.ctl.commands && next.ctl.commands[k].fence == sh.ctl.commands[k].fence
            && (Keyed(sh.log, k) ==> Keyed(next.log, k))
  {
    hide Scrub, AfterReport, AfterRefusal, Keyed;
    if op.Append? && ch.appended { KeyedGrows(sh.log, [Scrub(cfg, op.e)], k); }
  }

  lemma OthersKeepCarrying(cfg: Config, sh: Shared, pc: Pc, op: Op, ch: Choice, other: Pc)
    requires OpBacked(cfg, sh, pc, op) && Apart(cfg, pc, other) && Carries(sh, other)
    ensures Carries(Effect(cfg, sh, op, ch).0, other)
  {
    hide Effect, Keyed;
    if other.Notes? && other.next.ToCreate? {
      EffectKeepsIssued(cfg, sh, op, ch, other.next.job.key);
    }
    if other.InJob? && !other.job.DispatchJob? && Carried(sh, other.job)
       && (Keyed(sh.log, other.job.key) || other.stage.LogRequest?) && !(other.job.RetryJob? && !Keyed(sh.log, other.job.key)) {
      EffectKeepsIssued(cfg, sh, op, ch, other.job.key);
    }
  }

  lemma GotoCarries(cfg: Config, sh: Shared, next: Next)
    requires next.ToCreate? ==> next.job.RetryJob? && Carried(sh, next.job) && Keyed(sh.log, next.job.key)
    ensures Carries(sh, Goto(cfg, next))
  {
    if next.ToWalk? { WalkStops(cfg, next.seen, next.i, next.cont); }
  }

  lemma RotatingCarries(cfg: Config, sh: Shared, job: Job, ch: Choice)
    requires Rotates(job)
    ensures var (next, pc) := Act(cfg, sh, InJob(job, Rotating), ch);
            Carries(next, pc)
  {
    hide Goto;
    GotoCarries(cfg, Act(cfg, sh, InJob(job, Rotating), ch).0, Fail(job));
  }

  lemma RequestCarries(cfg: Config, sh: Shared, job: Job, cmd: Command, ch: Choice)
    requires Carries(sh, InJob(job, LogRequest(cmd))) && cmd.key == JobKey(cfg, job) && Fixed(cfg, cmd.key)
    ensures var (next, pc) := Act(cfg, sh, InJob(job, LogRequest(cmd)), ch);
            Carries(next, pc)
  {
    hide Goto, AfterReport, Keyed;
    var next := Act(cfg, sh, InJob(job, LogRequest(cmd)), ch).0;
    GotoCarries(cfg, next, Fail(job));
    if ch.appended {
      assert next.log == sh.log + [next.log[|sh.log|]];
      forall k ensures Keyed(next.log, k) <==> Keyed(sh.log, k) || NamesKey(next.log[|sh.log|], k) {
        KeyedAppend(sh.log, next.log[|sh.log|], k);
      }
    }
  }

  lemma MarkNotesCarry(cfg: Config, sh: Shared, job: Job, to: CommandState)
    requires Carries(sh, InJob(job, LogMark(to, None)))
    ensures Carries(sh, MarkNotes(cfg, job, to))
  {
    hide Keyed;
  }

  lemma JobCarries(cfg: Config, sh: Shared, job: Job, stage: JobStage, out: Outcome)
    requires Carries(sh, InJob(job, stage)) && !stage.Rotating? && !stage.LogRequest?
    ensures Carries(sh, AfterJob(cfg, job, stage, out))
  {
    hide Goto, MarkNotes, Keyed;
    GotoCarries(cfg, sh, Proceed(job));
    GotoCarries(cfg, sh, Fail(job));
    if stage.LogMark? { MarkNotesCarry(cfg, sh, job, stage.logTo); }
  }

  lemma OwnCarries(cfg: Config, sh: Shared, pc: Pc, ch: Choice)
    requires OpBacked(cfg, sh, pc, OpOf(cfg, pc, ch.now)) && Carries(sh, pc) && !(pc.InJob? && pc.stage.Rotating?)
    ensures Carries(Act(cfg, sh, pc, ch).0, pc)
  {
    hide Effect, Keyed, OpBacked, After;
    var op, next := OpOf(cfg, pc, ch.now), Act(cfg, sh, pc, ch).0;
    RotatesOnly(cfg, pc, ch.now);
    if pc.Notes? && pc.next.ToCreate? { EffectKeepsIssued(cfg, sh, op, ch, pc.next.job.key); }
    if pc.InJob? && !pc.job.DispatchJob? && Carried(sh, pc.job) { EffectKeepsIssued(cfg, sh, op, ch, pc.job.key); }
  }

  lemma RotatesOnly(cfg: Config, pc: Pc, now: int)
    requires !(pc.InJob? && pc.stage.Rotating?)
    ensures !OpOf(cfg, pc, now).RotateFence?
  {
  }

  lemma OthersCarry(cfg: Config, sh: Shared, pc: Pc, out: Outcome, ch: Choice)
    requires Carries(sh, pc) && !pc.InJob?
    ensures Carries(sh, After(cfg, pc, out, ch))
  {
    hide Keyed, Goto, Carried;
    match pc
    case Notes(events, next, abort) =>
      GotoCarries(cfg, sh, next);
      GotoCarries(cfg, sh, abort);
    case InPass(cont, pass) => PassCarries(cfg, sh, cont, pass, out);
    case InDecision(d, grant, decide) => DecisionCarries(cfg, sh, d, grant, decide, out, ch.now);
    case InReconcile(reconcile) => ReconcileCarries(cfg, sh, reconcile, out);
    case _ =>
  }

  lemma PassCarries(cfg: Config, sh: Shared, cont: Cont, pass: PassStage, out: Outcome)
    ensures Carries(sh, AfterPass(cfg, cont, pass, out))
  {
    hide Keyed;
    if out.Events? { WalkStops(cfg, out.events, 0, cont); }
  }

  lemma DecisionCarries(cfg: Config, sh: Shared, d: Digest, grant: bool, decide: DecideStage, out: Outcome, now: int)
    ensures Carries(sh, AfterDecide(d, grant, decide, out, now))
  {
  }

  lemma ReconcileCarries(cfg: Config, sh: Shared, reconcile: ReconcileStage, out: Outcome)
    ensures Carries(sh, AfterReconcile(cfg, reconcile, out))
  {
  }

  lemma PointCarries(cfg: Config, sh: Shared, pc: Pc, ch: Choice)
    requires GoodConfig(cfg) && Global(cfg, sh) && Local(cfg, sh, pc) && Carries(sh, pc)
    ensures var (next, pc') := Act(cfg, sh, pc, ch);
            Carries(next, pc')
  {
    hide Effect, AfterJob, AfterCheck, AfterPass, AfterDecide, AfterReconcile, AfterNotes, JobOp, CheckOp, Carries, OpBacked;
    var (next, out) := Effect(cfg, sh, OpOf(cfg, pc, ch.now), ch);
    OpIsBacked(cfg, sh, pc, ch.now);
    if pc.InJob? && pc.stage.Rotating? {
      RotatingHas(sh, pc.job);
      RotatingCarries(cfg, sh, pc.job, ch);
    } else if pc.InJob? && pc.stage.LogRequest? {
      RequestCarries(cfg, sh, pc.job, pc.stage.cmd, ch);
    } else {
      OwnCarries(cfg, sh, pc, ch);
      if pc.InJob? { JobCarries(cfg, next, pc.job, pc.stage, out); } else { OthersCarry(cfg, next, pc, out, ch); }
    }
  }

  lemma RotatingHas(sh: Shared, job: Job)
    ensures Carries(sh, InJob(job, Rotating)) ==> Rotates(job)
  {
  }

  ghost predicate CarryInv(s: State) {
    forall r | r in s.reqs :: Carries(s.sh, s.reqs[r])
  }

  lemma AdvanceKeepsCarrying(cfg: Config, s: State, r: nat, ch: Choice)
    requires GoodConfig(cfg) && Inv(cfg, s) && CarryInv(s) && r in s.reqs
    ensures CarryInv(Do(cfg, s, Advance(r, ch)))
  {
    hide Effect, After, OpOf, Carries, Global, Local, Apart, OpBacked;
    OpIsBacked(cfg, s.sh, s.reqs[r], ch.now);
    PointCarries(cfg, s.sh, s.reqs[r], ch);
    forall q | q in s.reqs && q != r ensures Carries(Act(cfg, s.sh, s.reqs[r], ch).0, s.reqs[q]) {
      OthersKeepCarrying(cfg, s.sh, s.reqs[r], OpOf(cfg, s.reqs[r], ch.now), ch, s.reqs[q]);
    }
  }

  lemma {:induction false} CarryAlways(cfg: Config, steps: seq<Step>)
    requires GoodConfig(cfg)
    ensures CarryInv(Exec(cfg, steps))
    decreases |steps|
  {
    hide Act, Reboot, Admissible, Inv, Keyed;
    if steps != [] {
      var rest, last := steps[..|steps| - 1], steps[|steps| - 1];
      CarryAlways(cfg, rest);
      InvAlways(cfg, rest);
      var s := Exec(cfg, rest);
      match last
      case Begin(r, request) =>
      case Advance(r, ch) => if r in s.reqs { AdvanceKeepsCarrying(cfg, s, r, ch); }
      case Restart(_) =>
    }
  }

  /** The dispatch that an accepted retry creates gets exactly the token that was issued to the retry's control. */
  lemma RetriesGetTheIssuedToken(
    cfg: Config, steps: seq<Step>, r: nat, ch: Choice, key: string, task: string, token: nat)
    requires GoodConfig(cfg)
    requires var s := Exec(cfg, steps);
             r in s.reqs && s.reqs[r] == InJob(RetryJob(key, task, token), Create)
             && RetryKey(cfg, task, key) !in s.sh.ctl.commands
    ensures var commands := Exec(cfg, steps + [Advance(r, ch)]).sh.ctl.commands;
            var k := RetryKey(cfg, task, key);
            k in commands ==> key in commands && commands[k].fence == commands[key].fence && commands[k].task == task
  {
    hide Exec, After, Keyed;
    CarryAlways(cfg, steps);
    Traces.ExecAfter(cfg, steps, Advance(r, ch));
    var s := Exec(cfg, steps);
    assert Carries(s.sh, s.reqs[r]);
  }
}
