/** When no report goes wrong: no result check polls a command while another request still owes its outcome event, and no
    command's event is lost. Then recovery is exact at every moment. */
module InTime {
  import opened Model
  import opened Control
  import opened Actions
  import opened Protocol
  import opened CommandSafety
  import opened Recovery
  import opened Agreement
  import Fencing

  /** A result check is about to poll a command for which an event is owed. */
  ghost predicate Overtakes(cfg: Config, s: State, step: Step) {
    step.Advance? && step.r in s.reqs
    && s.reqs[step.r].InCheck? && s.reqs[step.r].check.Poll? && !NobodyOwes(cfg, s, s.reqs[step.r].check.key)
  }

  /** The append of a command's event fails. */
  ghost predicate DropsEvent(cfg: Config, s: State, step: Step) {
    step.Advance? && step.r in s.reqs && !step.ch.appended
    && var op := OpOf(cfg, s.reqs[step.r], step.ch.now); op.Append? && op.e.CommandEvent? && op.e.cmd.Some?
  }

  ghost predicate NothingLost(cfg: Config, steps: seq<Step>) {
    forall n | 0 <= n < |steps| :: !DropsEvent(cfg, Exec(cfg, steps[..n]), steps[n])
  }

  ghost predicate NothingOvertaken(cfg: Config, steps: seq<Step>) {
    forall n | 0 <= n < |steps| :: !Overtakes(cfg, Exec(cfg, steps[..n]), steps[n])
  }

  /** While an acknowledgement or an unknown outcome is owed, the command is as it was acknowledged. */
  ghost predicate Prompt(cfg: Config, ctl: Ctl, pc: Pc) {
    match pc
    case InJob(job, Mark(to)) =>
      to == OutcomeUnknown ==> JobKey(cfg, job) in ctl.commands && ctl.commands[JobKey(cfg, job)].state == Acknowledged
    case InJob(_, LogMark(to, moved)) =>
      to == Acknowledged && moved.Some? ==>
        moved.value.key in ctl.commands && ctl.commands[moved.value.key].state == Acknowledged
    case _ => true
  }

  ghost predicate PromptInv(cfg: Config, s: State) {
    s.sh.skewed == {} && forall r | r in s.reqs :: Prompt(cfg, s.sh.ctl, s.reqs[r])
  }

  /** Everything known of a request at its point. */
  ghost predicate Known(cfg: Config, sh: Shared, pc: Pc) {
    && Global(cfg, sh) && Local(cfg, sh, pc) && Own(cfg, sh, pc) && Prompt(cfg, sh.ctl, pc)
    && (Owed(cfg, pc).Some? ==> Fits(ViewOf(sh, Owed(cfg, pc).value), pc))
  }

  // ---- no report goes wrong

  lemma OwedIsUpToDate(cfg: Config, sh: Shared, pc: Pc)
    requires Known(cfg, sh, pc) && InHand(pc).Some?
    ensures UpToDate(sh.ctl, LoggedOf(InHand(pc).value))
  {
    hide Latest, Global, CtlOk;
    assert Agrees(sh.ctl, LoggedOf(InHand(pc).value));
    assert Owed(cfg, pc) == Some(InHand(pc).value.key);
  }

  lemma NothingSkews(cfg: Config, sh: Shared, pc: Pc, op: Op, ch: Choice)
    requires GoodConfig(cfg) && Known(cfg, sh, pc) && sh.skewed == {} && op == OpOf(cfg, pc, ch.now)
    requires op.Append? && op.e.CommandEvent? && op.e.cmd.Some? ==> ch.appended
    ensures Effect(cfg, sh, op, ch).0.skewed == {}
  {
    hide OpOf, Global, Owning, HoldsCopy, NotCalled, Own, Fits, ViewOf, UpToDate, Shaped;
    OpIsBacked(cfg, sh, pc, ch.now);
    if op.Append? && op.e.CommandEvent? && op.e.cmd.Some? {
      OwedIsUpToDate(cfg, sh, pc);
    } else if op.Move? && op.to == OutcomeUnknown {
      OnlyMarksLose(cfg, pc, ch.now);
    }
  }

  /** Only a job reports an unknown outcome, of its own command. */
  lemma OnlyMarksLose(cfg: Config, pc: Pc, now: int)
    requires Shaped(cfg, pc)
    ensures var op := OpOf(cfg, pc, now);
            op.Move? && op.to == OutcomeUnknown ==>
              pc.InJob? && pc.stage == Mark(OutcomeUnknown) && op.key == JobKey(cfg, pc.job)
  {
  }

  // ---- what is owed stays as it was acknowledged

  /** The acknowledged command a request has still to report. */
  function Unreported(cfg: Config, pc: Pc): Option<string> {
    match pc
    case InJob(job, Mark(to)) => if to == OutcomeUnknown then Some(JobKey(cfg, job)) else None
    case InJob(_, LogMark(to, moved)) => if to == Acknowledged && moved.Some? then Some(moved.value.key) else None
    case _ => None
  }

  lemma PromptIs(cfg: Config, ctl: Ctl, pc: Pc)
    ensures Prompt(cfg, ctl, pc) <==>
            (Unreported(cfg, pc).Some? ==>
               Unreported(cfg, pc).value in ctl.commands && ctl.commands[Unreported(cfg, pc).value].state == Acknowledged)
    ensures Unreported(cfg, pc).Some? ==> Owed(cfg, pc) == Unreported(cfg, pc) && pc.InJob?
  {
  }

  /** A step of one request leaves the acknowledged command another has still to report. */
  lemma OthersCommandStays(cfg: Config, sh: Shared, pc: Pc, op: Op, ch: Choice, k: string)
    requires Local(cfg, sh, pc) && Prompt(cfg, sh.ctl, pc) && op == OpOf(cfg, pc, ch.now)
    requires k in sh.ctl.commands && sh.ctl.commands[k].state == Acknowledged
    requires pc.InCheck? && pc.check.Poll? ==> pc.check.key != k
    requires Unreported(cfg, pc) != Some(k)
    ensures var next := Effect(cfg, sh, op, ch).0; k in next.ctl.commands && next.ctl.commands[k].state == Acknowledged
  {
    hide HoldsCopy, NotCalled, Keyed;
    if op.Move? && op.key == k {
      MoverIs(cfg, pc, ch.now);
    } else {
      hide OpOf;
    }
  }

  /** Who moves a command: its job, its poller, or a reconciliation. */
  lemma MoverIs(cfg: Config, pc: Pc, now: int)
    requires Shaped(cfg, pc)
    ensures var op := OpOf(cfg, pc, now);
            op.Move? ==>
              || OwnedKey(cfg, pc) == Some(op.key)
              || (pc.InCheck? && pc.check.Poll? && pc.check.key == op.key)
              || (pc.InJob? && pc.stage == Mark(OutcomeUnknown) && op.key == JobKey(cfg, pc.job))
              || op.to == Reconciled
  {
  }

  lemma MarkStaysPrompt(cfg: Config, sh: Shared, job: Job, to: CommandState, ch: Choice)
    requires Known(cfg, sh, InJob(job, Mark(to)))
    ensures var (next, out) := Effect(cfg, sh, JobOp(cfg, job, Mark(to)), ch);
            Prompt(cfg, next.ctl, AfterJob(cfg, job, Mark(to), out))
  {
    hide Effect, Fits, Own, Local, CtlOk, LogAgrees;
    MoveYieldsCopy(cfg, sh, JobKey(cfg, job), to, ch);
  }

  lemma UnsureStaysPrompt(cfg: Config, sh: Shared, job: Job, ch: Choice)
    requires Known(cfg, sh, InJob(job, Unsure))
    ensures var (next, out) := Effect(cfg, sh, JobOp(cfg, job, Unsure), ch);
            Prompt(cfg, next.ctl, AfterJob(cfg, job, Unsure, out))
  {
    hide Fits, Own, HoldsCopy, NotCalled, Global, Goto, Keyed;
  }

  /** Nowhere else does a job come to owe an outcome. */
  lemma StageStaysPrompt(cfg: Config, ctl: Ctl, job: Job, stage: JobStage, out: Outcome)
    requires StageOk(stage) && !stage.Mark? && !stage.Unsure?
    ensures Unreported(cfg, AfterJob(cfg, job, stage, out)).None?
  {
    hide Goto, MarkNotes;
    GotoOwesNothing(cfg, Proceed(job));
    GotoOwesNothing(cfg, Fail(job));
    PromptIs(cfg, ctl, Goto(cfg, Proceed(job)));
    PromptIs(cfg, ctl, Goto(cfg, Fail(job)));
    if stage.LogMark? {
      MarkNotesOweNothing(cfg, job, stage.logTo);
      PromptIs(cfg, ctl, MarkNotes(cfg, job, stage.logTo));
    }
  }

  lemma JobStaysPrompt(cfg: Config, sh: Shared, job: Job, stage: JobStage, ch: Choice)
    requires Known(cfg, sh, InJob(job, stage))
    ensures var (next, out) := Effect(cfg, sh, JobOp(cfg, job, stage), ch);
            Prompt(cfg, next.ctl, AfterJob(cfg, job, stage, out))
  {
    hide Effect, AfterJob, JobOp, Fits, Own, Global, Owning, HoldsCopy, NotCalled, JobOk, Prompt, Unreported;
    match stage
    case Mark(to) => MarkStaysPrompt(cfg, sh, job, to, ch);
    case Unsure => UnsureStaysPrompt(cfg, sh, job, ch);
    case _ =>
      var (next, out) := Effect(cfg, sh, JobOp(cfg, job, stage), ch);
      StageStaysPrompt(cfg, next.ctl, job, stage, out);
      PromptIs(cfg, next.ctl, AfterJob(cfg, job, stage, out));
  }

  lemma OthersStayPrompt(cfg: Config, ctl: Ctl, pc: Pc, out: Outcome, ch: Choice)
    requires !pc.InJob?
    ensures Prompt(cfg, ctl, After(cfg, pc, out, ch))
  {
    hide Goto;
    match pc
    case Notes(events, next, abort) =>
      GotoOwesNothing(cfg, next);
      GotoOwesNothing(cfg, abort);
    case InPass(cont, pass) => if out.Events? { WalkOwesNothing(cfg, out.events, 0, cont); }
    case _ =>
  }

  lemma PointStaysPrompt(cfg: Config, sh: Shared, pc: Pc, ch: Choice)
    requires Known(cfg, sh, pc)
    ensures var (next, pc') := Act(cfg, sh, pc, ch);
            Prompt(cfg, next.ctl, pc')
  {
    hide Effect, AfterJob, Prompt, Known;
    if pc.InJob? {
      JobStaysPrompt(cfg, sh, pc.job, pc.stage, ch);
    } else {
      var (next, out) := Effect(cfg, sh, OpOf(cfg, pc, ch.now), ch);
      OthersStayPrompt(cfg, next.ctl, pc, out, ch);
    }
  }

  // ---- runs

  lemma AllKnown(cfg: Config, s: State, r: nat)
    requires Inv(cfg, s) && AgreeInv(cfg, s) && PromptInv(cfg, s) && r in s.reqs
    ensures Known(cfg, s.sh, s.reqs[r])
  {
    hide Global, Local, Fits, ViewOf, Prompt, Current;
    var pc := s.reqs[r];
    assert Own(cfg, s.sh, pc);
    if Owed(cfg, pc).Some? { assert KeyInv(cfg, s, Owed(cfg, pc).value); }
  }

  lemma OtherStaysPrompt(cfg: Config, s: State, r: nat, ch: Choice, q: nat)
    requires Inv(cfg, s) && AgreeInv(cfg, s) && PromptInv(cfg, s) && r in s.reqs && q in s.reqs && q != r
    requires !Overtakes(cfg, s, Advance(r, ch))
    ensures Prompt(cfg, Act(cfg, s.sh, s.reqs[r], ch).0.ctl, s.reqs[q])
  {
    hide Effect, OpOf, After, Global, Local, Fits, ViewOf, Prompt, Current;
    var pc, other := s.reqs[r], s.reqs[q];
    PromptIs(cfg, s.sh.ctl, other);
    PromptIs(cfg, s.sh.ctl, pc);
    PromptIs(cfg, Act(cfg, s.sh, pc, ch).0.ctl, other);
    if Unreported(cfg, other).Some? {
      var k := Unreported(cfg, other).value;
      assert KeyInv(cfg, s, k);
      assert Local(cfg, s.sh, pc);
      assert Prompt(cfg, s.sh.ctl, pc) && Prompt(cfg, s.sh.ctl, other);
      assert Unreported(cfg, pc) == Some(k) ==> Paired(ViewOf(s.sh, k), pc, other);
      OthersCommandStays(cfg, s.sh, pc, OpOf(cfg, pc, ch.now), ch, k);
    }
  }

  lemma StepIsPrompt(cfg: Config, s: State, step: Step)
    requires GoodConfig(cfg) && Inv(cfg, s) && AgreeInv(cfg, s) && PromptInv(cfg, s)
    requires !Overtakes(cfg, s, step) && !DropsEvent(cfg, s, step)
    ensures PromptInv(cfg, Do(cfg, s, step))
  {
    hide Effect, OpOf, After, Recover, Inv, AgreeInv, Known, Prompt, Overtakes;
    match step
    case Begin(r, request) => if Do(cfg, s, step) != s { EntryIsPrompt(cfg, s.sh.ctl, request); }
    case Advance(r, ch) =>
      if r in s.reqs {
        AllKnown(cfg, s, r);
        NothingSkews(cfg, s.sh, s.reqs[r], OpOf(cfg, s.reqs[r], ch.now), ch);
        PointStaysPrompt(cfg, s.sh, s.reqs[r], ch);
        forall q | q in s.reqs && q != r ensures Prompt(cfg, Act(cfg, s.sh, s.reqs[r], ch).0.ctl, s.reqs[q]) {
          OtherStaysPrompt(cfg, s, r, ch, q);
        }
      }
    case Restart(_) =>
  }

  lemma EntryIsPrompt(cfg: Config, ctl: Ctl, request: Request)
    ensures Prompt(cfg, ctl, Entry(request))
  {
  }

  lemma {:induction false} PromptAlways(cfg: Config, steps: seq<Step>)
    requires GoodConfig(cfg) && NothingLost(cfg, steps) && NothingOvertaken(cfg, steps)
    ensures PromptInv(cfg, Exec(cfg, steps))
    decreases |steps|
  {
    hide Do, Inv, AgreeInv, BehindInv, StateInv, Overtakes, DropsEvent;
    if steps != [] {
      var n := |steps| - 1;
      forall m | 0 <= m < n
        ensures !DropsEvent(cfg, Exec(cfg, steps[..n][..m]), steps[..n][m])
        ensures !Overtakes(cfg, Exec(cfg, steps[..n][..m]), steps[..n][m])
      {
        assert steps[..n][..m] == steps[..m] && steps[..n][m] == steps[m];
      }
      PromptAlways(cfg, steps[..n]);
      AgreeAlways(cfg, steps[..n]);
      StepIsPrompt(cfg, Exec(cfg, steps[..n]), steps[n]);
    }
  }

  // ---- what follows

  /** Where no check polls a command whose event is still owed, and no command's event is lost, nothing ever goes wrong: at
      every moment, every command no request is about to report would come back in its state. */
  lemma RecoveryInTimeIsExact(cfg: Config, steps: seq<Step>, k: string)
    requires GoodConfig(cfg) && NothingLost(cfg, steps) && NothingOvertaken(cfg, steps)
    requires var s := Exec(cfg, steps); k in s.sh.ctl.commands && NobodyOwes(cfg, s, k)
    ensures var (sh, back) := (Exec(cfg, steps).sh, Recover(cfg, Exec(cfg, steps).sh.log));
            && sh.skewed == {}
            && k in back.commands && back.commands[k].state == Folded(sh.ctl.commands[k].state)
  {
    hide Exec, Do, NobodyOwes, Recover;
    PromptAlways(cfg, steps);
    RecoveryIsExact(cfg, steps, k);
  }

  /** When requests take turns nothing is overtaken. */
  lemma TurnsOvertakeNothing(cfg: Config, steps: seq<Step>)
    requires GoodConfig(cfg) && Fencing.OneAtATime(cfg, steps)
    ensures NothingOvertaken(cfg, steps)
  {
    hide Exec, Do;
    forall n | 0 <= n < |steps| ensures !Overtakes(cfg, Exec(cfg, steps[..n]), steps[n]) {
      forall m | 0 <= m < n && steps[..n][m].Begin? ensures AllDone(Exec(cfg, steps[..n][..m])) {
        assert steps[..n][..m] == steps[..m];
      }
      Fencing.RiseAlways(cfg, steps[..n]);
    }
  }

  /** So when requests take turns, only a failed append makes recovery inexact. */
  lemma RecoveryInTurnIsExact(cfg: Config, steps: seq<Step>, k: string)
    requires GoodConfig(cfg) && Fencing.OneAtATime(cfg, steps) && NothingLost(cfg, steps)
    requires var s := Exec(cfg, steps); k in s.sh.ctl.commands && NobodyOwes(cfg, s, k)
    ensures var (sh, back) := (Exec(cfg, steps).sh, Recover(cfg, Exec(cfg, steps).sh.log));
            k in back.commands && back.commands[k].state == Folded(sh.ctl.commands[k].state)
  {
    hide Exec, Do, NobodyOwes, Recover, NothingLost, NothingOvertaken, Fencing.OneAtATime;
    TurnsOvertakeNothing(cfg, steps);
    RecoveryInTimeIsExact(cfg, steps, k);
  }
}
