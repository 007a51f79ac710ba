/** When recovery is exact: for every command for which no request is between a transition and its append, the log and
    the controller agree exactly when the command's last report did not go wrong. */
module Agreement {
  import opened Model
  import opened Control
  import opened Actions
  import ControlRuns
  import opened Protocol
  import opened CommandSafety
  import opened Recovery

  /** A command as the controller has it, up to what is never logged, as the log has it, and whether its last report went
      wrong. */
  datatype View = View(live: Option<CommandState>, logged: Option<CommandState>, skewed: bool)

  function ViewOf(sh: Shared, k: string): View {
    View(if k in sh.ctl.commands then Some(Folded(sh.ctl.commands[k].state)) else None,
         if k in Latest(sh.log) then Some(Latest(sh.log)[k].state) else None,
         k in sh.skewed)
  }

  /** The log tells what the command is. */
  predicate Told(v: View) {
    v.live.Some? && v.logged == v.live
  }

  /** The command for which this request owes the log an event. */
  function Owed(cfg: Config, pc: Pc): Option<string> {
    match pc
    case InJob(job, stage) =>
      if stage.Rotating? || stage.LogRequest? || stage == Mark(OutcomeUnknown) then Some(JobKey(cfg, job))
      else if stage.LogMark? && stage.moved.Some? then Some(stage.moved.value.key)
      else None
    case InCheck(_, LogSettle(_, moved)) => if moved.Some? then Some(moved.value.key) else None
    case _ => None
  }

  predicate Settled(s: Option<CommandState>) {
    s == Some(Completed) || s == Some(Failed) || s == Some(Cancelled)
  }

  /** What the command looks like while the event is owed. */
  predicate Fits(v: View, pc: Pc) {
    match pc
    case InJob(_, Rotating) => v.live == Some(Requested) && v.logged == None
    case InJob(_, LogRequest(cmd)) => v.live == Some(Requested) && v.logged == None && cmd.state == Requested
    case InJob(_, Mark(_)) => v.live == Some(Acknowledged) || Settled(v.live)
    case InJob(_, LogMark(to, moved)) =>
      moved.Some? && moved.value.state == to && (v.live == Some(to) || (to == Acknowledged && Settled(v.live)))
    case InCheck(_, LogSettle(to, moved)) => moved.Some? && moved.value.state == to && v.live == Some(to)
    case _ => true
  }

  /** The owed event is still the news about the command. */
  predicate Current(v: View, pc: Pc) {
    match pc
    case InJob(_, Mark(_)) => v.live == Some(Acknowledged)
    case InJob(_, LogMark(to, _)) => v.live == Some(to)
    case _ => true
  }

  ghost predicate Own(cfg: Config, sh: Shared, pc: Pc) {
    && (Owed(cfg, pc).Some? ==> Owed(cfg, pc).value in sh.ctl.commands)
    && (pc.InJob? && pc.stage.Rotating? && JobKey(cfg, pc.job) in sh.ctl.commands ==>
          sh.ctl.commands[JobKey(cfg, pc.job)].task == JobTask(cfg, pc.job))
    && (pc.InJob? && pc.stage.LogMark? && pc.stage.moved.Some? ==> pc.stage.moved.value.key == JobKey(cfg, pc.job))
  }

  predicate NobodyOwes(cfg: Config, s: State, k: string) {
    forall r | r in s.reqs :: Owed(cfg, s.reqs[r]) != Some(k)
  }

  /** Two requests that both owe an event for one command: the job's news is out of date. */
  predicate Paired(v: View, a: Pc, b: Pc) {
    (a.InJob? && b.InCheck? && !Current(v, a)) || (a.InCheck? && b.InJob? && !Current(v, b))
  }

  ghost predicate KeyInv(cfg: Config, s: State, k: string) {
    k in s.sh.ctl.commands ==>
      var v := ViewOf(s.sh, k);
      && (forall r | r in s.reqs && Owed(cfg, s.reqs[r]) == Some(k) ::
            Fits(v, s.reqs[r]) && (Current(v, s.reqs[r]) ==> !Told(v)))
      && (forall r, q | r in s.reqs && q in s.reqs && r != q ::
            Owed(cfg, s.reqs[r]) == Some(k) && Owed(cfg, s.reqs[q]) == Some(k) ==> Paired(v, s.reqs[r], s.reqs[q]))
      && ((forall r | r in s.reqs && Owed(cfg, s.reqs[r]) == Some(k) :: !Current(v, s.reqs[r])) ==>
            (Told(v) <==> !v.skewed))
  }

  ghost predicate AgreeInv(cfg: Config, s: State) {
    && (forall r | r in s.reqs :: Own(cfg, s.sh, s.reqs[r]))
    && (forall k :: KeyInv(cfg, s, k))
  }

  // ---- how one step turns a command

  /** Nothing about the command changes, and neither does what is owed. */
  ghost predicate Stays(cfg: Config, k: string, v: View, pc: Pc, w: View, pc': Pc) {
    && w == v
    && (Owed(cfg, pc) == Some(k) <==> Owed(cfg, pc') == Some(k))
    && (Owed(cfg, pc) == Some(k) ==> pc.InJob? && pc'.InJob? && (Current(v, pc) <==> Current(w, pc')))
  }

  /** The request that is sending or polling the command moves it, and owes the news. */
  ghost predicate Starts(cfg: Config, k: string, v: View, pc: Pc, w: View, pc': Pc) {
    && Owed(cfg, pc) != Some(k) && OwnedKey(cfg, pc) == Some(k) && Owed(cfg, pc') == Some(k)
    && w == v.(live := w.live) && Current(w, pc') && !Told(w)
    && ((pc.InJob? && pc'.InJob? && v.live == Some(Requested))
        || (pc.InCheck? && pc'.InCheck? && v.live == Some(Acknowledged) && Settled(w.live)))
  }

  /** An acknowledged command becomes unknown before its acknowledgement is logged. */
  ghost predicate Loses(cfg: Config, k: string, v: View, pc: Pc, w: View, pc': Pc) {
    && Owed(cfg, pc) == Some(k) && Owed(cfg, pc') == Some(k) && pc.InJob? && pc'.InJob?
    && v.live == Some(Acknowledged) && w == v.(live := Some(OutcomeUnknown)) && Current(w, pc') && !Told(w)
  }

  /** The event is appended. */
  ghost predicate Reports(cfg: Config, k: string, v: View, pc: Pc, w: View, pc': Pc) {
    && Owed(cfg, pc) == Some(k) && Owed(cfg, pc') != Some(k)
    && w.live == v.live && (Told(w) <==> Current(v, pc)) && (w.skewed <==> !Current(v, pc))
  }

  /** The event is lost: its append fails, or there was nothing to report. */
  ghost predicate Drops(cfg: Config, k: string, v: View, pc: Pc, w: View, pc': Pc) {
    && Owed(cfg, pc) == Some(k) && Owed(cfg, pc') != Some(k)
    && w == if Current(v, pc) then v.(skewed := true) else v
  }

  /** From view `v` at `pc` to view `w` at `pc'`. */
  ghost predicate Turns(cfg: Config, k: string, v: View, pc: Pc, w: View, pc': Pc) {
    && (Owed(cfg, pc') == Some(k) ==> Fits(w, pc'))
    && (Stays(cfg, k, v, pc, w, pc') || Starts(cfg, k, v, pc, w, pc') || Loses(cfg, k, v, pc, w, pc')
        || Reports(cfg, k, v, pc, w, pc') || Drops(cfg, k, v, pc, w, pc'))
  }

  ghost predicate Prepared(cfg: Config, sh: Shared, pc: Pc, k: string) {
    && Global(cfg, sh) && Local(cfg, sh, pc) && Own(cfg, sh, pc) && Behind(sh) && k in sh.ctl.commands
    && (Owed(cfg, pc) == Some(k) ==> Fits(ViewOf(sh, k), pc))
  }

  // ---- what an effect does to a view

  lemma SameView(cfg: Config, sh: Shared, op: Op, ch: Choice, k: string)
    requires k in sh.ctl.commands
    requires op.Append? ==> !NamesKey(op.e, k) && !NamesKey(Scrub(cfg, op.e), k)
    requires op.Move? ==> op.key != k
    ensures ViewOf(Effect(cfg, sh, op, ch).0, k) == ViewOf(sh, k)
  {
    hide Latest, Scrub, UpToDate;
    if op.Append? {
      LatestAppend(sh.log, Scrub(cfg, op.e), k);
    } else {
      SameCommand(cfg, sh, op, ch, k);
    }
  }

  lemma SameCommand(cfg: Config, sh: Shared, op: Op, ch: Choice, k: string)
    requires k in sh.ctl.commands && !op.Append? && (op.Move? ==> op.key != k)
    ensures var next := Effect(cfg, sh, op, ch).0;
            && k in next.ctl.commands && next.ctl.commands[k].state == sh.ctl.commands[k].state
            && next.log == sh.log && (k in next.skewed <==> k in sh.skewed)
  {
  }

  /** A transition that is allowed moves the command, and so does not show when the log never tells it; a refused one
      changes nothing unless it was to report an unknown outcome of a command under poll. */
  lemma MovedView(cfg: Config, sh: Shared, k: string, to: CommandState, ch: Choice)
    requires k in sh.ctl.commands
    ensures var (next, out) := Effect(cfg, sh, Move(k, to), ch);
            var v := ViewOf(sh, k);
            var from := sh.ctl.commands[k].state;
            && out.Found?
            && (Allowed(from, to) ==>
                  ViewOf(next, k) == v.(live := Some(Folded(to))) && out.cmd.Some? && out.cmd.value.state == to)
            && (!Allowed(from, to) ==>
                  out.cmd.None? && ViewOf(next, k) == if to == OutcomeUnknown && from == Polling then v.(skewed := true) else v)
  {
    hide Latest;
  }

  /** What the log tells of a command was true of it: so what it just became is news. */
  lemma MoveIsNews(sh: Shared, k: string, to: CommandState)
    requires Behind(sh) && k in sh.ctl.commands
    requires sh.ctl.commands[k].state == Requested ==> to == Acknowledged || to == Failed
    requires sh.ctl.commands[k].state == Acknowledged ==> to == OutcomeUnknown
    requires sh.ctl.commands[k].state == Polling ==> to == Completed || to == Failed || to == Cancelled
    requires Allowed(sh.ctl.commands[k].state, to)
    requires !sh.ctl.commands[k].state.OutcomeUnknown?
    ensures ViewOf(sh, k).logged != Some(to)
  {
    if k in Latest(sh.log) {
      assert ControlRuns.Reaches(Latest(sh.log)[k].state, sh.ctl.commands[k].state);
    }
  }

  /** An append of the copy a request holds, for that command. */
  lemma LoggedView(cfg: Config, sh: Shared, pc: Pc, e: Event, ch: Choice, k: string)
    requires CtlOk(cfg, sh.ctl) && Local(cfg, sh, pc) && k in sh.ctl.commands
    requires e.CommandEvent? && e.cmd.Some? && InHand(pc).Some? && e.cmd.value == LoggedOf(InHand(pc).value)
    requires InHand(pc).value.key == k
    ensures var (v, w, c) := (ViewOf(sh, k), ViewOf(Effect(cfg, sh, Append(e), ch).0, k), InHand(pc).value.state);
            w == if ch.appended then View(v.live, Some(c), v.live != Some(c))
                 else if v.live == Some(c) then v.(skewed := true) else v
  {
    ScrubHeld(cfg, sh, pc, e);
    assert FixedCommand(cfg, k, sh.ctl.commands[k]);
    LatestAppend(sh.log, e, k);
  }

  /** An append of a request's copy, if it has one, for any command. */
  lemma AppendView(cfg: Config, sh: Shared, pc: Pc, e: Event, ch: Choice, k: string)
    requires CtlOk(cfg, sh.ctl) && Local(cfg, sh, pc) && k in sh.ctl.commands
    requires e.CommandEvent? && e.cmd == LoggedOption(InHand(pc))
    ensures var (v, w) := (ViewOf(sh, k), ViewOf(Effect(cfg, sh, Append(e), ch).0, k));
            w == if InHand(pc).None? || InHand(pc).value.key != k then v
                 else if ch.appended then View(v.live, Some(InHand(pc).value.state), v.live != Some(InHand(pc).value.state))
                 else if v.live == Some(InHand(pc).value.state) then v.(skewed := true) else v
  {
    hide Effect, ViewOf, Shaped;
    if InHand(pc).Some? && InHand(pc).value.key == k {
      LoggedView(cfg, sh, pc, e, ch, k);
    } else {
      ScrubHeld(cfg, sh, pc, e);
      SameView(cfg, sh, Append(e), ch, k);
    }
  }

  // ---- each point

  lemma WalkOwesNothing(cfg: Config, seen: seq<Event>, i: nat, cont: Cont)
    ensures Owed(cfg, Walk(cfg, seen, i, cont)).None?
  {
    WalkStops(cfg, seen, i, cont);
  }

  lemma GotoOwesNothing(cfg: Config, next: Next)
    ensures Owed(cfg, Goto(cfg, next)).None?
  {
    if next.ToWalk? { WalkOwesNothing(cfg, next.seen, next.i, next.cont); }
  }

  lemma CreateTurns(cfg: Config, sh: Shared, job: Job, ch: Choice, k: string)
    requires Prepared(cfg, sh, InJob(job, Create), k)
    ensures var (next, out) := Effect(cfg, sh, JobOp(cfg, job, Create), ch);
            Turns(cfg, k, ViewOf(sh, k), InJob(job, Create), ViewOf(next, k), AfterJob(cfg, job, Create, out))
  {
    hide Walk, Global;
    GotoOwesNothing(cfg, Proceed(job));
    GotoOwesNothing(cfg, Fail(job));
    SameView(cfg, sh, JobOp(cfg, job, Create), ch, k);
  }

  lemma RotatingTurns(cfg: Config, sh: Shared, job: Job, ch: Choice, k: string)
    requires Prepared(cfg, sh, InJob(job, Rotating), k)
    ensures var (next, out) := Effect(cfg, sh, JobOp(cfg, job, Rotating), ch);
            Turns(cfg, k, ViewOf(sh, k), InJob(job, Rotating), ViewOf(next, k), AfterJob(cfg, job, Rotating, out))
  {
    hide Global, Behind;
    SameView(cfg, sh, JobOp(cfg, job, Rotating), ch, k);
    var out := Effect(cfg, sh, JobOp(cfg, job, Rotating), ch).1;
    assert JobKey(cfg, job) in sh.ctl.commands && out.cmd.Some?;
    assert JobKey(cfg, WithToken(job, out.cmd.value.fence)) == JobKey(cfg, job);
  }

  lemma LogRequestTurns(cfg: Config, sh: Shared, job: Job, cmd: Command, ch: Choice, k: string)
    requires Prepared(cfg, sh, InJob(job, LogRequest(cmd)), k)
    ensures var (next, out) := Effect(cfg, sh, JobOp(cfg, job, LogRequest(cmd)), ch);
            Turns(cfg, k, ViewOf(sh, k), InJob(job, LogRequest(cmd)), ViewOf(next, k), AfterJob(cfg, job, LogRequest(cmd), out))
  {
    hide Walk, Goto, Shaped, ViewOf, CtlOk, Behind;
    GotoOwesNothing(cfg, Fail(job));
    AppendView(cfg, sh, InJob(job, LogRequest(cmd)), CommandName(job, Requested, Some(cmd)), ch, k);
  }

  lemma LogMarkTurns(cfg: Config, sh: Shared, job: Job, to: CommandState, moved: Option<Command>, ch: Choice, k: string)
    requires Prepared(cfg, sh, InJob(job, LogMark(to, moved)), k)
    ensures var (next, out) := Effect(cfg, sh, JobOp(cfg, job, LogMark(to, moved)), ch);
            Turns(cfg, k, ViewOf(sh, k), InJob(job, LogMark(to, moved)), ViewOf(next, k),
                  AfterJob(cfg, job, LogMark(to, moved), out))
  {
    hide Walk, Goto, Shaped, ViewOf, CtlOk, Behind, MarkNotes;
    MarkNotesOweNothing(cfg, job, to);
    GotoOwesNothing(cfg, Fail(job));
    AppendView(cfg, sh, InJob(job, LogMark(to, moved)), CommandName(job, to, moved), ch, k);
  }

  lemma MarkNotesOweNothing(cfg: Config, job: Job, to: CommandState)
    ensures Owed(cfg, MarkNotes(cfg, job, to)).None?
  {
  }

  /** The copy a transition yields is under the key it was asked for. */
  lemma MarkTurns(cfg: Config, sh: Shared, job: Job, to: CommandState, ch: Choice, k: string)
    requires Prepared(cfg, sh, InJob(job, Mark(to)), k)
    ensures var (next, out) := Effect(cfg, sh, JobOp(cfg, job, Mark(to)), ch);
            Turns(cfg, k, ViewOf(sh, k), InJob(job, Mark(to)), ViewOf(next, k), AfterJob(cfg, job, Mark(to), out))
  {
    hide Effect, Latest, Global, Behind, HoldsCopy, NotCalled, JobOk;
    MoveYieldsCopy(cfg, sh, JobKey(cfg, job), to, ch);
    if JobKey(cfg, job) == k {
      MovedView(cfg, sh, k, to, ch);
      if Allowed(sh.ctl.commands[k].state, to) { MoveIsNews(sh, k, to); }
    } else {
      SameView(cfg, sh, JobOp(cfg, job, Mark(to)), ch, k);
    }
  }

  lemma UnsureTurns(cfg: Config, sh: Shared, job: Job, ch: Choice, k: string)
    requires Prepared(cfg, sh, InJob(job, Unsure), k)
    ensures var (next, out) := Effect(cfg, sh, JobOp(cfg, job, Unsure), ch);
            Turns(cfg, k, ViewOf(sh, k), InJob(job, Unsure), ViewOf(next, k), AfterJob(cfg, job, Unsure, out))
  {
    hide Effect, Latest, Walk, Global, Behind;
    if JobKey(cfg, job) == k {
      MovedView(cfg, sh, k, Acknowledged, ch);
      MoveIsNews(sh, k, Acknowledged);
    } else {
      SameView(cfg, sh, JobOp(cfg, job, Unsure), ch, k);
    }
  }

  /** Stages that neither append a command nor touch one. */
  predicate Passive(stage: JobStage) {
    stage.RetryGuard? || stage.Probe? || stage.Token? || stage.CallOut? || stage.Stopping?
  }

  lemma PassiveTurns(cfg: Config, sh: Shared, job: Job, stage: JobStage, ch: Choice, k: string)
    requires Prepared(cfg, sh, InJob(job, stage), k) && Passive(stage)
    ensures var (next, out) := Effect(cfg, sh, JobOp(cfg, job, stage), ch);
            Turns(cfg, k, ViewOf(sh, k), InJob(job, stage), ViewOf(next, k), AfterJob(cfg, job, stage, out))
  {
    hide Do, Local, Global, ViewOf;
    GotoOwesNothing(cfg, Proceed(job));
    SameView(cfg, sh, JobOp(cfg, job, stage), ch, k);
  }

  lemma JobTurns(cfg: Config, sh: Shared, job: Job, stage: JobStage, ch: Choice, k: string)
    requires Prepared(cfg, sh, InJob(job, stage), k)
    ensures var (next, out) := Effect(cfg, sh, JobOp(cfg, job, stage), ch);
            Turns(cfg, k, ViewOf(sh, k), InJob(job, stage), ViewOf(next, k), AfterJob(cfg, job, stage, out))
  {
    hide Effect, AfterJob, Prepared, Turns, ViewOf;
    match stage
    case Create => CreateTurns(cfg, sh, job, ch, k);
    case Rotating => RotatingTurns(cfg, sh, job, ch, k);
    case LogRequest(cmd) => LogRequestTurns(cfg, sh, job, cmd, ch, k);
    case LogMark(to, moved) => LogMarkTurns(cfg, sh, job, to, moved, ch, k);
    case Mark(to) => MarkTurns(cfg, sh, job, to, ch, k);
    case Unsure => UnsureTurns(cfg, sh, job, ch, k);
    case _ => PassiveTurns(cfg, sh, job, stage, ch, k);
  }

  /** A poll and its return leave the view as it is. */
  lemma PollTurns(cfg: Config, sh: Shared, task: string, check: CheckStage, ch: Choice, k: string)
    requires Prepared(cfg, sh, InCheck(task, check), k)
    requires check.Poll? || check.Unpoll?
    ensures var (next, out) := Effect(cfg, sh, CheckOp(check), ch);
            Turns(cfg, k, ViewOf(sh, k), InCheck(task, check), ViewOf(next, k), AfterCheck(cfg, task, check, out, ch.pick))
  {
    hide Effect, Latest, Global, Behind;
    if check.key == k {
      MovedView(cfg, sh, k, CheckOp(check).to, ch);
    } else {
      SameView(cfg, sh, CheckOp(check), ch, k);
    }
  }

  lemma SettleTurns(cfg: Config, sh: Shared, task: string, key: string, to: CommandState, ch: Choice, k: string)
    requires Prepared(cfg, sh, InCheck(task, Settle(key, to)), k)
    ensures var (next, out) := Effect(cfg, sh, CheckOp(Settle(key, to)), ch);
            Turns(cfg, k, ViewOf(sh, k), InCheck(task, Settle(key, to)), ViewOf(next, k),
                  AfterCheck(cfg, task, Settle(key, to), out, ch.pick))
  {
    hide Effect, Latest, Global, Behind;
    MoveYieldsCopy(cfg, sh, key, to, ch);
    if key == k {
      MovedView(cfg, sh, k, to, ch);
      MoveIsNews(sh, k, to);
    } else {
      SameView(cfg, sh, CheckOp(Settle(key, to)), ch, k);
    }
  }

  lemma LogSettleTurns(cfg: Config, sh: Shared, task: string, to: CommandState, moved: Option<Command>, ch: Choice, k: string)
    requires Prepared(cfg, sh, InCheck(task, LogSettle(to, moved)), k)
    ensures var (next, out) := Effect(cfg, sh, CheckOp(LogSettle(to, moved)), ch);
            Turns(cfg, k, ViewOf(sh, k), InCheck(task, LogSettle(to, moved)), ViewOf(next, k),
                  AfterCheck(cfg, task, LogSettle(to, moved), out, ch.pick))
  {
    hide ViewOf, CtlOk, Behind;
    AppendView(cfg, sh, InCheck(task, LogSettle(to, moved)), CommandEvent(ByCommand, Dispatch, to, LoggedOption(moved)), ch, k);
  }

  lemma CheckTurns(cfg: Config, sh: Shared, task: string, check: CheckStage, ch: Choice, k: string)
    requires Prepared(cfg, sh, InCheck(task, check), k)
    ensures var (next, out) := Effect(cfg, sh, CheckOp(check), ch);
            Turns(cfg, k, ViewOf(sh, k), InCheck(task, check), ViewOf(next, k), AfterCheck(cfg, task, check, out, ch.pick))
  {
    hide Effect, ViewOf, Global, Local, OwnedKey, Behind;
    match check
    case LogSettle(to, moved) => LogSettleTurns(cfg, sh, task, to, moved, ch, k);
    case Settle(key, to) => SettleTurns(cfg, sh, task, key, to, ch, k);
    case Poll(_) => PollTurns(cfg, sh, task, check, ch, k);
    case Unpoll(_) => PollTurns(cfg, sh, task, check, ch, k);
    case _ => SameView(cfg, sh, CheckOp(check), ch, k);
  }

  lemma ReconcileTurns(cfg: Config, sh: Shared, reconcile: ReconcileStage, ch: Choice, k: string)
    requires Prepared(cfg, sh, InReconcile(reconcile), k)
    ensures var (next, out) := Effect(cfg, sh, ReconcileOp(reconcile), ch);
            Turns(cfg, k, ViewOf(sh, k), InReconcile(reconcile), ViewOf(next, k), AfterReconcile(cfg, reconcile, out))
  {
    hide Effect, Latest, Global, Local, OwnedKey, Behind;
    if reconcile.Resolve? && reconcile.key == k {
      MovedView(cfg, sh, k, Reconciled, ch);
    } else {
      SameView(cfg, sh, ReconcileOp(reconcile), ch, k);
    }
  }

  lemma QuietTurns(cfg: Config, sh: Shared, pc: Pc, ch: Choice, k: string)
    requires Prepared(cfg, sh, pc, k)
    requires pc.Done? || pc.Notes? || pc.InPass? || pc.InDecision?
    ensures var (next, pc') := Act(cfg, sh, pc, ch);
            Turns(cfg, k, ViewOf(sh, k), pc, ViewOf(next, k), pc')
  {
    hide After, JobOp, Global;
    var op := OpOf(cfg, pc, ch.now);
    var out := Effect(cfg, sh, op, ch).1;
    if pc.Notes? { assert pc.events != [] ==> pc.events[0] in pc.events; }
    SameView(cfg, sh, op, ch, k);
    QuietOwesNothing(cfg, pc, out, ch);
  }

  lemma QuietOwesNothing(cfg: Config, pc: Pc, out: Outcome, ch: Choice)
    requires pc.Done? || pc.Notes? || pc.InPass? || pc.InDecision?
    ensures Owed(cfg, After(cfg, pc, out, ch)).None? || Owed(cfg, After(cfg, pc, out, ch)) == Owed(cfg, pc)
  {
    match pc
    case Notes(events, next, abort) =>
      GotoOwesNothing(cfg, next);
      GotoOwesNothing(cfg, abort);
    case InPass(cont, pass) => if out.Events? { WalkOwesNothing(cfg, out.events, 0, cont); }
    case InDecision(d, grant, decide) => DecideOwesNothing(cfg, d, grant, decide, out, ch.now);
    case Done =>
  }

  lemma DecideOwesNothing(cfg: Config, d: Digest, grant: bool, decide: DecideStage, out: Outcome, now: int)
    ensures Owed(cfg, AfterDecide(d, grant, decide, out, now)).None?
  {
  }

  lemma PointTurns(cfg: Config, sh: Shared, pc: Pc, ch: Choice, k: string)
    requires Prepared(cfg, sh, pc, k)
    ensures var (next, pc') := Act(cfg, sh, pc, ch);
            Turns(cfg, k, ViewOf(sh, k), pc, ViewOf(next, k), pc')
  {
    hide Do, Effect, AfterJob, AfterReconcile, AfterCheck, Local, Turns, ViewOf, Prepared;
    match pc
    case InJob(job, stage) => JobTurns(cfg, sh, job, stage, ch, k);
    case InCheck(task, check) => CheckTurns(cfg, sh, task, check, ch, k);
    case InReconcile(reconcile) => ReconcileTurns(cfg, sh, reconcile, ch, k);
    case _ => QuietTurns(cfg, sh, pc, ch, k);
  }

  // ---- what every request keeps about itself

  lemma EffectKeepsOwn(cfg: Config, sh: Shared, op: Op, ch: Choice, other: Pc)
    requires Own(cfg, sh, other) && Local(cfg, sh, other)
    ensures Own(cfg, Effect(cfg, sh, op, ch).0, other)
  {
    var next := Effect(cfg, sh, op, ch).0;
    if Owed(cfg, other).Some? { EffectAdvances(cfg, sh, op, ch, Owed(cfg, other).value); }
    if other.InJob? && other.stage.Rotating? { EffectAdvances(cfg, sh, op, ch, JobKey(cfg, other.job)); }
  }

  lemma CreateLandsOwn(cfg: Config, sh: Shared, job: Job, ch: Choice)
    ensures var (next, out) := Effect(cfg, sh, JobOp(cfg, job, Create), ch);
            Own(cfg, next, AfterJob(cfg, job, Create, out))
  {
    GotoOwesNothing(cfg, Proceed(job));
    GotoOwesNothing(cfg, Fail(job));
    GotoHasNoStage(cfg, Proceed(job));
    GotoHasNoStage(cfg, Fail(job));
  }

  /** Not a point on a command's way from creation to its logged outcome. */
  predicate NoStage(pc: Pc) {
    pc.InJob? ==> !pc.stage.Rotating? && !pc.stage.LogMark?
  }

  lemma WalkHasNoStage(cfg: Config, seen: seq<Event>, i: nat, cont: Cont)
    ensures NoStage(Walk(cfg, seen, i, cont))
  {
    WalkStops(cfg, seen, i, cont);
  }

  lemma GotoHasNoStage(cfg: Config, next: Next)
    ensures NoStage(Goto(cfg, next))
  {
    if next.ToWalk? { WalkHasNoStage(cfg, next.seen, next.i, next.cont); }
  }

  lemma MarkLandsOwn(cfg: Config, sh: Shared, job: Job, to: CommandState, ch: Choice)
    requires Global(cfg, sh) && Own(cfg, sh, InJob(job, Mark(to))) && Local(cfg, sh, InJob(job, Mark(to)))
    ensures var (next, out) := Effect(cfg, sh, JobOp(cfg, job, Mark(to)), ch);
            Own(cfg, next, AfterJob(cfg, job, Mark(to), out))
  {
    hide Do, Effect, MarkNotes, Global, Shaped, NewCommand;
    MoveYieldsCopy(cfg, sh, JobKey(cfg, job), to, ch);
    EffectAdvances(cfg, sh, JobOp(cfg, job, Mark(to)), ch, JobKey(cfg, job));
  }

  lemma RotatingLandsOwn(cfg: Config, sh: Shared, job: Job, ch: Choice)
    requires Own(cfg, sh, InJob(job, Rotating))
    ensures var (next, out) := Effect(cfg, sh, JobOp(cfg, job, Rotating), ch);
            Own(cfg, next, AfterJob(cfg, job, Rotating, out))
  {
    GotoOwesNothing(cfg, Fail(job));
    GotoHasNoStage(cfg, Fail(job));
    var out := Effect(cfg, sh, JobOp(cfg, job, Rotating), ch).1;
    if out.cmd.Some? { assert JobKey(cfg, WithToken(job, out.cmd.value.fence)) == JobKey(cfg, job); }
  }

  lemma OtherStagesLandOwn(cfg: Config, sh: Shared, next: Shared, job: Job, stage: JobStage, out: Outcome)
    requires !stage.Create? && !stage.Rotating? && !stage.Mark?
    requires Local(cfg, sh, InJob(job, stage)) && next.ctl.commands.Keys >= sh.ctl.commands.Keys
    ensures Own(cfg, next, AfterJob(cfg, job, stage, out))
  {
    hide Goto, NotCalled, Shaped, Walk;
    GotoOwesNothing(cfg, Proceed(job));
    GotoOwesNothing(cfg, Fail(job));
    GotoHasNoStage(cfg, Proceed(job));
    GotoHasNoStage(cfg, Fail(job));
    if stage.LogMark? { MarkNotesOweNothing(cfg, job, stage.logTo); }
  }

  lemma KeysStay(cfg: Config, sh: Shared, op: Op, ch: Choice)
    ensures sh.ctl.commands.Keys <= Effect(cfg, sh, op, ch).0.ctl.commands.Keys
  {
  }

  lemma JobLandsOwn(cfg: Config, sh: Shared, job: Job, stage: JobStage, ch: Choice)
    requires Global(cfg, sh) && Local(cfg, sh, InJob(job, stage)) && Own(cfg, sh, InJob(job, stage))
    ensures var (next, out) := Effect(cfg, sh, JobOp(cfg, job, stage), ch);
            Own(cfg, next, AfterJob(cfg, job, stage, out))
  {
    match stage
    case Create => CreateLandsOwn(cfg, sh, job, ch);
    case Rotating => RotatingLandsOwn(cfg, sh, job, ch);
    case Mark(to) => MarkLandsOwn(cfg, sh, job, to, ch);
    case _ =>
      var (next, out) := Effect(cfg, sh, JobOp(cfg, job, stage), ch);
      KeysStay(cfg, sh, JobOp(cfg, job, stage), ch);
      OtherStagesLandOwn(cfg, sh, next, job, stage, out);
  }

  lemma CheckLandsOwn(cfg: Config, sh: Shared, task: string, check: CheckStage, ch: Choice)
    requires Global(cfg, sh)
    ensures var (next, out) := Effect(cfg, sh, CheckOp(check), ch);
            Own(cfg, next, AfterCheck(cfg, task, check, out, ch.pick))
  {
    hide Do, Effect, Global;
    if check.Settle? { MoveYieldsCopy(cfg, sh, check.key, check.to, ch); }
  }

  lemma OthersLandOwn(cfg: Config, next: Shared, pc: Pc, out: Outcome, ch: Choice)
    requires pc.Done? || pc.Notes? || pc.InPass? || pc.InDecision? || pc.InReconcile?
    ensures Own(cfg, next, After(cfg, pc, out, ch))
  {
    match pc
    case Notes(events, n, abort) =>
      GotoOwesNothing(cfg, n);
      GotoOwesNothing(cfg, abort);
      GotoHasNoStage(cfg, n);
      GotoHasNoStage(cfg, abort);
    case InPass(cont, pass) =>
      if out.Events? {
        WalkOwesNothing(cfg, out.events, 0, cont);
        WalkHasNoStage(cfg, out.events, 0, cont);
      }
    case InDecision(d, grant, decide) => DecideLandsOwn(cfg, next, d, grant, decide, out, ch.now);
    case InReconcile(reconcile) => ReconcileLandsOwn(cfg, next, reconcile, out);
    case Done =>
  }

  lemma DecideLandsOwn(cfg: Config, next: Shared, d: Digest, grant: bool, decide: DecideStage, out: Outcome, now: int)
    ensures Own(cfg, next, AfterDecide(d, grant, decide, out, now))
  {
  }

  lemma ReconcileLandsOwn(cfg: Config, next: Shared, reconcile: ReconcileStage, out: Outcome)
    ensures Own(cfg, next, AfterReconcile(cfg, reconcile, out))
  {
  }

  lemma PointLandsOwn(cfg: Config, sh: Shared, pc: Pc, ch: Choice)
    requires Global(cfg, sh) && Local(cfg, sh, pc) && Own(cfg, sh, pc)
    ensures var (next, pc') := Act(cfg, sh, pc, ch);
            Own(cfg, next, pc')
  {
    match pc
    case InJob(job, stage) => JobLandsOwn(cfg, sh, job, stage, ch);
    case InCheck(task, check) => CheckLandsOwn(cfg, sh, task, check, ch);
    case _ =>
      var (next, out) := Effect(cfg, sh, OpOf(cfg, pc, ch.now), ch);
      OthersLandOwn(cfg, next, pc, out, ch);
  }

  // ---- one command, all requests

  /** While another request is sending or polling the command, only an earlier acknowledgement can be owed. */
  lemma OwnerAndOwing(cfg: Config, sh: Shared, k: string, a: Pc, b: Pc)
    requires Local(cfg, sh, a) && Local(cfg, sh, b) && Apart(cfg, a, b)
    requires OwnedKey(cfg, a) == Some(k) && Owed(cfg, b) == Some(k) && Fits(ViewOf(sh, k), b)
    ensures a.InCheck? && b.InJob? && !b.stage.Rotating? && !b.stage.LogRequest?
    ensures b.stage.LogMark? ==> b.stage.logTo == Acknowledged
  {
  }

  /** How a turn leaves another request that owes an event for the command. */
  ghost predicate LeavesOther(cfg: Config, k: string, w: View, pc': Pc, other: Pc) {
    && Fits(w, other)
    && (Current(w, other) ==> !Told(w))
    && (Owed(cfg, pc') == Some(k) ==> Paired(w, pc', other) && Paired(w, other, pc'))
  }

  lemma TurnLeavesOther(cfg: Config, sh: Shared, k: string, pc: Pc, w: View, pc': Pc, other: Pc)
    requires Local(cfg, sh, pc) && Local(cfg, sh, other) && Apart(cfg, pc, other)
    requires Owed(cfg, other) == Some(k) && Fits(ViewOf(sh, k), other)
    requires Current(ViewOf(sh, k), other) ==> !Told(ViewOf(sh, k))
    requires Owed(cfg, pc) == Some(k) ==>
               Fits(ViewOf(sh, k), pc) && Paired(ViewOf(sh, k), pc, other) && Paired(ViewOf(sh, k), other, pc)
    requires Turns(cfg, k, ViewOf(sh, k), pc, w, pc')
    ensures LeavesOther(cfg, k, w, pc', other)
  {
    hide ViewOf, Owning, HoldsCopy, NotCalled, JobOk;
    var v := ViewOf(sh, k);
    if Starts(cfg, k, v, pc, w, pc') { StartLeavesOther(cfg, sh, k, pc, w, pc', other); }
  }

  lemma StartLeavesOther(cfg: Config, sh: Shared, k: string, pc: Pc, w: View, pc': Pc, other: Pc)
    requires Local(cfg, sh, pc) && Local(cfg, sh, other) && Apart(cfg, pc, other)
    requires Owed(cfg, other) == Some(k) && Fits(ViewOf(sh, k), other)
    requires Starts(cfg, k, ViewOf(sh, k), pc, w, pc')
    ensures LeavesOther(cfg, k, w, pc', other)
  {
    hide ViewOf, Owning, HoldsCopy, NotCalled, JobOk;
    OwnerAndOwing(cfg, sh, k, pc, other);
  }

  lemma OthersAreLeft(cfg: Config, s: State, r: nat, w: View, pc': Pc, k: string)
    requires Inv(cfg, s) && r in s.reqs && KeyInv(cfg, s, k) && k in s.sh.ctl.commands
    requires Turns(cfg, k, ViewOf(s.sh, k), s.reqs[r], w, pc')
    ensures forall q | q in s.reqs && q != r && Owed(cfg, s.reqs[q]) == Some(k) :: LeavesOther(cfg, k, w, pc', s.reqs[q])
  {
    hide Turns, Global, Local;
    forall q | q in s.reqs && q != r && Owed(cfg, s.reqs[q]) == Some(k) ensures LeavesOther(cfg, k, w, pc', s.reqs[q]) {
      assert Local(cfg, s.sh, s.reqs[r]) && Local(cfg, s.sh, s.reqs[q]) && Apart(cfg, s.reqs[r], s.reqs[q]);
      TurnLeavesOther(cfg, s.sh, k, s.reqs[r], w, pc', s.reqs[q]);
    }
  }

  /** What the mover itself is left with. */
  ghost predicate LeavesSelf(cfg: Config, k: string, w: View, pc': Pc) {
    Owed(cfg, pc') == Some(k) ==> Fits(w, pc') && (Current(w, pc') ==> !Told(w))
  }

  lemma SelfIsLeft(cfg: Config, k: string, v: View, pc: Pc, w: View, pc': Pc)
    requires Turns(cfg, k, v, pc, w, pc')
    requires Owed(cfg, pc) == Some(k) && Current(v, pc) ==> !Told(v)
    ensures LeavesSelf(cfg, k, w, pc')
    ensures w.live == v.live || Owed(cfg, pc') == Some(k)
  {
  }

  /** No current news is owed to the log for command `k`. */
  predicate NoNews(cfg: Config, reqs: map<nat, Pc>, v: View, k: string) {
    forall r | r in reqs && Owed(cfg, reqs[r]) == Some(k) :: !Current(v, reqs[r])
  }

  /** When no news is owed after the turn, the log tells the command exactly when its last report did not go wrong. */
  lemma TurnSettles(cfg: Config, s: State, r: nat, w: View, pc': Pc, k: string)
    requires r in s.reqs && KeyInv(cfg, s, k) && k in s.sh.ctl.commands
    requires Turns(cfg, k, ViewOf(s.sh, k), s.reqs[r], w, pc')
    requires NoNews(cfg, s.reqs[r := pc'], w, k)
    ensures Told(w) <==> !w.skewed
  {
    hide ViewOf, OwnedKey, Fits;
    var v, pc, reqs := ViewOf(s.sh, k), s.reqs[r], s.reqs[r := pc'];
    assert pc' == reqs[r];
    forall q | q in s.reqs && q != r && Owed(cfg, s.reqs[q]) == Some(k) ensures !Current(w, s.reqs[q]) {
      assert s.reqs[q] == reqs[q];
    }
    if Stays(cfg, k, v, pc, w, pc') || (Drops(cfg, k, v, pc, w, pc') && !Current(v, pc)) {
      assert forall q | q in s.reqs && Owed(cfg, s.reqs[q]) == Some(k) :: !Current(v, s.reqs[q]);
    }
  }

  /** The invariant of one command, put together after request `r` moved on. */
  lemma Assemble(cfg: Config, s: State, r: nat, next: Shared, pc': Pc, k: string)
    requires r in s.reqs && KeyInv(cfg, s, k) && k in s.sh.ctl.commands
    requires LeavesSelf(cfg, k, ViewOf(next, k), pc')
    requires forall q | q in s.reqs && q != r && Owed(cfg, s.reqs[q]) == Some(k) ::
               LeavesOther(cfg, k, ViewOf(next, k), pc', s.reqs[q])
    requires ViewOf(next, k).live == ViewOf(s.sh, k).live || Owed(cfg, pc') == Some(k)
    requires NoNews(cfg, s.reqs[r := pc'], ViewOf(next, k), k) ==> (Told(ViewOf(next, k)) <==> !ViewOf(next, k).skewed)
    ensures KeyInv(cfg, State(next, s.reqs[r := pc']), k)
  {
    hide ViewOf, Fits;
  }

  lemma KeyAdvances(cfg: Config, s: State, r: nat, ch: Choice, k: string)
    requires GoodConfig(cfg) && Inv(cfg, s) && BehindInv(s) && AgreeInv(cfg, s) && r in s.reqs && k in s.sh.ctl.commands
    ensures KeyInv(cfg, Do(cfg, s, Advance(r, ch)), k)
  {
    hide Effect, After, OpOf, Reboot, Local, Global, ViewOf, Turns, Current, Fits;
    var pc := s.reqs[r];
    var (next, pc') := Act(cfg, s.sh, pc, ch);
    assert Do(cfg, s, Advance(r, ch)) == State(next, s.reqs[r := pc']);
    assert KeyInv(cfg, s, k) && Own(cfg, s.sh, pc) && Local(cfg, s.sh, pc);
    var v, w := ViewOf(s.sh, k), ViewOf(next, k);
    PointTurns(cfg, s.sh, pc, ch, k);
    OthersAreLeft(cfg, s, r, w, pc', k);
    SelfIsLeft(cfg, k, v, pc, w, pc');
    if NoNews(cfg, s.reqs[r := pc'], w, k) { TurnSettles(cfg, s, r, w, pc', k); }
    Assemble(cfg, s, r, next, pc', k);
  }

  predicate NewlyOwed(v: View, pc: Pc) {
    Fits(v, pc) && Current(v, pc) && !Told(v)
  }

  /** A command that is new belongs to the request that created it. */
  lemma NewKey(cfg: Config, sh: Shared, pc: Pc, ch: Choice, k: string)
    requires Global(cfg, sh) && Local(cfg, sh, pc) && k !in sh.ctl.commands
    ensures var (next, pc') := Act(cfg, sh, pc, ch);
            k in next.ctl.commands ==> Owed(cfg, pc') == Some(k) && NewlyOwed(ViewOf(next, k), pc')
  {
    LatestIsKnown(cfg, sh);
    if pc.InJob? && pc.stage.Create? { NewKeyFits(cfg, sh, pc.job, ch, k); } else { NoNewKey(cfg, sh, pc, ch, k); }
  }

  lemma NewKeyFits(cfg: Config, sh: Shared, job: Job, ch: Choice, k: string)
    requires k !in sh.ctl.commands && k !in Latest(sh.log)
    ensures var (next, out) := Effect(cfg, sh, JobOp(cfg, job, Create), ch);
            var pc' := AfterJob(cfg, job, Create, out);
            k in next.ctl.commands ==> Owed(cfg, pc') == Some(k) && NewlyOwed(ViewOf(next, k), pc')
  {
    hide Latest, Goto;
  }

  lemma NoNewKey(cfg: Config, sh: Shared, pc: Pc, ch: Choice, k: string)
    requires k !in sh.ctl.commands && !(pc.InJob? && pc.stage.Create?)
    ensures k !in Effect(cfg, sh, OpOf(cfg, pc, ch.now), ch).0.ctl.commands
  {
    hide Effect;
    OnlyCreationCreates(cfg, sh, OpOf(cfg, pc, ch.now), ch, k);
  }

  lemma OnlyCreationCreates(cfg: Config, sh: Shared, op: Op, ch: Choice, k: string)
    requires k !in sh.ctl.commands && !op.CreateCommand?
    ensures k !in Effect(cfg, sh, op, ch).0.ctl.commands
  {
    hide Scrub, AfterReport, AfterRefusal;
  }

  lemma KeyAppears(cfg: Config, s: State, r: nat, ch: Choice, k: string)
    requires GoodConfig(cfg) && Inv(cfg, s) && AgreeInv(cfg, s) && r in s.reqs && k !in s.sh.ctl.commands
    ensures KeyInv(cfg, Do(cfg, s, Advance(r, ch)), k)
  {
    hide Effect, OpOf, After, Global, Local, ViewOf, Reboot;
    var (next, pc') := Act(cfg, s.sh, s.reqs[r], ch);
    var t := State(next, s.reqs[r := pc']);
    assert Do(cfg, s, Advance(r, ch)) == t;
    NewKey(cfg, s.sh, s.reqs[r], ch, k);
    if k in next.ctl.commands {
      forall q | q in s.reqs && q != r ensures Owed(cfg, s.reqs[q]) != Some(k) { assert Own(cfg, s.sh, s.reqs[q]); }
      assert Owed(cfg, t.reqs[r]) == Some(k) && Current(ViewOf(next, k), t.reqs[r]);
    }
  }

  lemma AdvanceKeepsAgree(cfg: Config, s: State, r: nat, ch: Choice)
    requires GoodConfig(cfg) && Inv(cfg, s) && BehindInv(s) && AgreeInv(cfg, s) && r in s.reqs
    ensures AgreeInv(cfg, Do(cfg, s, Advance(r, ch)))
  {
    hide Effect, After, OpOf, Reboot, Global, KeyInv;
    var t := Do(cfg, s, Advance(r, ch));
    var (next, pc') := Act(cfg, s.sh, s.reqs[r], ch);
    assert t == State(next, s.reqs[r := pc']);
    PointLandsOwn(cfg, s.sh, s.reqs[r], ch);
    forall q | q in t.reqs ensures Own(cfg, t.sh, t.reqs[q]) {
      if q != r { EffectKeepsOwn(cfg, s.sh, OpOf(cfg, s.reqs[r], ch.now), ch, s.reqs[q]); }
    }
    forall k ensures KeyInv(cfg, t, k) {
      if k in s.sh.ctl.commands { KeyAdvances(cfg, s, r, ch, k); } else { KeyAppears(cfg, s, r, ch, k); }
    }
  }

  // ---- runs

  lemma BeginKeepsAgree(cfg: Config, s: State, r: nat, request: Request)
    requires AgreeInv(cfg, s)
    ensures AgreeInv(cfg, Do(cfg, s, Begin(r, request)))
  {
    hide Act, Reboot, ViewOf;
    var t := Do(cfg, s, Begin(r, request));
    if t != s {
      assert t == State(s.sh, s.reqs[r := Entry(request)]);
      assert Own(cfg, s.sh, Entry(request)) && Owed(cfg, Entry(request)).None?;
      forall k ensures KeyInv(cfg, t, k) { IdleIsReplaced(cfg, s, r, request, k); }
    }
  }

  lemma IdleIsReplaced(cfg: Config, s: State, r: nat, request: Request, k: string)
    requires KeyInv(cfg, s, k) && Idle(s, r)
    ensures KeyInv(cfg, State(s.sh, s.reqs[r := Entry(request)]), k)
  {
    hide ViewOf, Fits;
    var t := State(s.sh, s.reqs[r := Entry(request)]);
    assert Owed(cfg, Entry(request)).None?;
    var v := ViewOf(s.sh, k);
    if forall q | q in t.reqs && Owed(cfg, t.reqs[q]) == Some(k) :: !Current(v, t.reqs[q]) {
      forall q | q in s.reqs && Owed(cfg, s.reqs[q]) == Some(k) ensures !Current(v, s.reqs[q]) {
        assert t.reqs[q] == s.reqs[q];
      }
    }
  }

  /** A logged state is never one that is folded away. */
  ghost predicate LoggedStates(log: seq<Event>) {
    forall k | k in Latest(log) :: Latest(log)[k].state != Polling && Latest(log)[k].state != Reconciled
  }

  lemma StatesAppend(log: seq<Event>, e: Event)
    requires LoggedStates(log)
    requires e.CommandEvent? && e.cmd.Some? ==> e.cmd.value.state != Polling && e.cmd.value.state != Reconciled
    ensures LoggedStates(log + [e])
  {
    forall k | k in Latest(log + [e])
      ensures Latest(log + [e])[k].state != Polling && Latest(log + [e])[k].state != Reconciled
    {
      assert (log + [e])[..|log|] == log;
    }
  }

  /** The copies that reach the log. */
  predicate CopyState(pc: Pc) {
    InHand(pc).Some? ==> InHand(pc).value.state != Polling && InHand(pc).value.state != Reconciled
  }

  lemma AdvanceKeepsStates(cfg: Config, s: State, r: nat, ch: Choice)
    requires GoodConfig(cfg) && Inv(cfg, s) && r in s.reqs && LoggedStates(s.sh.log) && CopyState(s.reqs[r])
    ensures LoggedStates(Do(cfg, s, Advance(r, ch)).sh.log)
  {
    hide Exec, After, JobOp, CtlOk;
    var pc := s.reqs[r];
    var op := OpOf(cfg, pc, ch.now);
    OpIsBacked(cfg, s.sh, pc, ch.now);
    if op.Append? && ch.appended {
      ScrubHeld(cfg, s.sh, pc, op.e);
      StatesAppend(s.sh.log, Scrub(cfg, op.e));
    }
  }

  lemma PointLandsCopyState(cfg: Config, sh: Shared, pc: Pc, ch: Choice)
    requires Global(cfg, sh) && Local(cfg, sh, pc)
    ensures CopyState(Act(cfg, sh, pc, ch).1)
  {
    hide JobOp, AfterPass, Goto, Global, RequestOnce;
    match pc
    case InJob(job, stage) => JobLandsCopyState(cfg, sh, job, stage, ch);
    case InCheck(task, check) => if check.Settle? { MoveYieldsCopy(cfg, sh, check.key, check.to, ch); }
    case _ => OthersHoldNothing(cfg, pc, Effect(cfg, sh, OpOf(cfg, pc, ch.now), ch).1, ch);
  }

  lemma JobLandsCopyState(cfg: Config, sh: Shared, job: Job, stage: JobStage, ch: Choice)
    requires Global(cfg, sh) && Local(cfg, sh, InJob(job, stage))
    ensures var (next, out) := Effect(cfg, sh, JobOp(cfg, job, stage), ch);
            CopyState(AfterJob(cfg, job, stage, out))
  {
    hide Global, Shaped;
    var (next, out) := Effect(cfg, sh, JobOp(cfg, job, stage), ch);
    match stage
    case Create =>
      GotoHoldsNothing(cfg, Proceed(job));
      GotoHoldsNothing(cfg, Fail(job));
    case Rotating => GotoHoldsNothing(cfg, Fail(job));
    case Mark(to) => MoveYieldsCopy(cfg, sh, JobKey(cfg, job), to, ch);
    case _ => JobHoldsNothing(cfg, job, stage, out);
  }

  ghost predicate StateInv(s: State) {
    LoggedStates(s.sh.log) && forall r | r in s.reqs :: CopyState(s.reqs[r])
  }

  lemma StepKeepsStates(cfg: Config, s: State, step: Step)
    requires GoodConfig(cfg) && Inv(cfg, s) && StateInv(s)
    ensures StateInv(Do(cfg, s, step))
  {
    hide Act, Latest, Global, Local, OwnedKey;
    match step
    case Begin(r, request) => if Do(cfg, s, step) != s { assert CopyState(Entry(request)); }
    case Advance(r, ch) =>
      if r in s.reqs {
        AdvanceKeepsStates(cfg, s, r, ch);
        PointLandsCopyState(cfg, s.sh, s.reqs[r], ch);
      }
    case Restart(appended) => StatesAppend(s.sh.log, Note(DispatchInterrupted, ""));
  }

  lemma RestartAgrees(cfg: Config, sh: Shared, appended: bool, k: string)
    requires GoodConfig(cfg) && Global(cfg, sh) && LoggedStates(sh.log)
    ensures var next := Reboot(cfg, sh, appended);
            k in next.ctl.commands ==> Told(ViewOf(next, k)) && !ViewOf(next, k).skewed
  {
    RecoveryNeverFails(cfg, sh);
    LatestAppend(sh.log, Note(DispatchInterrupted, ""), k);
  }

  lemma StepKeepsAgree(cfg: Config, s: State, step: Step)
    requires GoodConfig(cfg) && Inv(cfg, s) && BehindInv(s) && AgreeInv(cfg, s) && StateInv(s)
    ensures AgreeInv(cfg, Do(cfg, s, step))
  {
    hide Act, Latest, Reboot, Global, Local;
    match step
    case Begin(r, request) => BeginKeepsAgree(cfg, s, r, request);
    case Advance(r, ch) => if r in s.reqs { AdvanceKeepsAgree(cfg, s, r, ch); }
    case Restart(appended) =>
      forall k ensures KeyInv(cfg, Do(cfg, s, step), k) { RestartAgrees(cfg, s.sh, appended, k); }
  }

  lemma {:induction false} AgreeAlways(cfg: Config, steps: seq<Step>)
    requires GoodConfig(cfg)
    ensures Inv(cfg, Exec(cfg, steps)) && BehindInv(Exec(cfg, steps))
    ensures AgreeInv(cfg, Exec(cfg, steps)) && StateInv(Exec(cfg, steps))
    decreases |steps|
  {
    hide Do, Inv, BehindInv, Global, Local;
    BehindAlways(cfg, steps);
    if steps == [] {
      assert Own(cfg, Init(cfg).sh, Init(cfg).reqs[0]);
    } else {
      AgreeAlways(cfg, steps[..|steps| - 1]);
      StepKeepsAgree(cfg, Exec(cfg, steps[..|steps| - 1]), steps[|steps| - 1]);
      StepKeepsStates(cfg, Exec(cfg, steps[..|steps| - 1]), steps[|steps| - 1]);
    }
  }

  // ---- what follows

  /** At every moment, for every command no request is about to report: a restart would bring it back in its state, up to
      polling and reconciliation, exactly when its last report did not go wrong. */
  lemma RecoveryIsExact(cfg: Config, steps: seq<Step>, k: string)
    requires GoodConfig(cfg)
    requires var s := Exec(cfg, steps); k in s.sh.ctl.commands && NobodyOwes(cfg, s, k)
    ensures var (sh, back) := (Exec(cfg, steps).sh, Recover(cfg, Exec(cfg, steps).sh.log));
            k !in sh.skewed <==>
            k in back.commands && back.commands[k].state == Folded(sh.ctl.commands[k].state)
  {
    hide Do, Global, Local;
    AgreeAlways(cfg, steps);
    var s := Exec(cfg, steps);
    assert KeyInv(cfg, s, k);
    RecoveryNeverFails(cfg, s.sh);
  }

  /** A state the log can hold comes back as it is: only polling and reconciliation are folded away. */
  lemma FoldedStates(cfg: Config, steps: seq<Step>, k: string)
    requires GoodConfig(cfg) && k in Recover(cfg, Exec(cfg, steps).sh.log).commands
    ensures Recover(cfg, Exec(cfg, steps).sh.log).commands[k].state != Polling
    ensures Recover(cfg, Exec(cfg, steps).sh.log).commands[k].state != Reconciled
  {
    hide Do, Local;
    AgreeAlways(cfg, steps);
    RecoveryNeverFails(cfg, Exec(cfg, steps).sh);
  }
}
