/** What a request does is what is due on what it met: in every interleaving it does exactly that, in that order, until it is
    done or an append fails. */
module DutyLaw {
  import opened Model
  import opened Control
  import opened Actions
  import opened Protocol
  import opened Duties

  // ---- what a request has before it

  function NextAhead(cfg: Config, next: Next): seq<Deed> {
    match next
    case ToSchedule(cont) => [Schedules(cont)]
    case ToCreate(job) => [Creates(NewCommand(cfg, job))]
    case ToResolve(key, _) => [Moves(key, Reconciled)]
    case ToSurvey(applied) => [Surveys(applied)]
    case _ => Handing(next)
  }

  function NotesAhead(cfg: Config, events: seq<Event>): seq<Deed> {
    if events == [] then [] else [Logs(LineOf(Scrub(cfg, events[0])))] + NotesAhead(cfg, events[1..])
  }

  function JobAhead(cfg: Config, job: Job, stage: JobStage): seq<Deed> {
    var key, task := JobKey(cfg, job), JobTask(cfg, job);
    match stage
    case RetryGuard => [LooksAll]
    case Probe => [Looks(key)]
    case Token => [Checks(task, JobToken(job))]
    case Create => [Creates(NewCommand(cfg, job))]
    case Rotating => [Fences(key, task)] + RequestDue(cfg, job)
    case LogRequest(_) => RequestDue(cfg, job)
    case CallOut => [Calls(Call(JobKind(job), key, task))]
    case Stopping => [Stops] + Marks(cfg, job, Acknowledged)
    case Unsure => [Moves(key, Acknowledged)] + Marks(cfg, job, OutcomeUnknown)
    case Mark(to) => Marks(cfg, job, to)
    case LogMark(to, _) => Reports(cfg, job, to)
  }

  function CheckAhead(cfg: Config, task: string, check: CheckStage): seq<Deed> {
    match check
    case Picking => [LooksAll]
    case Poll(key) => [Moves(key, Polling)]
    case Polled(_) => [Polls]
    case Unpoll(key) => [Moves(key, Acknowledged)]
    case Settle(key, to) => [Moves(key, to)] + Settled(cfg, task, to)
    case LogSettle(to, _) => Settled(cfg, task, to)
    case CheckAll(i, _) => Counting(cfg, i)
  }

  function DecideAhead(cfg: Config, d: Digest, grant: bool, decide: DecideStage): seq<Deed> {
    match decide
    case ReadRequest(_) => [Reads]
    case Answered(_) => []
    case Claiming(_) => [Claims(d)]
    case LogDecision(task) => DecisionDue(cfg, d, grant, task)
    case Releasing => [Releases(d)]
  }

  function ReconcileAhead(reconcile: ReconcileStage): seq<Deed> {
    match reconcile
    case ProbeUnknown(key, _) => [Looks(key)]
    case Resolve(key, _) => [Moves(key, Reconciled)]
    case Survey(applied) => [Surveys(applied)]
    case SurveyLog => [Reads]
  }

  ghost function PassAhead(cfg: Config, cont: Cont, pass: PassStage): seq<Deed> {
    match pass
    case Reading => [Schedules(cont)]
    case Routing(_, i) => [Say(cfg, RoutingDecided, PlannedAt(cfg, i).id)]
    case Asking(_, i) => Due(cfg, Unasked(i))
  }

  /** What is certain to be done from here on, whatever is met. */
  ghost function Ahead(cfg: Config, pc: Pc): seq<Deed> {
    match pc
    case Done => []
    case Notes(events, next, _) => NotesAhead(cfg, events) + NextAhead(cfg, next)
    case InPass(cont, pass) => PassAhead(cfg, cont, pass)
    case InJob(job, stage) => JobAhead(cfg, job, stage)
    case InCheck(task, check) => CheckAhead(cfg, task, check)
    case InDecision(d, grant, decide) => DecideAhead(cfg, d, grant, decide)
    case InReconcile(reconcile) => ReconcileAhead(reconcile)
  }


  // ---- the law of one step

  /** Points a command's way leads to, and what notes fall back to. */
  predicate InPlace(pc: Pc) {
    match pc
    case Notes(_, _, abort) => abort.Finish? || abort.ToEnd?
    case InJob(job, stage) =>
      && (stage.Rotating? ==> Rotates(job))
      && (stage.CallOut? || stage.Unsure? ==> job.DispatchJob? || (job.ControlJob? && job.kind != Halt))
      && (stage.Stopping? ==> job.ControlJob? && job.kind == Halt)
    case InCheck(_, check) => check.Settle? ==> check.to == Completed || check.to == Failed || check.to == Cancelled
    case _ => true
  }

  /** The append fails, or the new command's token cannot be issued: what lay ahead is not done. */
  ghost predicate Cut(cfg: Config, sh: Shared, pc: Pc, ch: Choice) {
    || (OpOf(cfg, pc, ch.now).Append? && !ch.appended)
    || (pc.InJob? && pc.stage.Rotating? && Rotate(sh.ctl, JobKey(cfg, pc.job), JobTask(cfg, pc.job), ch.now).1.None?)
  }

  ghost function Meets(cfg: Config, sh: Shared, pc: Pc, ch: Choice): Option<Fact> {
    if Cut(cfg, sh, pc, ch) then Failure(cfg, pc) else Met(cfg, sh, pc, ch)
  }

  ghost function DueOn(cfg: Config, fact: Option<Fact>): seq<Deed> {
    if fact.Some? then Due(cfg, fact.value) else []
  }

  /** What lay ahead, with what is due on what is met, is what is done and what lies ahead then; what is cut off is not done,
      and what is due on the failure lies ahead instead. */
  ghost predicate Lawful(cfg: Config, sh: Shared, pc: Pc, ch: Choice) {
    var pc' := Act(cfg, sh, pc, ch).1;
    var due := DueOn(cfg, Meets(cfg, sh, pc, ch));
    && InPlace(pc')
    && if Cut(cfg, sh, pc, ch) then Ahead(cfg, pc') == due
       else Ahead(cfg, pc) + due == Deeds(cfg, pc, ch) + Ahead(cfg, pc')
  }

  lemma NextTaskIs(cfg: Config, seen: seq<Event>, i: nat, j: nat)
    requires IsNext(cfg, seen, i, j)
    ensures NextTask(cfg, seen, i) == Some(j)
  {
    hide Handled;
    var k := NextTask(cfg, seen, i).value;
    assert IsNext(cfg, seen, i, k);
    assert !(j < k) && !(k < j);
  }

  lemma SkippedIsHandled(seen: seq<Event>, t: Planned)
    ensures SkipTask(seen, t) <==> Handled(seen, t)
  {
    assert DepsCompleted(seen, t.deps) <==> forall d | d in t.deps :: IsCompleted(seen, d);
  }

  lemma {:induction false} WalkGoes(cfg: Config, seen: seq<Event>, i: nat, cont: Cont)
    ensures Ahead(cfg, Walk(cfg, seen, i, cont)) == Due(cfg, Goes(cont, NextTask(cfg, seen, i)))
    ensures InPlace(Walk(cfg, seen, i, cont))
    decreases |cfg.plan| - i
  {
    hide SkipTask, Handled;
    if i >= |cfg.plan| {
      EndGoes(cfg, true, cont);
    } else {
      SkippedIsHandled(seen, cfg.plan[i]);
      if SkipTask(seen, cfg.plan[i]) {
        WalkGoes(cfg, seen, i + 1, cont);
        SameNext(cfg, seen, i);
      } else {
        NextTaskIs(cfg, seen, i, i);
        EndGoes(cfg, false, cont);
      }
    }
  }

  lemma SameNext(cfg: Config, seen: seq<Event>, i: nat)
    requires i < |cfg.plan| && Handled(seen, cfg.plan[i])
    ensures NextTask(cfg, seen, i) == NextTask(cfg, seen, i + 1)
  {
    hide Handled;
    if exists j: nat :: IsNext(cfg, seen, i, j) {
      var j: nat :| IsNext(cfg, seen, i, j);
      NextTaskIs(cfg, seen, i, j);
      NextTaskIs(cfg, seen, i + 1, j);
    } else {
      var n := i + 1;
      forall j: nat ensures !IsNext(cfg, seen, n, j) { assert IsNext(cfg, seen, n, j) ==> IsNext(cfg, seen, i, j); }
    }
  }

  lemma EndGoes(cfg: Config, ok: bool, cont: Cont)
    ensures Ahead(cfg, End(ok, cont)) == EndDue(cfg, ok, cont) && InPlace(End(ok, cont))
  {
    OneNote(cfg, Note(DispatchFailed, ""));
  }

  lemma OneNote(cfg: Config, e: Event)
    ensures NotesAhead(cfg, [e]) == [Logs(LineOf(Scrub(cfg, e)))]
  {
    assert [e][1..] == [];
  }

  lemma TwoNotes(cfg: Config, e: Event, f: Event)
    ensures NotesAhead(cfg, [e, f]) == [Logs(LineOf(Scrub(cfg, e))), Logs(LineOf(Scrub(cfg, f)))]
  {
    assert [e, f][1..] == [f];
    OneNote(cfg, f);
  }

  lemma GotoGoes(cfg: Config, next: Next)
    ensures Handing(next) + Ahead(cfg, Goto(cfg, next)) == NextAhead(cfg, next) + DueOn(cfg, Landing(cfg, next))
    ensures InPlace(Goto(cfg, next))
  {
    match next
    case ToWalk(seen, i, cont) => WalkGoes(cfg, seen, i, cont);
    case ToEnd(ok, cont) => EndGoes(cfg, ok, cont);
    case _ =>
  }

  lemma MarkNotesGo(cfg: Config, job: Job, to: CommandState)
    ensures Ahead(cfg, MarkNotes(cfg, job, to)) == Aftermath(cfg, job, to) && InPlace(MarkNotes(cfg, job, to))
  {
    var task := JobTask(cfg, job);
    OneNote(cfg, Note(TaskDelegated, task));
    OneNote(cfg, Note(DispatchFailed, ""));
    OneNote(cfg, Note(DispatchInterrupted, ""));
    OneNote(cfg, EmergencyStopped);
    OneNote(cfg, Note(TaskControlled, task));
    TwoNotes(cfg, Note(TaskControlled, task), Note(DispatchResumed, task));
    TwoNotes(cfg, Note(TaskControlled, task), Note(RoutingDecided, task));
  }

  lemma SettleNotesGo(cfg: Config, task: string, to: CommandState)
    ensures InPlace(SettleNotes(task, to))
    ensures [Logs(Report(ByCommand, Dispatch, to))] + Ahead(cfg, SettleNotes(task, to)) == Settled(cfg, task, to)
  {
    OneNote(cfg, TaskCompleted(task));
    TwoNotes(cfg, Note(TaskFailed, task), Note(DispatchFailed, ""));
    TwoNotes(cfg, Note(TaskCancelled, task), Note(DispatchCancelled, ""));
  }

  /** Notes that are lost, that come to their end, and that go on. */
  lemma LostNotesLawful(cfg: Config, sh: Shared, events: seq<Event>, next: Next, abort: Next, ch: Choice)
    requires InPlace(Notes(events, next, abort)) && events != [] && !ch.appended
    ensures Lawful(cfg, sh, Notes(events, next, abort), ch)
  {
    hide Goto, Landing, Due, NotesAhead, Scrub, AfterReport;
    GotoGoes(cfg, abort);
    assert Handing(abort) + Ahead(cfg, Goto(cfg, abort)) == Ahead(cfg, Goto(cfg, abort));
    assert NextAhead(cfg, abort) + DueOn(cfg, Landing(cfg, abort)) == DueOn(cfg, Landing(cfg, abort));
  }

  lemma LastNoteLawful(cfg: Config, sh: Shared, events: seq<Event>, next: Next, abort: Next, ch: Choice)
    requires |events| <= 1 && (events != [] ==> ch.appended)
    ensures Lawful(cfg, sh, Notes(events, next, abort), ch)
  {
    hide Goto, Landing, Due, Scrub, AfterReport, NextAhead, Handing;
    GotoGoes(cfg, next);
    if events != [] {
      assert events == [events[0]];
      OneNote(cfg, events[0]);
    }
    var pc := Notes(events, next, abort);
    assert Ahead(cfg, pc) + DueOn(cfg, Landing(cfg, next))
        == NotesAhead(cfg, events) + (Handing(next) + Ahead(cfg, Goto(cfg, next)));
  }

  lemma MoreNotesLawful(cfg: Config, sh: Shared, events: seq<Event>, next: Next, abort: Next, ch: Choice)
    requires InPlace(Notes(events, next, abort)) && |events| > 1 && ch.appended
    ensures Lawful(cfg, sh, Notes(events, next, abort), ch)
  {
    hide Goto, Landing, Due, Scrub, AfterReport, NextAhead;
  }

  lemma NotesLawful(cfg: Config, sh: Shared, events: seq<Event>, next: Next, abort: Next, ch: Choice)
    requires InPlace(Notes(events, next, abort))
    ensures Lawful(cfg, sh, Notes(events, next, abort), ch)
  {
    hide Lawful;
    if events != [] && !ch.appended { LostNotesLawful(cfg, sh, events, next, abort, ch); }
    else if |events| <= 1 { LastNoteLawful(cfg, sh, events, next, abort, ch); }
    else { MoreNotesLawful(cfg, sh, events, next, abort, ch); }
  }

  lemma PassLawful(cfg: Config, sh: Shared, cont: Cont, pass: PassStage, ch: Choice)
    ensures Lawful(cfg, sh, InPass(cont, pass), ch)
  {
    hide Lawful;
    match pass
    case Reading => ReadingLawful(cfg, sh, cont, ch);
    case Routing(seen, i) => RoutingLawful(cfg, sh, cont, seen, i, ch);
    case Asking(seen, i) => AskingLawful(cfg, sh, cont, seen, i, ch);
  }

  lemma AskingLawful(cfg: Config, sh: Shared, cont: Cont, seen: seq<Event>, i: nat, ch: Choice)
    ensures Lawful(cfg, sh, InPass(cont, Asking(seen, i)), ch)
  {
    hide EndDue, End, AfterReport, ExpiryAt, DigestOf;
    EndGoes(cfg, true, cont);
    EndGoes(cfg, false, cont);
  }

  lemma ReadingLawful(cfg: Config, sh: Shared, cont: Cont, ch: Choice)
    ensures Lawful(cfg, sh, InPass(cont, Reading), ch)
  {
    hide Walk, NextTask, EndDue;
    WalkGoes(cfg, sh.log, 0, cont);
    EndGoes(cfg, true, cont);
  }

  lemma RoutingLawful(cfg: Config, sh: Shared, cont: Cont, seen: seq<Event>, i: nat, ch: Choice)
    ensures Lawful(cfg, sh, InPass(cont, Routing(seen, i)), ch)
  {
    hide EndDue, End, AfterReport, IsRequested, DigestOf;
    EndGoes(cfg, true, cont);
    EndGoes(cfg, false, cont);
  }

  lemma CheckLawful(cfg: Config, sh: Shared, task: string, check: CheckStage, ch: Choice)
    requires InPlace(InCheck(task, check))
    ensures Lawful(cfg, sh, InCheck(task, check), ch)
  {
    match check
    case Polled(key) => PolledLawful(cfg, sh, task, key, ch);
    case Settle(key, to) => SettleLawful(cfg, sh, task, key, to, ch);
    case LogSettle(to, moved) => LogSettleLawful(cfg, sh, task, to, moved, ch);
    case CheckAll(i, all) => CountLawful(cfg, sh, task, i, all, ch);
    case Picking => PickLawful(cfg, sh, task, ch);
    case Poll(key) => PollLawful(cfg, sh, task, key, ch);
    case Unpoll(key) =>
  }

  lemma PickLawful(cfg: Config, sh: Shared, task: string, ch: Choice)
    ensures Lawful(cfg, sh, InCheck(task, Picking), ch)
  {
  }

  lemma PollLawful(cfg: Config, sh: Shared, task: string, key: string, ch: Choice)
    ensures Lawful(cfg, sh, InCheck(task, Poll(key)), ch)
  {
    hide AfterRefusal;
  }

  lemma SettleLawful(cfg: Config, sh: Shared, task: string, key: string, to: CommandState, ch: Choice)
    ensures Lawful(cfg, sh, InCheck(task, Settle(key, to)), ch)
  {
  }

  lemma LogSettleLawful(cfg: Config, sh: Shared, task: string, to: CommandState, moved: Option<Command>, ch: Choice)
    ensures Lawful(cfg, sh, InCheck(task, LogSettle(to, moved)), ch)
  {
    hide NotesAhead, SettleNotes, Settled;
    SettleNotesGo(cfg, task, to);
  }

  lemma CountLawful(cfg: Config, sh: Shared, task: string, i: nat, all: bool, ch: Choice)
    ensures Lawful(cfg, sh, InCheck(task, CheckAll(i, all)), ch)
  {
    OneNote(cfg, Note(DispatchCompleted, ""));
  }

  lemma PolledLawful(cfg: Config, sh: Shared, task: string, key: string, ch: Choice)
    ensures Lawful(cfg, sh, InCheck(task, Polled(key)), ch)
  {
    hide Settled;
  }

  // ---- commands on their way

  lemma LogRequestLawful(cfg: Config, sh: Shared, job: Job, cmd: Command, ch: Choice)
    ensures Lawful(cfg, sh, InJob(job, LogRequest(cmd)), ch)
  {
    hide Marks, Goto, Broken;
    FailBreaks(cfg, job);
  }

  /** What is due where a command's way breaks off, and where it is passed by. */
  lemma FailBreaks(cfg: Config, job: Job)
    ensures Ahead(cfg, Goto(cfg, Fail(job))) == Due(cfg, Broken(job)) && InPlace(Goto(cfg, Fail(job)))
  {
    if job.DispatchJob? { EndGoes(cfg, false, job.cont); }
  }

  lemma ProceedPasses(cfg: Config, job: Job)
    ensures Ahead(cfg, Goto(cfg, Proceed(job))) == DueOn(cfg, Passed(cfg, job)) && InPlace(Goto(cfg, Proceed(job)))
  {
    if job.DispatchJob? { WalkGoes(cfg, job.seen, job.i + 1, job.cont); }
  }

  lemma ProbeLawful(cfg: Config, sh: Shared, job: Job, ch: Choice)
    ensures Lawful(cfg, sh, InJob(job, Probe), ch)
  {
    hide Goto, Passed;
    ProceedPasses(cfg, job);
  }

  lemma CreateLawful(cfg: Config, sh: Shared, job: Job, ch: Choice)
    ensures Lawful(cfg, sh, InJob(job, Create), ch)
  {
    hide Goto, Passed, Broken, AskedDue, RequestOnce, NewCommand;
    ProceedPasses(cfg, job);
    FailBreaks(cfg, job);
  }

  lemma RotatingLawful(cfg: Config, sh: Shared, job: Job, ch: Choice)
    requires Rotates(job)
    ensures Lawful(cfg, sh, InJob(job, Rotating), ch)
  {
    hide Goto, Broken, Rotate, Marks;
    FailBreaks(cfg, job);
  }

  lemma CallLawful(cfg: Config, sh: Shared, job: Job, ch: Choice)
    requires InPlace(InJob(job, CallOut))
    ensures Lawful(cfg, sh, InJob(job, CallOut), ch)
  {
    hide Marks;
  }

  lemma LogMarkLawful(cfg: Config, sh: Shared, job: Job, to: CommandState, moved: Option<Command>, ch: Choice)
    ensures Lawful(cfg, sh, InJob(job, LogMark(to, moved)), ch)
  {
    hide Goto, Broken, MarkNotes, Aftermath;
    FailBreaks(cfg, job);
    MarkNotesGo(cfg, job, to);
  }

  lemma JobLawful(cfg: Config, sh: Shared, job: Job, stage: JobStage, ch: Choice)
    requires InPlace(InJob(job, stage))
    ensures Lawful(cfg, sh, InJob(job, stage), ch)
  {
    hide Lawful;
    match stage
    case RetryGuard => MarkingLawful(cfg, sh, job, stage, ch);
    case Probe => ProbeLawful(cfg, sh, job, ch);
    case Token => MarkingLawful(cfg, sh, job, stage, ch);
    case Create => CreateLawful(cfg, sh, job, ch);
    case Rotating => RotatingLawful(cfg, sh, job, ch);
    case LogRequest(cmd) => LogRequestLawful(cfg, sh, job, cmd, ch);
    case CallOut => CallLawful(cfg, sh, job, ch);
    case LogMark(to, moved) => LogMarkLawful(cfg, sh, job, to, moved, ch);
    case _ => MarkingLawful(cfg, sh, job, stage, ch);
  }

  lemma MarkingLawful(cfg: Config, sh: Shared, job: Job, stage: JobStage, ch: Choice)
    requires InPlace(InJob(job, stage))
    requires stage.RetryGuard? || stage.Token? || stage.Stopping? || stage.Unsure? || stage.Mark?
    ensures Lawful(cfg, sh, InJob(job, stage), ch)
  {
    hide Reports, EmergencyStop, AfterRefusal, Transition;
  }

  lemma DecisionLawful(cfg: Config, sh: Shared, d: Digest, grant: bool, decide: DecideStage, ch: Choice)
    ensures Lawful(cfg, sh, InDecision(d, grant, decide), ch)
  {
    hide Lawful;
    match decide
    case ReadRequest(actor) => ReviewLawful(cfg, sh, d, grant, actor, ch);
    case LogDecision(task) => LogDecisionLawful(cfg, sh, d, grant, task, ch);
    case _ => ClaimLawful(cfg, sh, d, grant, decide, ch);
  }

  lemma LogDecisionLawful(cfg: Config, sh: Shared, d: Digest, grant: bool, task: string, ch: Choice)
    ensures Lawful(cfg, sh, InDecision(d, grant, LogDecision(task)), ch)
  {
    hide AfterReport, NotesAhead;
    OneNote(cfg, Note(DispatchFailed, task));
    OneNote(cfg, Note(DispatchResumed, task));
    var pc := InDecision(d, grant, LogDecision(task));
    assert ch.appended ==>
        DecisionDue(cfg, d, grant, task) == Deeds(cfg, pc, ch) + Ahead(cfg, Act(cfg, sh, pc, ch).1);
  }

  lemma ClaimLawful(cfg: Config, sh: Shared, d: Digest, grant: bool, decide: DecideStage, ch: Choice)
    requires !decide.ReadRequest? && !decide.LogDecision?
    ensures Lawful(cfg, sh, InDecision(d, grant, decide), ch)
  {
    hide DecisionDue;
  }

  lemma ReviewPermits(cfg: Config, log: seq<Event>, d: Digest, grant: bool, actor: string, now: int)
    ensures var e := LastRequest(log, d);
            var open := e.Some? && MayDecide(e.value, d, actor, now) && !IsDecided(log, d);
            Ahead(cfg, Review(log, d, grant, actor, now)) == (if open then [Claims(d)] else [])
            && InPlace(Review(log, d, grant, actor, now))
  {
    hide LastRequest, FirstDecision, DigestOf;
  }

  lemma ReviewLawful(cfg: Config, sh: Shared, d: Digest, grant: bool, actor: string, ch: Choice)
    ensures Lawful(cfg, sh, InDecision(d, grant, ReadRequest(actor)), ch)
  {
    hide Review, MayDecide;
    ReviewPermits(cfg, sh.log, d, grant, actor, ch.now);
  }

  lemma ReconcileLawful(cfg: Config, sh: Shared, reconcile: ReconcileStage, ch: Choice)
    ensures Lawful(cfg, sh, InReconcile(reconcile), ch)
  {
    hide Lawful;
    match reconcile
    case ProbeUnknown(key, disposition) => ProbeUnknownLawful(cfg, sh, key, disposition, ch);
    case Resolve(key, disposition) => ResolveLawful(cfg, sh, key, disposition, ch);
    case Survey(applied) => SurveyLawful(cfg, sh, applied, ch);
    case SurveyLog => SurveyLogLawful(cfg, sh, ch);
  }

  lemma ProbeUnknownLawful(cfg: Config, sh: Shared, key: string, disposition: Disposition, ch: Choice)
    ensures Lawful(cfg, sh, InReconcile(ProbeUnknown(key, disposition)), ch)
  {
    hide NotesAhead;
    OneNote(cfg, Note(ReconciliationRequested, ""));
    TwoNotes(cfg, Note(ReconciliationRequested, ""), Note(ReconciliationStillUnknown, ""));
  }

  lemma ResolveLawful(cfg: Config, sh: Shared, key: string, disposition: Disposition, ch: Choice)
    ensures Lawful(cfg, sh, InReconcile(Resolve(key, disposition)), ch)
  {
    hide AfterReconcile, AfterRefusal, Transition, Ahead, ResolvedDue, InPlace;
    ResolveMoves(sh.ctl, key, ch.now);
    if InState(sh.ctl, key, OutcomeUnknown) {
      var cmd := Transition(sh.ctl, key, Reconciled, "", "", ch.now).1;
      ResolvedGoes(cfg, key, disposition, cmd.value);
    } else {
      UnresolvedEnds(cfg, key, disposition);
    }
    ResolveAhead(cfg, key, disposition);
  }

  lemma ResolveAhead(cfg: Config, key: string, disposition: Disposition)
    ensures Ahead(cfg, InReconcile(Resolve(key, disposition))) == [Moves(key, Reconciled)] && Ahead(cfg, Done) == []
    ensures InPlace(Done)
  {
  }

  lemma ResolveMoves(ctl: Ctl, key: string, now: int)
    ensures var cmd := Transition(ctl, key, Reconciled, "", "", now).1;
            && (cmd.Some? <==> InState(ctl, key, OutcomeUnknown))
            && (cmd.Some? ==> cmd.value.task == ctl.commands[key].task)
  {
  }

  lemma UnresolvedEnds(cfg: Config, key: string, disposition: Disposition)
    ensures AfterReconcile(cfg, Resolve(key, disposition), Found(None)) == Done
  {
  }

  lemma ResolvedGoes(cfg: Config, key: string, disposition: Disposition, cmd: Command)
    ensures var pc := AfterReconcile(cfg, Resolve(key, disposition), Found(Some(cmd)));
            Ahead(cfg, pc) == ResolvedDue(cfg, cmd.task, disposition) && InPlace(pc)
  {
    TwoNotes(cfg, Note(ReconciliationCompleted, ""), TaskCompleted(cmd.task));
    TwoNotes(cfg, Note(ReconciliationCompleted, ""), Note(RetryAllowed, cmd.task));
  }

  lemma SurveyLawful(cfg: Config, sh: Shared, applied: bool, ch: Choice)
    ensures Lawful(cfg, sh, InReconcile(Survey(applied)), ch)
  {
    hide NotesAhead;
    OneNote(cfg, Note(DispatchFailed, ""));
  }

  lemma SurveyLogLawful(cfg: Config, sh: Shared, ch: Choice)
    ensures Lawful(cfg, sh, InReconcile(SurveyLog), ch)
  {
    OneNote(cfg, Note(DispatchCompleted, ""));
    assert AllCompleted(cfg, sh.log) <==> forall t | t in cfg.plan :: IsCompleted(sh.log, t.id);
  }

  lemma PointLawful(cfg: Config, sh: Shared, pc: Pc, ch: Choice)
    requires InPlace(pc)
    ensures Lawful(cfg, sh, pc, ch)
  {
    match pc
    case Done =>
    case Notes(events, next, abort) => NotesLawful(cfg, sh, events, next, abort, ch);
    case InPass(cont, pass) => PassLawful(cfg, sh, cont, pass, ch);
    case InJob(job, stage) => JobLawful(cfg, sh, job, stage, ch);
    case InCheck(task, check) => CheckLawful(cfg, sh, task, check, ch);
    case InDecision(d, grant, decide) => DecisionLawful(cfg, sh, d, grant, decide, ch);
    case InReconcile(reconcile) => ReconcileLawful(cfg, sh, reconcile, ch);
  }

  // ---- whole runs

  /** What a request has met since it began, what it has done, and what was due; `whole` as long as nothing was cut off. */
  datatype Record = Record(met: seq<Fact>, done: seq<Deed>, due: seq<Deed>, whole: bool)

  ghost function Opened(cfg: Config, fact: Fact): Record { Record([fact], [], Due(cfg, fact), true) }

  ghost function Recorded(cfg: Config, sh: Shared, pc: Pc, ch: Choice, record: Record): Record {
    var fact, cut := Meets(cfg, sh, pc, ch), Cut(cfg, sh, pc, ch);
    var done := record.done + Deeds(cfg, pc, ch);
    Record(record.met + (if fact.Some? then [fact.value] else []), done,
           (if cut then done else record.due) + DueOn(cfg, fact), record.whole && !cut)
  }

  /** The records of the requests in flight. */
  ghost function Book(cfg: Config, steps: seq<Step>): map<nat, Record>
    decreases |steps|
  {
    if steps == [] then map[0 := Opened(cfg, Started)]
    else
      var rest := steps[..|steps| - 1];
      var s, book := Exec(cfg, rest), Book(cfg, rest);
      match steps[|steps| - 1]
      case Begin(r, request) =>
        if Idle(s, r) && !s.sh.fatal && Admissible(cfg, request) then book[r := Opened(cfg, Began(request))] else book
      case Advance(r, ch) =>
        if r in s.reqs && r in book then book[r := Recorded(cfg, s.sh, s.reqs[r], ch, book[r])] else book
      case Restart(_) => map[]
  }

  /** What is due on all that was met. */
  ghost function AllDue(cfg: Config, met: seq<Fact>): seq<Deed>
    decreases |met|
  {
    if met == [] then [] else AllDue(cfg, met[..|met| - 1]) + Due(cfg, met[|met| - 1])
  }

  ghost predicate Dutiful(cfg: Config, pc: Pc, record: Record) {
    InPlace(pc) && record.done + Ahead(cfg, pc) == record.due && (record.whole ==> record.due == AllDue(cfg, record.met))
  }

  ghost predicate DutyInv(cfg: Config, s: State, book: map<nat, Record>) {
    book.Keys == s.reqs.Keys && forall r | r in s.reqs :: Dutiful(cfg, s.reqs[r], book[r])
  }

  lemma OneDue(cfg: Config, fact: Fact)
    ensures AllDue(cfg, [fact]) == Due(cfg, fact)
  {
    assert [fact][..0] == [];
    assert AllDue(cfg, []) + Due(cfg, fact) == Due(cfg, fact);
  }

  lemma MoreDue(cfg: Config, met: seq<Fact>, fact: Fact)
    ensures AllDue(cfg, met + [fact]) == AllDue(cfg, met) + Due(cfg, fact)
  {
    assert (met + [fact])[..|met|] == met;
  }

  lemma EntryIsDutiful(cfg: Config, request: Request)
    ensures Dutiful(cfg, Entry(request), Opened(cfg, Began(request)))
  {
    OneDue(cfg, Began(request));
  }

  lemma StartIsDutiful(cfg: Config)
    ensures DutyInv(cfg, Init(cfg), Book(cfg, []))
  {
    OneDue(cfg, Started);
    OneNote(cfg, Note(DispatchStarted, ""));
  }

  lemma StepIsDutiful(cfg: Config, sh: Shared, pc: Pc, ch: Choice, record: Record)
    requires Dutiful(cfg, pc, record)
    ensures Dutiful(cfg, Act(cfg, sh, pc, ch).1, Recorded(cfg, sh, pc, ch, record))
  {
    hide Ahead, Meets, Cut, Deeds, Due, Act, InPlace;
    PointLawful(cfg, sh, pc, ch);
    var fact := Meets(cfg, sh, pc, ch);
    if fact.Some? { MoreDue(cfg, record.met, fact.value); } else { assert record.met + [] == record.met; }
    assert record.due + [] == record.due;
    var pc' := Act(cfg, sh, pc, ch).1;
    if !Cut(cfg, sh, pc, ch) {
      assert record.done + Deeds(cfg, pc, ch) + Ahead(cfg, pc') == record.done + (Ahead(cfg, pc) + DueOn(cfg, fact));
    }
  }

  lemma {:induction false} DutyAlways(cfg: Config, steps: seq<Step>)
    ensures DutyInv(cfg, Exec(cfg, steps), Book(cfg, steps))
    decreases |steps|
  {
    hide Act, Dutiful, Recorded, Entry, Opened, Reboot, Admissible;
    if steps == [] {
      StartIsDutiful(cfg);
    } else {
      var rest, last := steps[..|steps| - 1], steps[|steps| - 1];
      DutyAlways(cfg, rest);
      var s := Exec(cfg, rest);
      match last
      case Begin(r, request) => EntryIsDutiful(cfg, request);
      case Advance(r, ch) => if r in s.reqs { StepIsDutiful(cfg, s.sh, s.reqs[r], ch, Book(cfg, rest)[r]); }
      case Restart(_) =>
    }
  }

  /** Whatever else is in flight, a request does what is due on what it met, in that order, and nothing else; when it is done
      it has done all of it. Unless an append fails, that is what its facts make due one after the other. */
  lemma RequestsDoWhatIsDue(cfg: Config, steps: seq<Step>, r: nat)
    requires r in Exec(cfg, steps).reqs
    ensures r in Book(cfg, steps)
    ensures var record := Book(cfg, steps)[r];
            && record.done <= record.due
            && (Exec(cfg, steps).reqs[r].Done? ==> record.done == record.due)
            && (record.whole ==> record.due == AllDue(cfg, record.met))
  {
    hide Exec, Book, AllDue;
    DutyAlways(cfg, steps);
    assert Dutiful(cfg, Exec(cfg, steps).reqs[r], Book(cfg, steps)[r]);
  }
}
