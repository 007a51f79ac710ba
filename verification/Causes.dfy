/** Why the log and the controller are as they are. Whatever a request met, it met for the request it was begun with; every
    line of the log, every command and every state of a command is due on something that was met. */
module Causes {
  import opened Model
  import opened Control
  import opened Actions
  import opened Protocol
  import opened Duties
  import opened DutyLaw
  import opened CommandSafety
  import ApprovalSafety

  // ---- all that was met

  /** What a request began with. */
  function Origin(record: Record): Fact {
    if record.met == [] then Started else record.met[0]
  }

  ghost function MetAt(cfg: Config, s: State, book: map<nat, Record>, step: Step): set<(Fact, Fact)> {
    match step
    case Begin(r, request) =>
      if Idle(s, r) && !s.sh.fatal && Admissible(cfg, request) then {(Began(request), Began(request))} else {}
    case Advance(r, ch) =>
      if r in s.reqs && r in book && Meets(cfg, s.sh, s.reqs[r], ch).Some?
      then {(Origin(book[r]), Meets(cfg, s.sh, s.reqs[r], ch).value)} else {}
    case Restart(_) => {}
  }

  /** What requests met in the whole run, each with what its request began with. */
  ghost function Facts(cfg: Config, steps: seq<Step>): set<(Fact, Fact)>
    decreases |steps|
  {
    if steps == [] then {(Started, Started)}
    else
      var rest := steps[..|steps| - 1];
      Facts(cfg, rest) + MetAt(cfg, Exec(cfg, rest), Book(cfg, rest), steps[|steps| - 1])
  }

  // ---- facts suit the request that met them

  predicate SuitsCont(origin: Fact, cont: Cont) {
    match cont
    case FromStart => origin == Started
    case FromApproval => origin.Began? && origin.request.Decide? && origin.request.grant
    case FromResult => origin.Began? && origin.request.CheckResult?
    case FromReconcile => SuitsSurvey(origin, true)
  }

  predicate SuitsSurvey(origin: Fact, applied: bool) {
    origin.Began? && origin.request.Reconcile? && origin.request.disposition == (if applied then Applied else NotApplied)
  }

  predicate SuitsJob(origin: Fact, job: Job) {
    match job
    case DispatchJob(_, _, cont) => SuitsCont(origin, cont)
    case ControlJob(kind, key, task, _) =>
      origin.Began? && origin.request.ControlTask?
      && origin.request.kind == kind && origin.request.key == key && origin.request.task == task
    case RetryJob(key, task, _) =>
      origin.Began? && origin.request.ControlTask?
      && origin.request.kind == Retry && origin.request.key == key && origin.request.task == task
  }

  /** Before its command is created, a control has the token it was given. */
  predicate SuitsToken(origin: Fact, job: Job) {
    SuitsJob(origin, job) && (job.ControlJob? ==> job.token == origin.request.token)
  }

  predicate SuitsNext(origin: Fact, next: Next) {
    match next
    case Finish => true
    case ToSchedule(cont) => SuitsCont(origin, cont)
    case ToWalk(_, _, cont) => SuitsCont(origin, cont)
    case ToEnd(_, cont) => SuitsCont(origin, cont)
    case ToCreate(job) => SuitsJob(origin, job) && job.RetryJob?
    case ToResolve(key, disposition) => origin == Began(Reconcile(key, disposition)) && disposition != StillUnknown
    case ToSurvey(applied) => SuitsSurvey(origin, applied)
  }

  /** Some request for approval of `d` in the log lists the actor; nobody named is the local owner. */
  predicate Authorized(log: seq<Event>, d: Digest, actor: string) {
    exists e | e in log :: Lists(e, d, actor)
  }

  predicate Lists(e: Event, d: Digest, actor: string) {
    && e.ApprovalRequested? && e.digest == d
    && (if actor == "" then "local-owner" else actor) in (if e.actors == [] then ["local-owner"] else e.actors)
  }

  predicate Decides(log: seq<Event>, origin: Fact, d: Digest, grant: bool) {
    origin.Began? && origin.request.Decide? && origin.request.digest == d && origin.request.grant == grant
    && Authorized(log, d, origin.request.actor)
  }

  predicate Early(stage: JobStage) {
    stage.RetryGuard? || stage.Probe? || stage.Token? || stage.Create?
  }

  predicate Suits(log: seq<Event>, origin: Fact, pc: Pc) {
    match pc
    case Done => true
    case Notes(_, next, abort) => SuitsNext(origin, next) && SuitsNext(origin, abort)
    case InPass(cont, _) => SuitsCont(origin, cont)
    case InJob(job, stage) => SuitsJob(origin, job) && (Early(stage) ==> SuitsToken(origin, job))
    case InCheck(task, check) =>
      if check.CheckAll? then origin.Began? && origin.request.CheckResult? else origin == Began(CheckResult(task))
    case InDecision(d, grant, ReadRequest(actor)) => origin == Began(Decide(d, grant, actor))
    case InDecision(d, grant, Claiming(_)) => Decides(log, origin, d, grant)
    case InDecision(d, grant, LogDecision(_)) => Decides(log, origin, d, grant)
    case InDecision(d, grant, _) => origin.Began? && origin.request.Decide?
    case InReconcile(ProbeUnknown(key, disposition)) => origin == Began(Reconcile(key, disposition))
    case InReconcile(Resolve(key, disposition)) => origin == Began(Reconcile(key, disposition)) && disposition != StillUnknown
    case InReconcile(Survey(applied)) => SuitsSurvey(origin, applied)
    case InReconcile(SurveyLog) => SuitsSurvey(origin, true)
  }

  predicate FactSuits(log: seq<Event>, origin: Fact, fact: Fact) {
    match fact
    case Started => origin == Started
    case Began(_) => origin == fact
    case Goes(cont, _) => SuitsCont(origin, cont)
    case Broke(cont) => SuitsCont(origin, cont)
    case Free(job) => SuitsToken(origin, job)
    case Absent(job) => SuitsToken(origin, job)
    case Current(job) => SuitsToken(origin, job)
    case Made(job) => SuitsJob(origin, job)
    case ReplyTo(job, _) => SuitsJob(origin, job)
    case Answer(task, _, _) => origin == Began(CheckResult(task))
    case Permitted(d, grant, actor) => origin == Began(Decide(d, grant, actor)) && Authorized(log, d, actor)
    case Won(d, grant, _) => Decides(log, origin, d, grant)
    case Unsettled(key, disposition) => origin == Began(Reconcile(key, disposition))
    case Resolved(key, _, disposition) => origin == Began(Reconcile(key, disposition)) && disposition != StillUnknown
    case Surveyed(_, applied) => SuitsSurvey(origin, applied)
    case _ => true
  }

  ghost predicate StepSuits(cfg: Config, sh: Shared, pc: Pc, ch: Choice, origin: Fact) {
    var (next, pc') := Act(cfg, sh, pc, ch);
    var fact := Meets(cfg, sh, pc, ch);
    Suits(next.log, origin, pc') && (fact.Some? ==> FactSuits(next.log, origin, fact.value))
  }

  lemma AuthorizedGrows(log: seq<Event>, more: seq<Event>, d: Digest, actor: string)
    requires log <= more && Authorized(log, d, actor)
    ensures Authorized(more, d, actor)
  {
    var e :| e in log && Lists(e, d, actor);
    assert e in more;
  }

  lemma SuitsGrows(log: seq<Event>, more: seq<Event>, origin: Fact, pc: Pc)
    requires log <= more && Suits(log, origin, pc)
    ensures Suits(more, origin, pc)
  {
    if pc.InDecision? && Decides(log, origin, pc.digest, pc.grant) {
      AuthorizedGrows(log, more, pc.digest, origin.request.actor);
    }
  }

  lemma FactSuitsGrows(log: seq<Event>, more: seq<Event>, origin: Fact, fact: Fact)
    requires log <= more && FactSuits(log, origin, fact)
    ensures FactSuits(more, origin, fact)
  {
    match fact
    case Permitted(d, grant, actor) => AuthorizedGrows(log, more, d, actor);
    case Won(d, grant, _) => AuthorizedGrows(log, more, d, origin.request.actor);
    case _ =>
  }

  lemma WalkSuits(cfg: Config, log: seq<Event>, origin: Fact, seen: seq<Event>, i: nat, cont: Cont)
    requires SuitsCont(origin, cont)
    ensures Suits(log, origin, Walk(cfg, seen, i, cont))
  {
    WalkStops(cfg, seen, i, cont);
  }

  lemma GotoSuits(cfg: Config, log: seq<Event>, origin: Fact, next: Next)
    requires SuitsNext(origin, next)
    ensures Suits(log, origin, Goto(cfg, next))
    ensures Landing(cfg, next).Some? ==> FactSuits(log, origin, Landing(cfg, next).value)
  {
    if next.ToWalk? { WalkSuits(cfg, log, origin, next.seen, next.i, next.cont); }
  }

  lemma NotesSuit(cfg: Config, sh: Shared, events: seq<Event>, next: Next, abort: Next, ch: Choice, origin: Fact)
    requires Suits(sh.log, origin, Notes(events, next, abort))
    ensures StepSuits(cfg, sh, Notes(events, next, abort), ch, origin)
  {
    hide Goto, Landing, Scrub, AfterReport, Suits, SuitsNext;
    assert SuitsNext(origin, next) && SuitsNext(origin, abort) by { NotesParts(sh.log, events, next, abort, origin); }
    var after := Act(cfg, sh, Notes(events, next, abort), ch).0.log;
    GotoSuits(cfg, after, origin, next);
    GotoSuits(cfg, after, origin, abort);
    if events != [] { NotesParts(after, events[1..], next, abort, origin); }
  }

  lemma NotesParts(log: seq<Event>, events: seq<Event>, next: Next, abort: Next, origin: Fact)
    ensures Suits(log, origin, Notes(events, next, abort)) <==> SuitsNext(origin, next) && SuitsNext(origin, abort)
  {
  }

  lemma EndSuits(log: seq<Event>, origin: Fact, ok: bool, cont: Cont)
    requires SuitsCont(origin, cont)
    ensures Suits(log, origin, End(ok, cont))
  {
  }

  lemma PassSuits(cfg: Config, sh: Shared, cont: Cont, pass: PassStage, ch: Choice, origin: Fact)
    requires SuitsCont(origin, cont)
    ensures StepSuits(cfg, sh, InPass(cont, pass), ch, origin)
  {
    hide Walk, NextTask, Scrub, AfterReport, End, IsRequested, DigestOf, ExpiryAt;
    if pass.Reading? { WalkSuits(cfg, sh.log, origin, sh.log, 0, cont); }
    EndSuits(Act(cfg, sh, InPass(cont, pass), ch).0.log, origin, true, cont);
    EndSuits(Act(cfg, sh, InPass(cont, pass), ch).0.log, origin, false, cont);
  }

  lemma FailSuits(cfg: Config, log: seq<Event>, origin: Fact, job: Job)
    requires SuitsJob(origin, job)
    ensures SuitsNext(origin, Proceed(job)) && SuitsNext(origin, Fail(job)) && FactSuits(log, origin, Broken(job))
    ensures Suits(log, origin, Goto(cfg, Proceed(job))) && Suits(log, origin, Goto(cfg, Fail(job)))
    ensures Passed(cfg, job).Some? ==> FactSuits(log, origin, Passed(cfg, job).value)
  {
    GotoSuits(cfg, log, origin, Proceed(job));
    GotoSuits(cfg, log, origin, Fail(job));
  }

  lemma MarkNotesSuit(cfg: Config, log: seq<Event>, origin: Fact, job: Job, to: CommandState)
    requires SuitsJob(origin, job)
    ensures Suits(log, origin, MarkNotes(cfg, job, to))
  {
  }

  lemma JobSuits(cfg: Config, sh: Shared, job: Job, stage: JobStage, ch: Choice, origin: Fact)
    requires Suits(sh.log, origin, InJob(job, stage))
    ensures StepSuits(cfg, sh, InJob(job, stage), ch, origin)
  {
    hide Effect, AfterJob, JobOp, MetInJob, SuitsJob, Suits, FactSuits;
    var (next, out) := Effect(cfg, sh, JobOp(cfg, job, stage), ch);
    JobGoesOn(cfg, next.log, origin, job, stage, out, sh.log);
    JobMeets(cfg, sh, next.log, origin, job, stage, ch);
  }

  lemma JobGoesOn(cfg: Config, log: seq<Event>, origin: Fact, job: Job, stage: JobStage, out: Outcome, before: seq<Event>)
    requires Suits(before, origin, InJob(job, stage))
    ensures Suits(log, origin, AfterJob(cfg, job, stage, out))
  {
    hide Goto, MarkNotes;
    FailSuits(cfg, log, origin, job);
    if stage.LogMark? { MarkNotesSuit(cfg, log, origin, job, stage.logTo); }
  }

  lemma JobMeets(cfg: Config, sh: Shared, log: seq<Event>, origin: Fact, job: Job, stage: JobStage, ch: Choice)
    requires Suits(sh.log, origin, InJob(job, stage))
    ensures var fact := Meets(cfg, sh, InJob(job, stage), ch);
            fact.Some? ==> FactSuits(log, origin, fact.value)
  {
    hide Goto, Passed, Broken, RequestOnce, Rotate, JobOp;
    FailSuits(cfg, log, origin, job);
  }

  lemma CheckSuits(cfg: Config, sh: Shared, task: string, check: CheckStage, ch: Choice, origin: Fact)
    requires Suits(sh.log, origin, InCheck(task, check))
    ensures StepSuits(cfg, sh, InCheck(task, check), ch, origin)
  {
    hide Scrub, AfterReport, Transition;
  }

  lemma DecisionSuits(cfg: Config, sh: Shared, d: Digest, grant: bool, decide: DecideStage, ch: Choice, origin: Fact)
    requires Suits(sh.log, origin, InDecision(d, grant, decide))
    ensures StepSuits(cfg, sh, InDecision(d, grant, decide), ch, origin)
  {
    hide Scrub, AfterReport, LastRequest, DigestOf, Authorized;
    var next := Act(cfg, sh, InDecision(d, grant, decide), ch).0;
    match decide
    case ReadRequest(actor) => PermittedIsAuthorized(sh.log, d, actor, ch.now);
    case LogDecision(_) => AuthorizedGrows(sh.log, next.log, d, origin.request.actor);
    case _ =>
  }

  lemma PermittedIsAuthorized(log: seq<Event>, d: Digest, actor: string, now: int)
    ensures LastRequest(log, d).Some? && MayDecide(LastRequest(log, d).value, d, actor, now) ==> Authorized(log, d, actor)
  {
    ApprovalSafety.LastRequestIsLogged(log, d);
    if LastRequest(log, d).Some? { assert LastRequest(log, d).value in log; }
  }

  lemma ReconcileSuits(cfg: Config, sh: Shared, reconcile: ReconcileStage, ch: Choice, origin: Fact)
    requires Suits(sh.log, origin, InReconcile(reconcile))
    ensures StepSuits(cfg, sh, InReconcile(reconcile), ch, origin)
  {
    hide StepSuits;
    match reconcile
    case Resolve(key, disposition) => ResolveSuits(cfg, sh, key, disposition, ch, origin);
    case _ => LookSuits(cfg, sh, reconcile, ch, origin);
  }

  lemma LookSuits(cfg: Config, sh: Shared, reconcile: ReconcileStage, ch: Choice, origin: Fact)
    requires Suits(sh.log, origin, InReconcile(reconcile)) && !reconcile.Resolve?
    ensures StepSuits(cfg, sh, InReconcile(reconcile), ch, origin)
  {
    hide AllCompleted;
  }

  lemma ResolveSuits(cfg: Config, sh: Shared, key: string, disposition: Disposition, ch: Choice, origin: Fact)
    requires Suits(sh.log, origin, InReconcile(Resolve(key, disposition)))
    ensures StepSuits(cfg, sh, InReconcile(Resolve(key, disposition)), ch, origin)
  {
    hide Transition, AfterRefusal;
  }

  lemma PointSuits(cfg: Config, sh: Shared, pc: Pc, ch: Choice, origin: Fact)
    requires Suits(sh.log, origin, pc)
    ensures StepSuits(cfg, sh, pc, ch, origin)
  {
    match pc
    case Done =>
    case Notes(events, next, abort) => NotesSuit(cfg, sh, events, next, abort, ch, origin);
    case InPass(cont, pass) => PassSuits(cfg, sh, cont, pass, ch, origin);
    case InJob(job, stage) => JobSuits(cfg, sh, job, stage, ch, origin);
    case InCheck(task, check) => CheckSuits(cfg, sh, task, check, ch, origin);
    case InDecision(d, grant, decide) => DecisionSuits(cfg, sh, d, grant, decide, ch, origin);
    case InReconcile(reconcile) => ReconcileSuits(cfg, sh, reconcile, ch, origin);
  }

  // ---- what is due has a cause

  ghost predicate IsDue(cfg: Config, facts: set<(Fact, Fact)>, deed: Deed) {
    exists p | p in facts :: deed in Due(cfg, p.1)
  }

  ghost predicate RecordInv(cfg: Config, log: seq<Event>, pc: Pc, record: Record, facts: set<(Fact, Fact)>) {
    && Suits(log, Origin(record), pc)
    && (Origin(record), Origin(record)) in facts
    && record.met != [] && (forall f | f in record.met :: (Origin(record), f) in facts)
    && forall d | d in record.due :: IsDue(cfg, facts, d)
  }

  /** A restart in the middle of a run is noted by nobody in flight. */
  ghost predicate LineInv(cfg: Config, log: seq<Event>, facts: set<(Fact, Fact)>) {
    forall e | e in log :: IsDue(cfg, facts, Logs(LineOf(e))) || e == Note(DispatchInterrupted, "")
  }

  ghost predicate FactInv(log: seq<Event>, facts: set<(Fact, Fact)>) {
    forall p | p in facts :: FactSuits(log, p.0, p.1) && (p.0, p.0) in facts
  }

  ghost predicate CauseInv(cfg: Config, s: State, book: map<nat, Record>, facts: set<(Fact, Fact)>) {
    && DutyInv(cfg, s, book)
    && (forall r | r in s.reqs :: RecordInv(cfg, s.sh.log, s.reqs[r], book[r], facts))
    && LineInv(cfg, s.sh.log, facts) && FactInv(s.sh.log, facts)
  }

  lemma DueGrows(cfg: Config, facts: set<(Fact, Fact)>, more: set<(Fact, Fact)>, deed: Deed)
    requires facts <= more && IsDue(cfg, facts, deed)
    ensures IsDue(cfg, more, deed)
  {
    hide Due;
    var p :| p in facts && deed in Due(cfg, p.1);
    assert p in more;
  }

  lemma RecordGrows(
    cfg: Config, log: seq<Event>, longer: seq<Event>, pc: Pc, record: Record, facts: set<(Fact, Fact)>, more: set<(Fact, Fact)>)
    requires log <= longer && facts <= more && RecordInv(cfg, log, pc, record, facts)
    ensures RecordInv(cfg, longer, pc, record, more)
  {
    hide Suits, IsDue;
    SuitsGrows(log, longer, Origin(record), pc);
    forall d | d in record.due ensures IsDue(cfg, more, d) { DueGrows(cfg, facts, more, d); }
  }

  lemma LinesGrow(cfg: Config, log: seq<Event>, facts: set<(Fact, Fact)>, more: set<(Fact, Fact)>)
    requires LineInv(cfg, log, facts) && facts <= more
    ensures LineInv(cfg, log, more)
  {
    hide IsDue, LineOf;
    forall e | e in log && e != Note(DispatchInterrupted, "") ensures IsDue(cfg, more, Logs(LineOf(e))) {
      DueGrows(cfg, facts, more, Logs(LineOf(e)));
    }
  }

  lemma LinesAppend(cfg: Config, log: seq<Event>, e: Event, facts: set<(Fact, Fact)>)
    requires LineInv(cfg, log, facts) && (IsDue(cfg, facts, Logs(LineOf(e))) || e == Note(DispatchInterrupted, ""))
    ensures LineInv(cfg, log + [e], facts)
  {
  }

  lemma FactsGrow(log: seq<Event>, longer: seq<Event>, facts: set<(Fact, Fact)>)
    requires FactInv(log, facts) && log <= longer
    ensures FactInv(longer, facts)
  {
    hide FactSuits;
    forall p | p in facts ensures FactSuits(longer, p.0, p.1) { FactSuitsGrows(log, longer, p.0, p.1); }
  }

  /** What a request does at a step was due before, or is due on what it meets. */
  lemma DeedsAreDue(cfg: Config, sh: Shared, pc: Pc, ch: Choice, record: Record, deed: Deed)
    requires Dutiful(cfg, pc, record) && deed in Deeds(cfg, pc, ch)
    ensures deed in record.due || deed in DueOn(cfg, Meets(cfg, sh, pc, ch))
  {
    hide Due, Meets, Act;
    PointLawful(cfg, sh, pc, ch);
    if Cut(cfg, sh, pc, ch) {
      assert pc.InJob? && pc.stage.Rotating?;
      assert deed in Ahead(cfg, pc);
    } else {
      var all := Deeds(cfg, pc, ch) + Ahead(cfg, Act(cfg, sh, pc, ch).1);
      assert deed in all;
      assert deed in Ahead(cfg, pc) || deed in DueOn(cfg, Meets(cfg, sh, pc, ch)) by {
        assert all == Ahead(cfg, pc) + DueOn(cfg, Meets(cfg, sh, pc, ch));
      }
    }
  }

  /** Nothing becomes due but on what is met. */
  lemma RecordedIsDue(cfg: Config, sh: Shared, pc: Pc, ch: Choice, record: Record, deed: Deed)
    requires Dutiful(cfg, pc, record) && deed in Recorded(cfg, sh, pc, ch, record).due
    ensures deed in record.due || deed in DueOn(cfg, Meets(cfg, sh, pc, ch))
  {
    hide Due, Meets, Cut, Deeds, Ahead;
    if deed in Deeds(cfg, pc, ch) { DeedsAreDue(cfg, sh, pc, ch, record, deed); }
    assert deed in record.done ==> deed in record.due;
  }

  lemma MetIsDue(cfg: Config, facts: set<(Fact, Fact)>, origin: Fact, fact: Option<Fact>, deed: Deed)
    requires deed in DueOn(cfg, fact) && (origin, fact.value) in facts
    ensures IsDue(cfg, facts, deed)
  {
    hide Due;
    var p := (origin, fact.value);
    assert deed in Due(cfg, p.1);
  }

  lemma LogStays(cfg: Config, sh: Shared, pc: Pc, ch: Choice)
    ensures var log := Act(cfg, sh, pc, ch).0.log;
            log == sh.log || (log == sh.log + [log[|sh.log|]] && Logs(LineOf(log[|sh.log|])) in Deeds(cfg, pc, ch))
  {
    hide After, LineOf, Scrub, AfterReport, AfterRefusal, RequestOnce, Rotate, Transition, Commit, EmergencyStop;
    assert forall d | d in DeedOf(cfg, OpOf(cfg, pc, ch.now), ch.appended) && d.Logs? :: d in Deeds(cfg, pc, ch);
  }

  /** The facts after request `r` has moved. */
  ghost function Moved(facts: set<(Fact, Fact)>, record: Record, fact: Option<Fact>): set<(Fact, Fact)> {
    if fact.Some? then facts + {(Origin(record), fact.value)} else facts
  }

  lemma MoveRecorded(cfg: Config, sh: Shared, pc: Pc, ch: Choice, record: Record, facts: set<(Fact, Fact)>)
    requires Dutiful(cfg, pc, record) && RecordInv(cfg, sh.log, pc, record, facts)
    ensures var (next, pc') := Act(cfg, sh, pc, ch);
            RecordInv(cfg, next.log, pc', Recorded(cfg, sh, pc, ch, record), Moved(facts, record, Meets(cfg, sh, pc, ch)))
  {
    hide Due, Meets, Act, Suits, FactSuits, Dutiful, IsDue;
    PointSuits(cfg, sh, pc, ch, Origin(record));
    var fact, after := Meets(cfg, sh, pc, ch), Recorded(cfg, sh, pc, ch, record);
    var more := Moved(facts, record, fact);
    assert Origin(after) == Origin(record);
    forall d | d in after.due ensures IsDue(cfg, more, d) {
      RecordedIsDue(cfg, sh, pc, ch, record, d);
      if d in record.due { DueGrows(cfg, facts, more, d); } else { MetIsDue(cfg, more, Origin(record), fact, d); }
    }
  }

  lemma MoveLines(cfg: Config, sh: Shared, pc: Pc, ch: Choice, record: Record, facts: set<(Fact, Fact)>)
    requires Dutiful(cfg, pc, record) && RecordInv(cfg, sh.log, pc, record, facts) && LineInv(cfg, sh.log, facts)
    ensures LineInv(cfg, Act(cfg, sh, pc, ch).0.log, Moved(facts, record, Meets(cfg, sh, pc, ch)))
  {
    hide Due, Meets, Act, Suits, Dutiful, IsDue, Deeds, LineOf, LineInv;
    var log, fact := Act(cfg, sh, pc, ch).0.log, Meets(cfg, sh, pc, ch);
    var more := Moved(facts, record, fact);
    LogStays(cfg, sh, pc, ch);
    LinesGrow(cfg, sh.log, facts, more);
    if log != sh.log {
      var d := Logs(LineOf(log[|sh.log|]));
      assert d in Deeds(cfg, pc, ch);
      DeedsAreDue(cfg, sh, pc, ch, record, d);
      if d in record.due { DueGrows(cfg, facts, more, d); } else { MetIsDue(cfg, more, Origin(record), fact, d); }
      LinesAppend(cfg, sh.log, log[|sh.log|], more);
    }
  }

  lemma MoveFacts(cfg: Config, sh: Shared, pc: Pc, ch: Choice, record: Record, facts: set<(Fact, Fact)>)
    requires RecordInv(cfg, sh.log, pc, record, facts) && FactInv(sh.log, facts)
    ensures FactInv(Act(cfg, sh, pc, ch).0.log, Moved(facts, record, Meets(cfg, sh, pc, ch)))
  {
    hide Meets, Act, Suits, FactSuits, IsDue, Deeds, LineOf;
    PointSuits(cfg, sh, pc, ch, Origin(record));
    LogStays(cfg, sh, pc, ch);
    FactsGrow(sh.log, Act(cfg, sh, pc, ch).0.log, facts);
  }

  lemma AdvanceKeepsCauses(cfg: Config, s: State, r: nat, ch: Choice, book: map<nat, Record>, facts: set<(Fact, Fact)>)
    requires CauseInv(cfg, s, book, facts) && r in s.reqs
    ensures var record := Recorded(cfg, s.sh, s.reqs[r], ch, book[r]);
            CauseInv(cfg, Do(cfg, s, Advance(r, ch)), book[r := record], Moved(facts, book[r], Meets(cfg, s.sh, s.reqs[r], ch)))
  {
    hide Act, Recorded, Dutiful, RecordInv, LineInv, FactInv, Meets;
    var pc, record := s.reqs[r], Recorded(cfg, s.sh, s.reqs[r], ch, book[r]);
    var (next, pc') := Act(cfg, s.sh, pc, ch);
    var more := Moved(facts, book[r], Meets(cfg, s.sh, pc, ch));
    StepIsDutiful(cfg, s.sh, pc, ch, book[r]);
    MoveRecorded(cfg, s.sh, pc, ch, book[r], facts);
    MoveLines(cfg, s.sh, pc, ch, book[r], facts);
    MoveFacts(cfg, s.sh, pc, ch, book[r], facts);
    LogStays(cfg, s.sh, pc, ch);
    forall q | q in s.reqs && q != r ensures RecordInv(cfg, next.log, s.reqs[q], book[q], more) {
      RecordGrows(cfg, s.sh.log, next.log, s.reqs[q], book[q], facts, more);
    }
  }

  lemma BeginKeepsCauses(cfg: Config, s: State, r: nat, request: Request, book: map<nat, Record>, facts: set<(Fact, Fact)>)
    requires CauseInv(cfg, s, book, facts)
    ensures var began := Began(request);
            CauseInv(cfg, s.(reqs := s.reqs[r := Entry(request)]), book[r := Opened(cfg, began)], facts + {(began, began)})
  {
    hide Dutiful, LineInv, IsDue, Due;
    var began, more := Began(request), facts + {(Began(request), Began(request))};
    EntryIsDutiful(cfg, request);
    LinesGrow(cfg, s.sh.log, facts, more);
    EntrySuits(s.sh.log, request);
    forall d | d in Due(cfg, began) ensures IsDue(cfg, more, d) { MetIsDue(cfg, more, began, Some(began), d); }
    forall q | q in s.reqs && q != r ensures RecordInv(cfg, s.sh.log, s.reqs[q], book[q], more) {
      RecordGrows(cfg, s.sh.log, s.sh.log, s.reqs[q], book[q], facts, more);
    }
  }

  lemma EntrySuits(log: seq<Event>, request: Request)
    ensures Suits(log, Began(request), Entry(request))
  {
  }

  lemma StartHasCauses(cfg: Config)
    ensures CauseInv(cfg, Init(cfg), Book(cfg, []), Facts(cfg, []))
  {
    hide Dutiful, IsDue, Due;
    StartIsDutiful(cfg);
    var facts := Facts(cfg, []);
    forall d | d in Due(cfg, Started) ensures IsDue(cfg, facts, d) { MetIsDue(cfg, facts, Started, Some(Started), d); }
  }

  lemma RestartKeepsCauses(cfg: Config, s: State, appended: bool, book: map<nat, Record>, facts: set<(Fact, Fact)>)
    requires CauseInv(cfg, s, book, facts)
    ensures CauseInv(cfg, Do(cfg, s, Restart(appended)), map[], facts)
  {
    hide LineInv, FactInv, Recover;
    LinesAppend(cfg, s.sh.log, Note(DispatchInterrupted, ""), facts);
    FactsGrow(s.sh.log, s.sh.log + [Note(DispatchInterrupted, "")], facts);
  }

  lemma {:induction false} CausesAlways(cfg: Config, steps: seq<Step>)
    ensures CauseInv(cfg, Exec(cfg, steps), Book(cfg, steps), Facts(cfg, steps))
    decreases |steps|
  {
    hide Act, Recorded, CauseInv, Entry, Opened, Reboot, Admissible, Meets;
    if steps == [] {
      StartHasCauses(cfg);
    } else {
      var rest, last := steps[..|steps| - 1], steps[|steps| - 1];
      CausesAlways(cfg, rest);
      var s, book, facts := Exec(cfg, rest), Book(cfg, rest), Facts(cfg, rest);
      assert book.Keys == s.reqs.Keys by { DutyAlways(cfg, rest); }
      match last
      case Begin(r, request) =>
        BeginKeepsCauses(cfg, s, r, request, book, facts);
        assert facts + {} == facts;
      case Advance(r, ch) =>
        if r in s.reqs { AdvanceKeepsCauses(cfg, s, r, ch, book, facts); }
        assert facts + {} == facts;
      case Restart(appended) =>
        RestartKeepsCauses(cfg, s, appended, book, facts);
        assert facts + {} == facts;
    }
  }

  /** Every line of the log is due on something that a request met, but for the note a restart leaves. */
  lemma EveryLineIsDue(cfg: Config, steps: seq<Step>, e: Event) returns (p: (Fact, Fact))
    requires e in Exec(cfg, steps).sh.log && e != Note(DispatchInterrupted, "")
    ensures p in Facts(cfg, steps) && Logs(LineOf(e)) in Due(cfg, p.1)
    ensures FactSuits(Exec(cfg, steps).sh.log, p.0, p.1) && (p.0, p.0) in Facts(cfg, steps)
  {
    hide Due, Exec, Book, FactSuits, LineOf, Facts;
    CausesAlways(cfg, steps);
    assert IsDue(cfg, Facts(cfg, steps), Logs(LineOf(e)));
    p :| p in Facts(cfg, steps) && Logs(LineOf(e)) in Due(cfg, p.1);
  }
}
