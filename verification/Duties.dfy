/** What requests meet and what is due on it: an answer, a reply, the state of the log or of a command makes certain deeds
    due. That requests do exactly these is the subject of `DutyLaw`. */
module Duties {
  import opened Model
  import opened Control
  import opened Actions
  import opened Protocol

  /** A line of the log, but for the time a request for approval expires and the command a report carries. */
  datatype Line =
    | Report(source: Source, kind: Kind, suffix: CommandState)
    | Asks(task: string, action: Action, digest: Digest, scope: string, actors: seq<string>)
    | Says(e: Event)

  function LineOf(e: Event): Line {
    match e
    case CommandEvent(source, kind, suffix, _) => Report(source, kind, suffix)
    case ApprovalRequested(task, action, digest, scope, _, actors) => Asks(task, action, digest, scope, actors)
    case _ => Says(e)
  }

  /** What a request does to the controller, the log, the adapter and the claims, and what it reads. */
  datatype Deed =
    | Schedules(cont: Cont)
    | Walks(seen: seq<Event>, i: nat, cont: Cont)
    | Surveys(applied: bool)
    | Reads
    | Looks(key: string)
    | LooksAll
    | Checks(task: string, token: nat)
    | Creates(cmd: Command)
    | Fences(key: string, task: string)
    | Moves(key: string, to: CommandState)
    | Stops
    | Calls(call: Call)
    | Polls
    | Claims(d: Digest)
    | Releases(d: Digest)
    | Logs(line: Line)

  /** What a request meets. */
  datatype Fact =
    | Started // the run begins
    | Began(request: Request)
    | Goes(cont: Cont, next: Option<nat>) // the next task that is due, if there is one
    | Unasked(i: nat) // a guarded task is not granted and its approval was never asked for
    | Free(job: Job) // nothing keeps the job from looking for its command
    | Absent(job: Job) // there is no such command
    | Current(job: Job) // the control's token is the current one
    | Made(job: Job) // the command was created
    | ReplyTo(job: Job, reply: Reply)
    | Picked(key: string) // a command of the task is acknowledged
    | Taken(key: string) // and still was when it was to be polled
    | Answer(task: string, key: string, result: Observation)
    | AllThere // every task of the plan is completed
    | Permitted(d: Digest, grant: bool, actor: string) // the actor may decide, and nobody has
    | Won(d: Digest, grant: bool, task: string) // the decision is claimed
    | Unsettled(key: string, disposition: Disposition) // the command has an unknown outcome
    | Resolved(key: string, task: string, disposition: Disposition) // and is reconciled
    | Surveyed(failed: bool, applied: bool) // no outcome is unknown any more
    | Broke(cont: Cont) // a pass ends with an error
    | Stuck // a control ends with an error
    | Unclaimed(d: Digest) // a claimed decision could not be logged

  // ---- how commands are named

  /** The names a command bears, in the log and to the adapter. */
  lemma CommandsAreNamed(cfg: Config, job: Job)
    ensures JobKey(cfg, job) ==
            match job
            case DispatchJob(_, i, _) => cfg.run + ":" + PlannedAt(cfg, i).id + ":dispatch"
            case ControlJob(_, key, _, _) => key
            case RetryJob(key, task, _) => cfg.run + ":" + task + ":dispatch" + ":retry:" + key
    ensures JobKind(job) ==
            match job
            case DispatchJob(_, _, _) => Dispatch
            case ControlJob(kind, _, _, _) => kind
            case RetryJob(_, _, _) => DispatchRetry
    ensures JobSource(job) == match job case ControlJob(_, _, _, _) => ByControl case _ => ByCommand
    ensures NewCommand(cfg, job) ==
            Command(JobKey(cfg, job), JobKey(cfg, job), JobTask(cfg, job), Requested,
                    match job
                    case DispatchJob(_, _, _) => 0
                    case ControlJob(_, _, _, token) => token
                    case RetryJob(_, _, token) => token,
                    "", "", 0, 0)
    ensures JobTask(cfg, job) ==
            match job
            case DispatchJob(_, i, _) => PlannedAt(cfg, i).id
            case ControlJob(_, _, task, _) => if task == "" then "run" else task
            case RetryJob(_, task, _) => task
  {
  }

  // ---- what is due

  function Say(cfg: Config, what: NoteKind, task: string): Deed {
    Logs(Says(Note(what, cfg.redact(task))))
  }

  /** How a scheduling pass ends for the one who called it. */
  function EndDue(cfg: Config, ok: bool, cont: Cont): seq<Deed> {
    match cont
    case FromStart => if ok then [] else [Say(cfg, DispatchFailed, "")]
    case FromApproval => if ok then [] else [Say(cfg, DispatchFailed, "")]
    case FromResult => if ok then Counting(cfg, 0) else []
    case FromReconcile => [Surveys(true)]
  }

  /** The log is read once for every task from `i` on, and once more. */
  function Counting(cfg: Config, i: nat): seq<Deed>
    decreases |cfg.plan| - i
  {
    [Reads] + if i < |cfg.plan| then Counting(cfg, i + 1) else []
  }

  /** What the report of a command's new state is followed by; after a dispatch, whatever its outcome, come the tasks that
      stand behind. */
  function Aftermath(cfg: Config, job: Job, to: CommandState): seq<Deed> {
    var task := JobTask(cfg, job);
    match job
    case DispatchJob(seen, i, cont) =>
      [if to == Acknowledged then Say(cfg, TaskDelegated, task)
       else if to == Failed then Say(cfg, DispatchFailed, "") else Say(cfg, DispatchInterrupted, ""),
       Walks(seen, i + 1, cont)]
    case RetryJob(_, _, _) => []
    case ControlJob(kind, key, named, token) =>
      if to != Acknowledged then []
      else if kind == Halt then [Logs(Says(EmergencyStopped))]
      else if kind == Retry then
        [Say(cfg, TaskControlled, task), Say(cfg, DispatchResumed, task), Creates(NewCommand(cfg, RetryJob(key, named, token)))]
      else if kind == Reassign then [Say(cfg, TaskControlled, task), Say(cfg, RoutingDecided, task)]
      else [Say(cfg, TaskControlled, task)]
  }

  function Reports(cfg: Config, job: Job, to: CommandState): seq<Deed> {
    [Logs(Report(JobSource(job), JobKind(job), to))] + Aftermath(cfg, job, to)
  }

  /** The command is moved to its new state, which is reported. */
  function Marks(cfg: Config, job: Job, to: CommandState): seq<Deed> {
    [Moves(JobKey(cfg, job), to)] + Reports(cfg, job, to)
  }

  /** What is done about a command once its request is logged. */
  function AskedDue(cfg: Config, job: Job): seq<Deed> {
    if job.RetryJob? then Marks(cfg, job, Acknowledged)
    else if job.ControlJob? && job.kind == Halt then [Stops] + Marks(cfg, job, Acknowledged)
    else [Calls(Call(JobKind(job), JobKey(cfg, job), JobTask(cfg, job)))]
  }

  /** And once it is created. */
  function MadeDue(cfg: Config, job: Job): seq<Deed> {
    (if job.DispatchJob? || (job.ControlJob? && (job.kind == Resume || job.kind == Retry || job.kind == Reassign))
     then [Fences(JobKey(cfg, job), JobTask(cfg, job))] else [])
    + RequestDue(cfg, job)
  }

  function RequestDue(cfg: Config, job: Job): seq<Deed> {
    [Logs(Report(JobSource(job), JobKind(job), Requested))] + AskedDue(cfg, job)
  }

  /** What an adapter's reply makes due. */
  function ReplyDue(cfg: Config, job: Job, reply: Reply): seq<Deed> {
    match reply
    case Accepted => Marks(cfg, job, Acknowledged)
    case Refused => Marks(cfg, job, Failed)
    case Unknown => [Moves(JobKey(cfg, job), Acknowledged)] + Marks(cfg, job, OutcomeUnknown)
  }

  function Settled(cfg: Config, task: string, to: CommandState): seq<Deed> {
    [Logs(Report(ByCommand, Dispatch, to))] +
    if to == Completed then [Logs(Says(TaskCompleted(cfg.redact(task)))), Schedules(FromResult)]
    else if to == Failed then [Say(cfg, TaskFailed, task), Say(cfg, DispatchFailed, "")]
    else [Say(cfg, TaskCancelled, task), Say(cfg, DispatchCancelled, "")]
  }

  /** What the answer to a result check makes due. */
  function AnswerDue(cfg: Config, task: string, key: string, result: Observation): seq<Deed> {
    match result
    case ResultCompleted => [Moves(key, Completed)] + Settled(cfg, task, Completed)
    case ResultFailed => [Moves(key, Failed)] + Settled(cfg, task, Failed)
    case ResultCancelled => [Moves(key, Cancelled)] + Settled(cfg, task, Cancelled)
    case NoResult => [Moves(key, Acknowledged)]
  }

  function DecisionDue(cfg: Config, d: Digest, grant: bool, task: string): seq<Deed> {
    [Logs(Says(ApprovalDecided(d, grant)))] +
    if !grant then [Say(cfg, DispatchFailed, task)]
    else if task != "" then [Say(cfg, DispatchResumed, task), Schedules(FromApproval)]
    else []
  }

  function UnsettledDue(cfg: Config, key: string, disposition: Disposition): seq<Deed> {
    [Say(cfg, ReconciliationRequested, "")] +
    if disposition == StillUnknown then [Say(cfg, ReconciliationStillUnknown, "")] else [Moves(key, Reconciled)]
  }

  function ResolvedDue(cfg: Config, task: string, disposition: Disposition): seq<Deed> {
    [Say(cfg, ReconciliationCompleted, "")] +
    if disposition == Applied then [Logs(Says(TaskCompleted(cfg.redact(task)))), Schedules(FromReconcile)]
    else [Say(cfg, RetryAllowed, task), Surveys(false)]
  }

  function BeginDue(request: Request): seq<Deed> {
    match request
    case CheckResult(_) => [LooksAll]
    case Decide(_, _, _) => [Reads]
    case ControlTask(kind, key, _, _) => [if kind == Retry then LooksAll else Looks(key)]
    case Reconcile(key, _) => [Looks(key)]
  }

  ghost function Due(cfg: Config, fact: Fact): seq<Deed> {
    match fact
    case Started => [Say(cfg, DispatchStarted, ""), Schedules(FromStart)]
    case Began(request) => BeginDue(request)
    case Free(job) => [Looks(JobKey(cfg, job))]
    case Absent(job) =>
      if job.ControlJob? && job.kind != Halt then [Checks(JobTask(cfg, job), JobToken(job))] else [Creates(NewCommand(cfg, job))]
    case Current(job) => [Creates(NewCommand(cfg, job))]
    case Made(job) => MadeDue(cfg, job)
    case ReplyTo(job, reply) => ReplyDue(cfg, job, reply)
    case Picked(key) => [Moves(key, Polling)]
    case Taken(key) => [Polls]
    case Answer(task, key, result) => AnswerDue(cfg, task, key, result)
    case AllThere => [Say(cfg, DispatchCompleted, "")]
    case Permitted(d, _, _) => [Claims(d)]
    case Won(d, grant, task) => DecisionDue(cfg, d, grant, task)
    case Unsettled(key, disposition) => UnsettledDue(cfg, key, disposition)
    case Resolved(key, task, disposition) => ResolvedDue(cfg, task, disposition)
    case Surveyed(failed, applied) => if failed then [Say(cfg, DispatchFailed, "")] else if applied then [Reads] else []
    case Goes(cont, Some(i)) =>
      if PlannedAt(cfg, i).agent.None? then EndDue(cfg, false, cont) else [Say(cfg, RoutingDecided, PlannedAt(cfg, i).id)]
    case Goes(cont, None) => EndDue(cfg, true, cont)
    case Unasked(i) =>
      var t := PlannedAt(cfg, i);
      [Logs(Asks(cfg.redact(t.id), t.action, DigestOf(t.action), cfg.redact(t.action.scope), ["local-owner"]))]
    case Broke(cont) => EndDue(cfg, false, cont)
    case Stuck => []
    case Unclaimed(d) => [Releases(d)]
  }

  // ---- what a request meets at a step

  /** The task was completed, is out with an agent, or waits for another. */
  predicate Handled(seen: seq<Event>, t: Planned) {
    TaskCompleted(t.id) in seen || IsActive(seen, t.id) || exists d | d in t.deps :: TaskCompleted(d) !in seen
  }

  /** The first task from `i` on that is due. */
  predicate IsNext(cfg: Config, seen: seq<Event>, i: nat, j: nat) {
    i <= j < |cfg.plan| && !Handled(seen, cfg.plan[j]) && forall n | i <= n < j :: Handled(seen, cfg.plan[n])
  }

  ghost function NextTask(cfg: Config, seen: seq<Event>, i: nat): Option<nat> {
    if exists j: nat :: IsNext(cfg, seen, i, j) then
      var j: nat :| IsNext(cfg, seen, i, j); Some(j)
    else None
  }

  ghost function Landing(cfg: Config, next: Next): Option<Fact> {
    match next
    case ToWalk(seen, i, cont) => Some(Goes(cont, NextTask(cfg, seen, i)))
    case ToEnd(ok, cont) => Some(if ok then Goes(cont, None) else Broke(cont))
    case _ => None
  }

  predicate InState(ctl: Ctl, key: string, state: CommandState) {
    key in ctl.commands && ctl.commands[key].state == state
  }

  /** Who may decide on a request for approval, and until when. */
  ghost predicate MayDecide(e: Event, d: Digest, actor: string, now: int) {
    && e.ApprovalRequested?
    && (if actor == "" then "local-owner" else actor) in (if e.actors == [] then ["local-owner"] else e.actors)
    && now < e.expires
    && DigestOf(e.action) == d
    && e.action.scope != "" && (e.scope == "" || e.scope == e.action.scope)
  }

  ghost function MetInPass(cfg: Config, sh: Shared, cont: Cont, pass: PassStage): Option<Fact> {
    match pass
    case Reading => Some(Goes(cont, if cfg.loaded then NextTask(cfg, sh.log, 0) else None))
    case Routing(seen, i) =>
      var t := PlannedAt(cfg, i);
      if !t.guarded || ApprovalDecided(DigestOf(t.action), true) in seen then Some(Free(DispatchJob(seen, i, cont)))
      else if IsRequested(seen, DigestOf(t.action)) then Some(Goes(cont, None))
      else Some(Unasked(i))
    case Asking(_, _) => Some(Goes(cont, None))
  }

  /** Where a command's way goes on when the command is there already. */
  ghost function Passed(cfg: Config, job: Job): Option<Fact> {
    if job.DispatchJob? then Some(Goes(job.cont, NextTask(cfg, job.seen, job.i + 1))) else None
  }

  /** Where a command's way goes on after an error. */
  function Broken(job: Job): Fact {
    if job.DispatchJob? then Broke(job.cont) else Stuck
  }

  ghost function MetInJob(cfg: Config, sh: Shared, job: Job, stage: JobStage, ch: Choice): Option<Fact> {
    match stage
    case RetryGuard =>
      if job.ControlJob? && exists k | k in sh.ctl.commands ::
           sh.ctl.commands[k].task == job.task && sh.ctl.commands[k].state == OutcomeUnknown then None
      else Some(Free(job))
    case Probe =>
      if JobKey(cfg, job) in sh.ctl.commands then Passed(cfg, job)
      else if job.ControlJob? && job.kind != Halt && (job.task == "" || job.token == 0) then None
      else Some(Absent(job))
    case Token =>
      if !sh.ctl.stopped && JobToken(job) != 0 && JobToken(job) == Fence(sh.ctl, JobTask(cfg, job)) then Some(Current(job))
      else None
    case Create =>
      var made := RequestOnce(sh.ctl, NewCommand(cfg, job), ch.now).1;
      if made.Created? then Some(Made(job))
      else if made.Existing? then Passed(cfg, job)
      else Some(Broken(job))
    case Rotating =>
      if Rotate(sh.ctl, JobKey(cfg, job), JobTask(cfg, job), ch.now).1.None? then Some(Broken(job)) else None
    case CallOut => Some(ReplyTo(job, ch.reply))
    case _ => None
  }

  ghost function MetInCheck(cfg: Config, sh: Shared, task: string, check: CheckStage, ch: Choice): Option<Fact> {
    match check
    case Picking =>
      if InState(sh.ctl, ch.pick, Acknowledged)
         && (sh.ctl.commands[ch.pick].task == task || ch.pick == DispatchKey(cfg, task)) then Some(Picked(ch.pick))
      else None
    case Poll(key) => if InState(sh.ctl, key, Acknowledged) then Some(Taken(key)) else None
    case Polled(key) => Some(Answer(task, key, ch.observed))
    case CheckAll(i, all) => if i >= |cfg.plan| && all then Some(AllThere) else None
    case _ => None
  }

  ghost function MetInDecision(sh: Shared, d: Digest, grant: bool, decide: DecideStage, ch: Choice): Option<Fact> {
    match decide
    case ReadRequest(actor) =>
      var e := LastRequest(sh.log, d);
      if e.Some? && MayDecide(e.value, d, actor, ch.now)
         && ApprovalDecided(d, true) !in sh.log && ApprovalDecided(d, false) !in sh.log then Some(Permitted(d, grant, actor))
      else None
    case Claiming(task) => if d in sh.claims then None else Some(Won(d, grant, task))
    case _ => None
  }

  ghost function MetInReconcile(cfg: Config, sh: Shared, reconcile: ReconcileStage): Option<Fact> {
    match reconcile
    case ProbeUnknown(key, disposition) =>
      if InState(sh.ctl, key, OutcomeUnknown) then Some(Unsettled(key, disposition)) else None
    case Resolve(key, disposition) =>
      if InState(sh.ctl, key, OutcomeUnknown) then Some(Resolved(key, sh.ctl.commands[key].task, disposition)) else None
    case Survey(applied) =>
      if exists k | k in sh.ctl.commands :: sh.ctl.commands[k].state == OutcomeUnknown then None
      else Some(Surveyed(exists k | k in sh.ctl.commands :: sh.ctl.commands[k].state == Failed, applied))
    case SurveyLog =>
      if cfg.loaded && forall t | t in cfg.plan :: TaskCompleted(t.id) in sh.log then Some(AllThere) else None
  }

  /** What a request meets when its append fails. */
  ghost function Failure(cfg: Config, pc: Pc): Option<Fact> {
    match pc
    case Notes(_, _, abort) => Landing(cfg, abort)
    case InPass(cont, _) => Some(Broke(cont))
    case InJob(job, _) => Some(Broken(job))
    case InDecision(d, _, _) => Some(Unclaimed(d))
    case _ => None
  }

  ghost function Met(cfg: Config, sh: Shared, pc: Pc, ch: Choice): Option<Fact> {
    match pc
    case Done => None
    case Notes(events, next, _) => if |events| <= 1 then Landing(cfg, next) else None
    case InPass(cont, pass) => MetInPass(cfg, sh, cont, pass)
    case InJob(job, stage) => MetInJob(cfg, sh, job, stage, ch)
    case InCheck(task, check) => MetInCheck(cfg, sh, task, check, ch)
    case InDecision(d, grant, decide) => MetInDecision(sh, d, grant, decide, ch)
    case InReconcile(reconcile) => MetInReconcile(cfg, sh, reconcile)
  }

  // ---- what a request does at a step

  function DeedOf(cfg: Config, op: Op, appended: bool): seq<Deed> {
    match op
    case Nothing => []
    case ReadLog => [Reads]
    case Append(e) => if appended then [Logs(LineOf(Scrub(cfg, e)))] else []
    case Look(key) => [Looks(key)]
    case LookAll => [LooksAll]
    case CreateCommand(cmd) => [Creates(cmd)]
    case RotateFence(key, task) => [Fences(key, task)]
    case Move(key, to) => [Moves(key, to)]
    case CheckToken(task, token) => [Checks(task, token)]
    case StopAll => [Stops]
    case Adapter(call) => [Calls(call)]
    case AskResult => [Polls]
    case Claim(d) => [Claims(d)]
    case Release(d) => [Releases(d)]
  }

  /** A pass that was left for a command is taken up again. */
  function Handing(next: Next): seq<Deed> {
    match next
    case ToWalk(seen, i, cont) => [Walks(seen, i, cont)]
    case _ => []
  }

  ghost function Deeds(cfg: Config, pc: Pc, ch: Choice): seq<Deed> {
    match pc
    case InPass(cont, Reading) => [Schedules(cont)]
    case InReconcile(Survey(applied)) => [Surveys(applied)]
    case Notes(events, next, _) =>
      DeedOf(cfg, OpOf(cfg, pc, ch.now), ch.appended)
      + if events == [] || (|events| == 1 && ch.appended) then Handing(next) else []
    case _ => DeedOf(cfg, OpOf(cfg, pc, ch.now), ch.appended)
  }
}
