/** The dispatch protocol of one run as a state machine. Requests run concurrently; every call on the controller, every
    append to the log, every look at the log and every block under the server's lock is one atomic step. Adapters answer
    as they please, appends may fail, and a restart drops everything but the log. */
module Protocol {
  import opened Model
  import opened Ordering
  import opened Control
  import opened Actions

  // ---- what a run is scheduled from

  /** One task of the frozen graph with everything the frozen catalog decides about it: the agent it routes to, if any,
      and the action that must be approved when one of its capabilities has side effects. */
  datatype Planned = Planned(id: string, deps: seq<string>, agent: Option<string>, guarded: bool, action: Action)

  /** `plan` is in scheduling order; `loaded` says that both the graph and the catalog are at hand. `redact` is what the
      store does to every string before it keeps it. */
  datatype Config = Config(run: string, plan: seq<Planned>, loaded: bool, bound: nat, redact: string -> string)

  function DispatchKey(cfg: Config, task: string): string {
    cfg.run + ":" + task + ":dispatch"
  }

  function RetryKey(cfg: Config, task: string, key: string): string {
    DispatchKey(cfg, task) + ":retry:" + key
  }

  // ---- the log

  datatype Source = ByCommand | ByControl

  datatype Kind = Dispatch | DispatchRetry | Pause | Resume | Cancel | Retry | Reassign | Halt

  /** The part of a command that its events carry. */
  datatype Logged = Logged(id: string, key: string, task: string, state: CommandState, fence: nat)

  datatype NoteKind =
    | DispatchStarted | DispatchResumed | DispatchCompleted | DispatchFailed | DispatchCancelled | DispatchInterrupted
    | RoutingDecided | TaskDelegated | TaskFailed | TaskCancelled | TaskControlled | RetryAllowed
    | ReconciliationRequested | ReconciliationStillUnknown | ReconciliationCompleted

  /** `CommandEvent` is the event named `source.suffix`; its data is empty when the transition it reports was refused. */
  datatype Event =
    | CommandEvent(source: Source, kind: Kind, suffix: CommandState, cmd: Option<Logged>)
    | TaskCompleted(task: string)
    | ApprovalRequested(task: string, action: Action, digest: Digest, scope: string, expires: int, actors: seq<string>)
    | ApprovalDecided(digest: Digest, granted: bool)
    | EmergencyStopped
    | Note(what: NoteKind, task: string)

  function LoggedOf(c: Command): Logged {
    Logged(c.id, c.key, c.task, c.state, c.fence)
  }

  function LoggedOption(c: Option<Command>): Option<Logged> {
    if c.Some? then Some(LoggedOf(c.value)) else None
  }

  function Scrub(cfg: Config, e: Event): Event {
    match e
    case CommandEvent(source, kind, suffix, Some(c)) =>
      CommandEvent(source, kind, suffix, Some(c.(id := cfg.redact(c.id), key := cfg.redact(c.key), task := cfg.redact(c.task))))
    case TaskCompleted(task) => TaskCompleted(cfg.redact(task))
    case ApprovalRequested(task, action, digest, scope, expires, actors) =>
      ApprovalRequested(cfg.redact(task), action, digest, cfg.redact(scope), expires, actors)
    case Note(what, task) => Note(what, cfg.redact(task))
    case _ => e
  }

  // ---- what the scheduler reads from the log

  predicate IsCompleted(log: seq<Event>, task: string) {
    TaskCompleted(task) in log
  }

  /** The last word of the log on whether the task was handed out and not yet settled. */
  predicate IsActive(log: seq<Event>, task: string)
    decreases |log|
  {
    if log == [] then false
    else
      var e := log[|log| - 1];
      if e.CommandEvent? && e.source == ByCommand && TaskOf(e) == task && e.suffix == Acknowledged then true
      else if e.CommandEvent? && e.source == ByCommand && TaskOf(e) == task
              && (e.suffix == Completed || e.suffix == Cancelled || e.suffix == Failed || e.suffix == OutcomeUnknown) then false
      else IsActive(log[..|log| - 1], task)
  }

  function TaskOf(e: Event): string
    requires e.CommandEvent?
  {
    if e.cmd.Some? then e.cmd.value.task else ""
  }

  predicate IsRequested(log: seq<Event>, d: Digest) {
    exists e | e in log :: e.ApprovalRequested? && e.digest == d
  }

  predicate IsGranted(log: seq<Event>, d: Digest) {
    ApprovalDecided(d, true) in log
  }

  predicate IsDecided(log: seq<Event>, d: Digest) {
    ApprovalDecided(d, true) in log || ApprovalDecided(d, false) in log
  }

  /** The first decision on a digest: what an approval request that comes late is answered. */
  function FirstDecision(log: seq<Event>, d: Digest): (r: Option<bool>)
    ensures r.None? <==> !IsDecided(log, d)
    ensures r.Some? ==> ApprovalDecided(d, r.value) in log
  {
    if log == [] then None
    else if log[0].ApprovalDecided? && log[0].digest == d then Some(log[0].granted)
    else FirstDecision(log[1..], d)
  }

  predicate DepsCompleted(log: seq<Event>, deps: seq<string>) {
    forall d | d in deps :: IsCompleted(log, d)
  }

  /** The most recent request for a digest. */
  function LastRequest(log: seq<Event>, d: Digest): Option<Event>
    decreases |log|
  {
    if log == [] then None
    else if log[|log| - 1].ApprovalRequested? && log[|log| - 1].digest == d then Some(log[|log| - 1])
    else LastRequest(log[..|log| - 1], d)
  }

  // ---- recovery

  /** The latest command state the log holds for every idempotency key. */
  function Latest(log: seq<Event>): map<string, Command>
    decreases |log|
  {
    if log == [] then map[]
    else
      var m := Latest(log[..|log| - 1]);
      var e := log[|log| - 1];
      if e.CommandEvent? && e.cmd.Some? && e.cmd.value.key != "" && e.cmd.value.id != "" && e.cmd.value.task != "" then
        var c := e.cmd.value;
        m[c.key := Command(c.id, c.key, c.task, c.state, c.fence, "", "", 0, 0)]
      else m
  }

  ghost function Listing(m: map<string, Command>): seq<Command> {
    ListKeys(SortedBag(multiset(m.Keys)), m)
  }

  function ListKeys(keys: seq<string>, m: map<string, Command>): seq<Command> {
    if keys == [] then []
    else if keys[0] in m then [m[keys[0]]] + ListKeys(keys[1..], m)
    else ListKeys(keys[1..], m)
  }

  ghost function Recover(cfg: Config, log: seq<Event>): Ctl {
    var c := RestoreCommands(NewCtl(cfg.bound), Listing(Latest(log))).0;
    if EmergencyStopped in log then RestoreEmergencyStop(c, "") else c
  }

  // ---- the shared state

  /** A call on the adapter that acts: never repeated by the adapter itself. */
  datatype Call = Call(kind: Kind, key: string, task: string)

  /** `calls` and `rotated` (keys whose fence was issued by rotation) only record what happened, and so does `skewed`: the
      commands whose last report to the log went wrong and was not made good by a later one (`AfterReport`,
      `AfterRefusal`). */
  datatype Shared = Shared(
    log: seq<Event>,
    ctl: Ctl,
    claims: set<Digest>,
    fatal: bool,
    calls: seq<Call>,
    rotated: set<string>,
    skewed: set<string>)

  datatype Op =
    | Nothing
    | ReadLog
    | Append(e: Event)
    | Look(key: string)
    | LookAll
    | CreateCommand(cmd: Command)
    | RotateFence(key: string, task: string)
    | Move(key: string, to: CommandState)
    | CheckToken(task: string, token: nat)
    | StopAll
    | Adapter(call: Call)
    | AskResult
    | Claim(d: Digest)
    | Release(d: Digest)

  datatype Reply = Accepted | Refused | Unknown

  datatype Observation = ResultCompleted | ResultFailed | ResultCancelled | NoResult

  /** Everything a step leaves open: whether an append succeeds, what the adapter answers, the clock, and the pick. */
  datatype Choice = Choice(appended: bool, reply: Reply, observed: Observation, now: int, pick: string)

  datatype Outcome =
    | Unit
    | Events(events: seq<Event>)
    | Appended(ok: bool)
    | Found(cmd: Option<Command>)
    | All(commands: map<string, Command>)
    | Creation(made: Control.Creation)
    | TokenOk(ok: bool)
    | Replied(reply: Reply)
    | Observed(result: Observation)
    | Claimed(ok: bool)

  /** How a state comes back from the log: polling is never logged, and a reconciliation is not logged as a command. */
  function Folded(s: CommandState): CommandState {
    match s
    case Polling => Acknowledged
    case Reconciled => OutcomeUnknown
    case _ => s
  }

  /** A command's event says what the command is now, or the command has moved on since the event was prepared. */
  predicate UpToDate(ctl: Ctl, c: Logged) {
    c.key in ctl.commands && Folded(ctl.commands[c.key].state) == c.state
  }

  /** A report goes wrong when it is appended although the command has moved on, or when it is up to date and not
      appended; an up-to-date report that is appended makes good. */
  function AfterReport(sh: Shared, e: Event, appended: bool): set<string> {
    if !(e.CommandEvent? && e.cmd.Some?) then sh.skewed
    else if appended != UpToDate(sh.ctl, e.cmd.value) then sh.skewed + {e.cmd.value.key}
    else if appended then sh.skewed - {e.cmd.value.key}
    else sh.skewed
  }

  /** The transition to an unknown outcome is refused while the command is being polled, and nobody looks at the error. */
  function AfterRefusal(sh: Shared, key: string, to: CommandState): set<string> {
    if to == OutcomeUnknown && key in sh.ctl.commands && sh.ctl.commands[key].state == Polling then sh.skewed + {key}
    else sh.skewed
  }

  function Effect(cfg: Config, sh: Shared, op: Op, ch: Choice): (Shared, Outcome) {
    match op
    case Nothing => (sh, Unit)
    case ReadLog => (sh, Events(sh.log))
    case Append(e) =>
      if ch.appended then (sh.(log := sh.log + [Scrub(cfg, e)], skewed := AfterReport(sh, e, true)), Appended(true))
      else (sh.(fatal := true, skewed := AfterReport(sh, e, false)), Appended(false))
    case Look(key) => (sh, Found(if key in sh.ctl.commands then Some(sh.ctl.commands[key]) else None))
    case LookAll => (sh, All(sh.ctl.commands))
    case CreateCommand(cmd) =>
      var (ctl, made) := RequestOnce(sh.ctl, cmd, ch.now);
      (sh.(ctl := ctl), Creation(made))
    case RotateFence(key, task) =>
      var (ctl, cmd) := Rotate(sh.ctl, key, task, ch.now);
      (sh.(ctl := ctl, rotated := if cmd.Some? then sh.rotated + {key} else sh.rotated), Found(cmd))
    case Move(key, to) =>
      var (ctl, cmd) := Transition(sh.ctl, key, to, "", "", ch.now);
      (sh.(ctl := ctl, skewed := AfterRefusal(sh, key, to)), Found(cmd))
    case CheckToken(task, token) => (sh, TokenOk(Commit(sh.ctl, task, token)))
    case StopAll => (sh.(ctl := EmergencyStop(sh.ctl, "")), Unit)
    case Adapter(call) => (sh.(calls := sh.calls + [call]), Replied(ch.reply))
    case AskResult => (sh, Observed(ch.observed))
    case Claim(d) => if d in sh.claims then (sh, Claimed(false)) else (sh.(claims := sh.claims + {d}), Claimed(true))
    case Release(d) => (sh.(claims := sh.claims - {d}), Unit)
  }

  // ---- program points

  /** Who called the scheduler. */
  datatype Cont = FromStart | FromApproval | FromResult | FromReconcile

  /** A command on its way from creation to its logged outcome. */
  datatype Job =
    | DispatchJob(seen: seq<Event>, i: nat, cont: Cont)
    | ControlJob(kind: Kind, key: string, task: string, token: nat)
    | RetryJob(key: string, task: string, token: nat)

  datatype Disposition = Applied | NotApplied | StillUnknown

  datatype Next =
    | Finish
    | ToSchedule(cont: Cont)
    | ToWalk(seen: seq<Event>, i: nat, cont: Cont)
    | ToEnd(ok: bool, cont: Cont)
    | ToCreate(job: Job)
    | ToResolve(key: string, disposition: Disposition)
    | ToSurvey(applied: bool)

  /** Points of a scheduling pass. `seen` is the log as the pass read it. */
  datatype PassStage = Reading | Routing(seen: seq<Event>, i: nat) | Asking(seen: seq<Event>, i: nat)

  /** Points on a command's way. */
  datatype JobStage =
    | RetryGuard
    | Probe
    | Token
    | Create
    | Rotating
    | LogRequest(cmd: Command)
    | CallOut
    | Stopping
    | Unsure
    | Mark(to: CommandState)
    | LogMark(logTo: CommandState, moved: Option<Command>)

  /** Points of a result check. */
  datatype CheckStage =
    | Picking
    | Poll(key: string)
    | Polled(key: string)
    | Unpoll(key: string)
    | Settle(key: string, to: CommandState)
    | LogSettle(logTo: CommandState, moved: Option<Command>)
    | CheckAll(i: nat, all: bool)

  /** Points of an approval decision. */
  datatype DecideStage =
    | ReadRequest(actor: string)
    | Answered(granted: bool)
    | Claiming(task: string)
    | LogDecision(task: string)
    | Releasing

  /** Points of a reconciliation. */
  datatype ReconcileStage =
    | ProbeUnknown(key: string, disposition: Disposition)
    | Resolve(key: string, disposition: Disposition)
    | Survey(applied: bool)
    | SurveyLog

  datatype Pc =
    | Done
    | Notes(events: seq<Event>, next: Next, abort: Next)
    | InPass(cont: Cont, pass: PassStage)
    | InJob(job: Job, stage: JobStage)
    | InCheck(task: string, check: CheckStage)
    | InDecision(digest: Digest, grant: bool, decide: DecideStage)
    | InReconcile(reconcile: ReconcileStage)

  function PlannedAt(cfg: Config, i: nat): Planned {
    if i < |cfg.plan| then cfg.plan[i] else Planned("", [], None, false, Action("", "", map[], map[], map[], "", ""))
  }

  function JobTask(cfg: Config, job: Job): string {
    match job
    case DispatchJob(_, i, _) => PlannedAt(cfg, i).id
    case ControlJob(_, _, task, _) => if task == "" then "run" else task
    case RetryJob(_, task, _) => task
  }

  function JobKey(cfg: Config, job: Job): string {
    match job
    case DispatchJob(_, i, _) => DispatchKey(cfg, PlannedAt(cfg, i).id)
    case ControlJob(_, key, _, _) => key
    case RetryJob(key, task, _) => RetryKey(cfg, task, key)
  }

  function JobKind(job: Job): Kind {
    match job
    case DispatchJob(_, _, _) => Dispatch
    case ControlJob(kind, _, _, _) => kind
    case RetryJob(_, _, _) => DispatchRetry
  }

  function JobSource(job: Job): Source {
    if job.ControlJob? then ByControl else ByCommand
  }

  function JobToken(job: Job): nat {
    if job.DispatchJob? then 0 else job.token
  }

  /** A control goes on under the token its rotation issued. */
  function WithToken(job: Job, token: nat): Job {
    match job
    case ControlJob(kind, key, task, _) => ControlJob(kind, key, task, token)
    case _ => job
  }

  predicate Rotates(job: Job) {
    job.DispatchJob? || (job.ControlJob? && (job.kind == Resume || job.kind == Retry || job.kind == Reassign))
  }

  function NewCommand(cfg: Config, job: Job): Command {
    var key := JobKey(cfg, job);
    Command(key, key, JobTask(cfg, job), Requested, JobToken(job), "", "", 0, 0)
  }

  ghost function DigestAt(cfg: Config, i: nat): Digest {
    DigestOf(PlannedAt(cfg, i).action)
  }

  // ---- control flow

  predicate SkipTask(seen: seq<Event>, t: Planned) {
    IsCompleted(seen, t.id) || IsActive(seen, t.id) || !DepsCompleted(seen, t.deps)
  }

  /** The scheduler's loop from task `i` on, up to its next effect. */
  function Walk(cfg: Config, seen: seq<Event>, i: nat, cont: Cont): Pc
    decreases |cfg.plan| - i
  {
    if i >= |cfg.plan| then End(true, cont)
    else if SkipTask(seen, cfg.plan[i]) then Walk(cfg, seen, i + 1, cont)
    else if cfg.plan[i].agent.None? then End(false, cont)
    else InPass(cont, Routing(seen, i))
  }

  /** The scheduler returns. */
  function End(ok: bool, cont: Cont): Pc {
    match cont
    case FromStart => if ok then Done else Notes([Note(DispatchFailed, "")], Finish, Finish)
    case FromApproval => if ok then Done else Notes([Note(DispatchFailed, "")], Finish, Finish)
    case FromResult => if ok then InCheck("", CheckAll(0, true)) else Done
    case FromReconcile => InReconcile(Survey(true))
  }

  /** Where the loop stops: at its end, or at the first task from `i` on that is due. */
  ghost predicate Stops(cfg: Config, seen: seq<Event>, i: nat, cont: Cont, pc: Pc) {
    || pc == End(true, cont) || pc == End(false, cont)
    || (pc.InPass? && pc.cont == cont && pc.pass.Routing? && pc.pass.seen == seen
        && i <= pc.pass.i < |cfg.plan| && !SkipTask(seen, cfg.plan[pc.pass.i]))
  }

  lemma {:induction false} WalkStops(cfg: Config, seen: seq<Event>, i: nat, cont: Cont)
    ensures Stops(cfg, seen, i, cont, Walk(cfg, seen, i, cont))
    decreases |cfg.plan| - i
  {
    if i < |cfg.plan| && SkipTask(seen, cfg.plan[i]) { WalkStops(cfg, seen, i + 1, cont); }
  }

  function Goto(cfg: Config, next: Next): Pc {
    match next
    case Finish => Done
    case ToSchedule(cont) => InPass(cont, Reading)
    case ToWalk(seen, i, cont) => Walk(cfg, seen, i, cont)
    case ToEnd(ok, cont) => End(ok, cont)
    case ToCreate(job) => InJob(job, Create)
    case ToResolve(key, disposition) => InReconcile(Resolve(key, disposition))
    case ToSurvey(applied) => InReconcile(Survey(applied))
  }

  /** Where a command's way ends when nothing more is to be done for it, and where it ends on an error. */
  function Proceed(job: Job): Next {
    if job.DispatchJob? then ToWalk(job.seen, job.i + 1, job.cont) else Finish
  }

  function Fail(job: Job): Next {
    if job.DispatchJob? then ToEnd(false, job.cont) else Finish
  }

  /** What is logged once the outcome of a command is. */
  function MarkNotes(cfg: Config, job: Job, to: CommandState): Pc {
    var task := JobTask(cfg, job);
    match job
    case DispatchJob(_, _, _) =>
      var what := if to == Acknowledged then TaskDelegated else if to == Failed then DispatchFailed else DispatchInterrupted;
      Notes([Note(what, if what == TaskDelegated then task else "")], Proceed(job), Fail(job))
    case ControlJob(kind, key, _, token) =>
      if to != Acknowledged then Done
      else if kind == Halt then Notes([EmergencyStopped], Finish, Finish)
      else if kind == Retry then
        Notes([Note(TaskControlled, task), Note(DispatchResumed, task)], ToCreate(RetryJob(key, job.task, token)), Finish)
      else if kind == Reassign then Notes([Note(TaskControlled, task), Note(RoutingDecided, task)], Finish, Finish)
      else Notes([Note(TaskControlled, task)], Finish, Finish)
    case RetryJob(_, _, _) => Done
  }

  function SettleNotes(task: string, to: CommandState): Pc {
    if to == Completed then Notes([TaskCompleted(task)], ToSchedule(FromResult), Finish)
    else if to == Failed then Notes([Note(TaskFailed, task), Note(DispatchFailed, "")], Finish, Finish)
    else Notes([Note(TaskCancelled, task), Note(DispatchCancelled, "")], Finish, Finish)
  }

  const SECOND: int := 1_000_000_000

  /** A quarter of an hour from now, written to the second. */
  function ExpiryAt(now: int): int {
    (now + 900 * SECOND) / SECOND * SECOND
  }

  function CommandName(job: Job, suffix: CommandState, c: Option<Command>): Event {
    CommandEvent(JobSource(job), JobKind(job), suffix, LoggedOption(c))
  }

  ghost function PassOp(cfg: Config, pass: PassStage, now: int): Op {
    match pass
    case Reading => ReadLog
    case Routing(_, i) => Append(Note(RoutingDecided, PlannedAt(cfg, i).id))
    case Asking(_, i) =>
      var t := PlannedAt(cfg, i);
      Append(ApprovalRequested(t.id, t.action, DigestAt(cfg, i), t.action.scope, ExpiryAt(now), ["local-owner"]))
  }

  function JobOp(cfg: Config, job: Job, stage: JobStage): Op {
    match stage
    case RetryGuard => LookAll
    case Probe => Look(JobKey(cfg, job))
    case Token => CheckToken(JobTask(cfg, job), JobToken(job))
    case Create => CreateCommand(NewCommand(cfg, job))
    case Rotating => RotateFence(JobKey(cfg, job), JobTask(cfg, job))
    case LogRequest(cmd) => Append(CommandName(job, Requested, Some(cmd)))
    case CallOut => Adapter(Call(JobKind(job), JobKey(cfg, job), JobTask(cfg, job)))
    case Stopping => StopAll
    case Unsure => Move(JobKey(cfg, job), Acknowledged)
    case Mark(to) => Move(JobKey(cfg, job), to)
    case LogMark(to, moved) => Append(CommandName(job, to, moved))
  }

  function CheckOp(check: CheckStage): Op {
    match check
    case Picking => LookAll
    case Poll(key) => Move(key, Polling)
    case Polled(_) => AskResult
    case Unpoll(key) => Move(key, Acknowledged)
    case Settle(key, to) => Move(key, to)
    case LogSettle(to, moved) => Append(CommandEvent(ByCommand, Dispatch, to, LoggedOption(moved)))
    case CheckAll(_, _) => ReadLog
  }

  function DecideOp(digest: Digest, grant: bool, decide: DecideStage): Op {
    match decide
    case ReadRequest(_) => ReadLog
    case Answered(_) => Nothing
    case Claiming(_) => Claim(digest)
    case LogDecision(_) => Append(ApprovalDecided(digest, grant))
    case Releasing => Release(digest)
  }

  function ReconcileOp(reconcile: ReconcileStage): Op {
    match reconcile
    case ProbeUnknown(key, _) => Look(key)
    case Resolve(key, _) => Move(key, Reconciled)
    case Survey(_) => LookAll
    case SurveyLog => ReadLog
  }

  ghost function OpOf(cfg: Config, pc: Pc, now: int): Op {
    match pc
    case Done => Nothing
    case Notes(events, _, _) => if events == [] then Nothing else Append(events[0])
    case InPass(_, pass) => PassOp(cfg, pass, now)
    case InJob(job, stage) => JobOp(cfg, job, stage)
    case InCheck(_, check) => CheckOp(check)
    case InDecision(digest, grant, decide) => DecideOp(digest, grant, decide)
    case InReconcile(reconcile) => ReconcileOp(reconcile)
  }

  ghost predicate AllCompleted(cfg: Config, log: seq<Event>) {
    forall t | t in cfg.plan :: IsCompleted(log, t.id)
  }

  /** Checks an approval decision against the log it read. */
  ghost function Review(events: seq<Event>, d: Digest, grant: bool, actor: string, now: int): Pc {
    match LastRequest(events, d)
    case None => Done
    case Some(e) =>
      if !e.ApprovalRequested? then Done
      else
        var scope := if e.scope == "" then e.action.scope else e.scope;
        var actors := if e.actors == [] then ["local-owner"] else e.actors;
        var who := if actor == "" then "local-owner" else actor;
        if !IsValidFor(Approval(d, who, scope, e.expires, actors), e.action, now) then Done
        else
          match FirstDecision(events, d)
          case Some(granted) => InDecision(d, grant, Answered(granted))
          case None => InDecision(d, grant, Claiming(e.task))
  }

  predicate Succeeded(out: Outcome) {
    out.Appended? && out.ok
  }

  function FoundCommand(out: Outcome): Option<Command> {
    if out.Found? then out.cmd else None
  }

  ghost function AfterPass(cfg: Config, cont: Cont, pass: PassStage, out: Outcome): Pc {
    match pass
    case Reading =>
      if !out.Events? then Done else if cfg.loaded then Walk(cfg, out.events, 0, cont) else End(true, cont)
    case Routing(seen, i) =>
      if !Succeeded(out) then End(false, cont)
      else if PlannedAt(cfg, i).guarded && !IsGranted(seen, DigestAt(cfg, i)) then
        if IsRequested(seen, DigestAt(cfg, i)) then End(true, cont) else InPass(cont, Asking(seen, i))
      else InJob(DispatchJob(seen, i, cont), Probe)
    case Asking(_, _) => End(Succeeded(out), cont)
  }

  /** Some command of the task has an unknown outcome. */
  predicate UnknownPending(commands: map<string, Command>, task: string) {
    exists k | k in commands :: commands[k].task == task && commands[k].state == OutcomeUnknown
  }

  function AfterJob(cfg: Config, job: Job, stage: JobStage, out: Outcome): Pc {
    match stage
    case RetryGuard =>
      if out.All? && job.ControlJob? && UnknownPending(out.commands, job.task) then Done else InJob(job, Probe)
    case Probe =>
      if FoundCommand(out).Some? then Goto(cfg, Proceed(job))
      else if job.ControlJob? && job.kind != Halt then
        if job.task == "" || job.token == 0 then Done else InJob(job, Token)
      else InJob(job, Create)
    case Token => if out.TokenOk? && out.ok then InJob(job, Create) else Done
    case Create =>
      if out.Creation? && out.made.Created? then InJob(job, if Rotates(job) then Rotating else LogRequest(out.made.cmd))
      else if out.Creation? && out.made.Existing? then Goto(cfg, Proceed(job))
      else Goto(cfg, Fail(job))
    case Rotating =>
      if FoundCommand(out).Some? then InJob(WithToken(job, out.cmd.value.fence), LogRequest(out.cmd.value))
      else Goto(cfg, Fail(job))
    case LogRequest(_) =>
      if !Succeeded(out) then Goto(cfg, Fail(job))
      else if job.RetryJob? then InJob(job, Mark(Acknowledged))
      else if job.ControlJob? && job.kind == Halt then InJob(job, Stopping)
      else InJob(job, CallOut)
    case CallOut =>
      if out.Replied? && out.reply == Accepted then InJob(job, Mark(Acknowledged))
      else if out.Replied? && out.reply == Unknown then InJob(job, Unsure)
      else InJob(job, Mark(Failed))
    case Stopping => InJob(job, Mark(Acknowledged))
    case Unsure => InJob(job, Mark(OutcomeUnknown))
    case Mark(to) => InJob(job, LogMark(to, FoundCommand(out)))
    case LogMark(to, _) => if Succeeded(out) then MarkNotes(cfg, job, to) else Goto(cfg, Fail(job))
  }

  /** The command a result check may settle: any acknowledged one of the task, or the task's dispatch command. */
  predicate Pickable(cfg: Config, commands: map<string, Command>, task: string, key: string) {
    key in commands && commands[key].state == Acknowledged && (commands[key].task == task || key == DispatchKey(cfg, task))
  }

  function AfterCheck(cfg: Config, task: string, check: CheckStage, out: Outcome, pick: string): Pc {
    match check
    case Picking => if out.All? && Pickable(cfg, out.commands, task, pick) then InCheck(task, Poll(pick)) else Done
    case Poll(key) => if FoundCommand(out).Some? then InCheck(task, Polled(key)) else Done
    case Polled(key) =>
      if out.Observed? && out.result == ResultCompleted then InCheck(task, Settle(key, Completed))
      else if out.Observed? && out.result == ResultFailed then InCheck(task, Settle(key, Failed))
      else if out.Observed? && out.result == ResultCancelled then InCheck(task, Settle(key, Cancelled))
      else InCheck(task, Unpoll(key))
    case Unpoll(_) => Done
    case Settle(_, to) => InCheck(task, LogSettle(to, FoundCommand(out)))
    case LogSettle(to, _) => if Succeeded(out) then SettleNotes(task, to) else Done
    case CheckAll(i, all) =>
      if i < |cfg.plan| then
        InCheck(task, CheckAll(i + 1, all && out.Events? && IsCompleted(out.events, cfg.plan[i].id)))
      else if all then Notes([Note(DispatchCompleted, "")], Finish, Finish)
      else Done
  }

  ghost function AfterDecide(digest: Digest, grant: bool, decide: DecideStage, out: Outcome, now: int): Pc {
    match decide
    case ReadRequest(actor) => if out.Events? then Review(out.events, digest, grant, actor, now) else Done
    case Answered(_) => Done
    case Claiming(task) => if out.Claimed? && out.ok then InDecision(digest, grant, LogDecision(task)) else Done
    case LogDecision(task) =>
      if !Succeeded(out) then InDecision(digest, grant, Releasing)
      else if !grant then Notes([Note(DispatchFailed, task)], Finish, Finish)
      else if task != "" then Notes([Note(DispatchResumed, task)], ToSchedule(FromApproval), Finish)
      else Done
    case Releasing => Done
  }

  ghost function AfterReconcile(cfg: Config, reconcile: ReconcileStage, out: Outcome): Pc {
    match reconcile
    case ProbeUnknown(key, disposition) =>
      if FoundCommand(out).Some? && out.cmd.value.state == OutcomeUnknown then
        if disposition == StillUnknown then
          Notes([Note(ReconciliationRequested, ""), Note(ReconciliationStillUnknown, "")], Finish, Finish)
        else Notes([Note(ReconciliationRequested, "")], ToResolve(key, disposition), Finish)
      else Done
    case Resolve(_, disposition) =>
      if FoundCommand(out).Some? then
        if disposition == Applied then
          Notes([Note(ReconciliationCompleted, ""), TaskCompleted(out.cmd.value.task)], ToSchedule(FromReconcile), Finish)
        else
          Notes([Note(ReconciliationCompleted, ""), Note(RetryAllowed, out.cmd.value.task)], ToSurvey(false), Finish)
      else Done
    case Survey(applied) =>
      if !out.All? || (exists k | k in out.commands :: out.commands[k].state == OutcomeUnknown) then Done
      else if exists k | k in out.commands :: out.commands[k].state == Failed then
        Notes([Note(DispatchFailed, "")], Finish, Finish)
      else if applied then InReconcile(SurveyLog)
      else Done
    case SurveyLog =>
      if cfg.loaded && out.Events? && AllCompleted(cfg, out.events) then Notes([Note(DispatchCompleted, "")], Finish, Finish)
      else Done
  }

  function AfterNotes(cfg: Config, events: seq<Event>, next: Next, abort: Next, out: Outcome): Pc {
    if events == [] then Goto(cfg, next)
    else if Succeeded(out) then
      if |events| == 1 then Goto(cfg, next) else Notes(events[1..], next, abort)
    else Goto(cfg, abort)
  }

  ghost function After(cfg: Config, pc: Pc, out: Outcome, ch: Choice): Pc {
    match pc
    case Done => Done
    case Notes(events, next, abort) => AfterNotes(cfg, events, next, abort, out)
    case InPass(cont, pass) => AfterPass(cfg, cont, pass, out)
    case InJob(job, stage) => AfterJob(cfg, job, stage, out)
    case InCheck(task, check) => AfterCheck(cfg, task, check, out, ch.pick)
    case InDecision(digest, grant, decide) => AfterDecide(digest, grant, decide, out, ch.now)
    case InReconcile(reconcile) => AfterReconcile(cfg, reconcile, out)
  }

  // ---- runs

  datatype State = State(sh: Shared, reqs: map<nat, Pc>)

  datatype Request =
    | CheckResult(task: string)
    | Decide(digest: Digest, grant: bool, actor: string)
    | ControlTask(kind: Kind, key: string, task: string, token: nat)
    | Reconcile(key: string, disposition: Disposition)

  /** Any number of requests are in flight; a request number may be used again once its request is done. */
  datatype Step =
    | Begin(r: nat, request: Request)
    | Advance(r: nat, ch: Choice)
    | Restart(appended: bool)

  function Entry(request: Request): Pc {
    match request
    case CheckResult(task) => InCheck(task, Picking)
    case Decide(d, grant, actor) => InDecision(d, grant, ReadRequest(actor))
    case ControlTask(kind, key, task, token) =>
      InJob(ControlJob(kind, key, task, token), if kind == Retry then RetryGuard else Probe)
    case Reconcile(key, disposition) => InReconcile(ProbeUnknown(key, disposition))
  }

  predicate Fixed(cfg: Config, s: string) {
    cfg.redact(s) == s
  }

  /** A control the server offers, under identifiers that redaction leaves alone. */
  predicate Admissible(cfg: Config, request: Request) {
    request.ControlTask? ==>
      && request.kind != Dispatch && request.kind != DispatchRetry
      && request.key != ""
      && Fixed(cfg, request.key) && Fixed(cfg, request.task)
      && Fixed(cfg, RetryKey(cfg, request.task, request.key))
  }

  /** The status the log projects to, as far as recovery asks: started or resumed, and nothing terminal since. */
  predicate IsRunning(log: seq<Event>)
    decreases |log|
  {
    if log == [] then false
    else
      match log[|log| - 1]
      case EmergencyStopped => false
      case Note(DispatchStarted, _) => true
      case Note(DispatchResumed, _) => true
      case Note(DispatchCompleted, _) => false
      case Note(DispatchFailed, _) => false
      case Note(DispatchCancelled, _) => false
      case Note(DispatchInterrupted, _) => false
      case _ => IsRunning(log[..|log| - 1])
  }

  predicate AllDone(s: State) {
    forall r | r in s.reqs :: s.reqs[r].Done?
  }

  predicate Idle(s: State, r: nat) {
    r !in s.reqs || s.reqs[r].Done?
  }

  function Init(cfg: Config): State {
    State(
      Shared([], NewCtl(cfg.bound), {}, false, [], {}, {}),
      map[0 := Notes([Note(DispatchStarted, "")], ToSchedule(FromStart), Finish)])
  }

  /** Keys whose issued fence the log remembers. */
  function LoggedRotations(log: seq<Event>): set<string> {
    set e | e in log && IssuesToken(e) :: e.cmd.value.key
  }

  /** The events that hand a rotated fence to an adapter. */
  predicate IssuesToken(e: Event) {
    && e.CommandEvent? && e.suffix == Requested && e.cmd.Some?
    && (e.kind == Dispatch || e.kind == Resume || e.kind == Retry || e.kind == Reassign)
  }

  ghost function Reboot(cfg: Config, sh: Shared, appended: bool): Shared {
    var log := if IsRunning(sh.log) && appended then sh.log + [Note(DispatchInterrupted, "")] else sh.log;
    Shared(log, Recover(cfg, sh.log), {}, IsRunning(sh.log) && !appended, sh.calls, LoggedRotations(sh.log), {})
  }

  ghost function Act(cfg: Config, sh: Shared, pc: Pc, ch: Choice): (Shared, Pc) {
    var (after, out) := Effect(cfg, sh, OpOf(cfg, pc, ch.now), ch);
    (after, After(cfg, pc, out, ch))
  }

  /** One step of the machine; a step that is not possible changes nothing. */
  ghost function Do(cfg: Config, s: State, step: Step): State {
    match step
    case Begin(r, request) =>
      if Idle(s, r) && !s.sh.fatal && Admissible(cfg, request) then s.(reqs := s.reqs[r := Entry(request)]) else s
    case Advance(r, ch) =>
      if r in s.reqs then
        var (sh, pc) := Act(cfg, s.sh, s.reqs[r], ch);
        State(sh, s.reqs[r := pc])
      else s
    case Restart(appended) => State(Reboot(cfg, s.sh, appended), map[])
  }

  /** A run from its start. The plan is the same all along: what a restart makes of it is the subject of `Reloading`. */
  ghost function Exec(cfg: Config, steps: seq<Step>): State
    decreases |steps|
  {
    if steps == [] then Init(cfg) else Do(cfg, Exec(cfg, steps[..|steps| - 1]), steps[|steps| - 1])
  }
}
