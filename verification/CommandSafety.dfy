/** Commands over whole runs: what the log knows is what the controller knows, one request at a time owns a command that
    is being sent or polled, and no command is ever handed to an adapter twice, whatever crashes in between. */
module CommandSafety {
  import opened Model
  import opened Ordering
  import opened Sequences
  import opened Control
  import opened Actions
  import ControlRuns
  import opened Protocol

  /** Every identifier the scheduler makes up is a fixed point of redaction. */
  ghost predicate GoodConfig(cfg: Config) {
    && cfg.bound > 0
    && Fixed(cfg, "run")
    && forall t | t in cfg.plan :: Fixed(cfg, t.id) && Fixed(cfg, DispatchKey(cfg, t.id))
  }

  // ---- what the log says about a key

  ghost predicate NamesKey(e: Event, k: string) {
    e.CommandEvent? && e.cmd.Some? && e.cmd.value.key == k
  }

  ghost predicate Keyed(log: seq<Event>, k: string) {
    exists i | 0 <= i < |log| :: NamesKey(log[i], k)
  }

  ghost predicate Agrees(ctl: Ctl, c: Logged) {
    c.key in ctl.commands && ctl.commands[c.key].id == c.id && ctl.commands[c.key].task == c.task
    && ctl.commands[c.key].fence == c.fence
  }

  ghost predicate LogAgrees(log: seq<Event>, ctl: Ctl) {
    forall i | 0 <= i < |log| && log[i].CommandEvent? && log[i].cmd.Some? :: Agrees(ctl, log[i].cmd.value)
  }

  ghost predicate FixedCommand(cfg: Config, k: string, c: Command) {
    c.key == k && c.id == k && k != "" && c.task != "" && Fixed(cfg, k) && Fixed(cfg, c.task)
  }

  ghost predicate CtlOk(cfg: Config, ctl: Ctl) {
    && (forall k | k in ctl.commands :: FixedCommand(cfg, k, ctl.commands[k]))
    && |ctl.commands| == ctl.count <= ctl.maxCommands == cfg.bound
  }

  ghost predicate MovedIsLogged(sh: Shared) {
    forall k | k in sh.ctl.commands && sh.ctl.commands[k].state != Requested :: Keyed(sh.log, k)
  }

  ghost predicate CalledOnce(calls: seq<Call>) {
    forall i, j | 0 <= i < j < |calls| :: calls[i].key != calls[j].key
  }

  ghost predicate CallsLogged(sh: Shared) {
    forall i | 0 <= i < |sh.calls| :: Keyed(sh.log, sh.calls[i].key)
  }

  ghost predicate Global(cfg: Config, sh: Shared) {
    CtlOk(cfg, sh.ctl) && LogAgrees(sh.log, sh.ctl) && MovedIsLogged(sh) && CalledOnce(sh.calls) && CallsLogged(sh)
  }

  // ---- what a request in flight relies on

  /** A job works under identifiers that redaction leaves alone. */
  ghost predicate JobOk(cfg: Config, job: Job) {
    match job
    case DispatchJob(_, i, _) => i < |cfg.plan|
    case ControlJob(kind, key, task, _) =>
      kind != Dispatch && kind != DispatchRetry && Fixed(cfg, key) && Fixed(cfg, task) && Fixed(cfg, RetryKey(cfg, task, key))
    case RetryJob(key, task, _) => Fixed(cfg, task) && Fixed(cfg, RetryKey(cfg, task, key))
  }

  ghost predicate StageOk(stage: JobStage) {
    && (stage.Mark? ==> stage.to == Acknowledged || stage.to == Failed || stage.to == OutcomeUnknown)
    && (stage.LogMark? ==> stage.logTo == Acknowledged || stage.logTo == Failed || stage.logTo == OutcomeUnknown)
  }

  ghost predicate CheckOk(check: CheckStage) {
    && (check.Settle? ==> check.to == Completed || check.to == Failed || check.to == Cancelled)
    && (check.LogSettle? ==> check.logTo == Completed || check.logTo == Failed || check.logTo == Cancelled)
  }

  ghost predicate NextOk(cfg: Config, next: Next) {
    next.ToCreate? ==> JobOk(cfg, next.job)
  }

  ghost predicate PassOk(cfg: Config, pass: PassStage) {
    match pass
    case Reading => true
    case Routing(_, i) => i < |cfg.plan|
    case Asking(_, i) => i < |cfg.plan|
  }

  /** Shape alone: no reference to the shared state. Notes never carry an event that recovery or approval reads. */
  ghost predicate Shaped(cfg: Config, pc: Pc) {
    match pc
    case Done => true
    case Notes(events, next, abort) =>
      && NextOk(cfg, next) && NextOk(cfg, abort)
      && forall e | e in events :: e.Note? || e.TaskCompleted? || e.EmergencyStopped?
    case InPass(_, pass) => PassOk(cfg, pass)
    case InJob(job, stage) => JobOk(cfg, job) && StageOk(stage)
    case InCheck(_, check) => CheckOk(check)
    case InDecision(_, _, _) => true
    case InReconcile(_) => true
  }

  predicate OwnsStage(stage: JobStage) {
    match stage
    case Rotating => true
    case LogRequest(_) => true
    case CallOut => true
    case Stopping => true
    case Unsure => true
    case Mark(to) => to != OutcomeUnknown
    case _ => false
  }

  function PolledKey(check: CheckStage): Option<string> {
    match check
    case Polled(key) => Some(key)
    case Unpoll(key) => Some(key)
    case Settle(key, _) => Some(key)
    case _ => None
  }

  /** The key whose command this request alone may move right now. */
  function OwnedKey(cfg: Config, pc: Pc): Option<string> {
    match pc
    case InJob(job, stage) => if OwnsStage(stage) then Some(JobKey(cfg, job)) else None
    case InCheck(_, check) => PolledKey(check)
    case _ => None
  }

  function OwnedState(pc: Pc): CommandState {
    if pc.InCheck? then Polling else Requested
  }

  /** Created here and not in the log yet. */
  predicate Unlogged(pc: Pc) {
    pc.InJob? && (pc.stage.Rotating? || pc.stage.LogRequest?)
  }

  /** The copy of a command this request is about to log. */
  function InHand(pc: Pc): Option<Command> {
    match pc
    case InJob(_, LogRequest(cmd)) => Some(cmd)
    case InJob(_, LogMark(_, moved)) => moved
    case InCheck(_, LogSettle(_, moved)) => moved
    case _ => None
  }

  predicate Requesting(pc: Pc) { pc.InJob? && pc.stage.LogRequest? }

  predicate CallingOut(pc: Pc) { pc.InJob? && pc.stage.CallOut? }

  ghost predicate CalledWith(calls: seq<Call>, k: string) {
    exists i | 0 <= i < |calls| :: calls[i].key == k
  }

  ghost predicate Owning(cfg: Config, sh: Shared, pc: Pc) {
    OwnedKey(cfg, pc).Some? ==>
      var k := OwnedKey(cfg, pc).value;
      && k in sh.ctl.commands
      && sh.ctl.commands[k].state == OwnedState(pc)
      && (Unlogged(pc) <==> !Keyed(sh.log, k))
  }

  ghost predicate HoldsCopy(cfg: Config, sh: Shared, pc: Pc) {
    InHand(pc).Some? ==>
      && Agrees(sh.ctl, LoggedOf(InHand(pc).value))
      && (Requesting(pc) ==> InHand(pc).value.key == JobKey(cfg, pc.job))
      && (!Requesting(pc) ==> Keyed(sh.log, InHand(pc).value.key))
  }

  ghost predicate NotCalled(cfg: Config, sh: Shared, pc: Pc) {
    CallingOut(pc) ==> !CalledWith(sh.calls, JobKey(cfg, pc.job))
  }

  ghost predicate Local(cfg: Config, sh: Shared, pc: Pc) {
    Shaped(cfg, pc) && Owning(cfg, sh, pc) && HoldsCopy(cfg, sh, pc) && NotCalled(cfg, sh, pc)
  }

  ghost predicate Apart(cfg: Config, a: Pc, b: Pc) {
    OwnedKey(cfg, a).Some? && OwnedKey(cfg, b).Some? ==> OwnedKey(cfg, a) != OwnedKey(cfg, b)
  }

  ghost predicate Inv(cfg: Config, s: State) {
    && Global(cfg, s.sh)
    && (forall r | r in s.reqs :: Local(cfg, s.sh, s.reqs[r]))
    && (forall r, q | r in s.reqs && q in s.reqs && r != q :: Apart(cfg, s.reqs[r], s.reqs[q]))
  }

  // ---- small facts

  lemma KeyedGrows(log: seq<Event>, more: seq<Event>, k: string)
    ensures Keyed(log, k) ==> Keyed(log + more, k)
  {
    if Keyed(log, k) {
      var i :| 0 <= i < |log| && NamesKey(log[i], k);
      assert (log + more)[i] == log[i];
    }
  }

  lemma KeyedAppend(log: seq<Event>, e: Event, k: string)
    ensures Keyed(log + [e], k) <==> Keyed(log, k) || NamesKey(e, k)
  {
    KeyedGrows(log, [e], k);
    if NamesKey(e, k) { assert (log + [e])[|log|] == e; }
    if Keyed(log + [e], k) {
      var i :| 0 <= i < |log + [e]| && NamesKey((log + [e])[i], k);
      if i < |log| { assert NamesKey(log[i], k); }
    }
  }

  lemma KeyedIsKnown(sh: Shared, k: string)
    requires LogAgrees(sh.log, sh.ctl) && Keyed(sh.log, k)
    ensures k in sh.ctl.commands
  {
    var i :| 0 <= i < |sh.log| && NamesKey(sh.log[i], k);
    assert Agrees(sh.ctl, sh.log[i].cmd.value);
  }

  lemma CalledIsKeyed(sh: Shared, k: string)
    requires CallsLogged(sh)
    ensures CalledWith(sh.calls, k) ==> Keyed(sh.log, k)
  {
    if CalledWith(sh.calls, k) {
      var i :| 0 <= i < |sh.calls| && sh.calls[i].key == k;
      assert Keyed(sh.log, sh.calls[i].key);
    }
  }

  // ---- what each kind of effect has behind it

  ghost predicate OpBacked(cfg: Config, sh: Shared, pc: Pc, op: Op) {
    match op
    case Append(e) =>
      e.CommandEvent? && e.cmd.Some? ==> InHand(pc).Some? && e.cmd.value == LoggedOf(InHand(pc).value)
    case CreateCommand(cmd) => cmd.id == cmd.key && Fixed(cfg, cmd.key) && Fixed(cfg, cmd.task)
    case RotateFence(key, _) => OwnedKey(cfg, pc) == Some(key) && !Keyed(sh.log, key)
    case Move(key, to) =>
      && to != Requested
      && ((OwnedKey(cfg, pc) == Some(key) && Keyed(sh.log, key)) || to == OutcomeUnknown || to == Polling || to == Reconciled)
    case Adapter(call) =>
      OwnedKey(cfg, pc) == Some(call.key) && Keyed(sh.log, call.key) && !CalledWith(sh.calls, call.key)
    case _ => true
  }

  lemma NewCommandFixed(cfg: Config, job: Job)
    requires GoodConfig(cfg) && JobOk(cfg, job)
    ensures var cmd := NewCommand(cfg, job);
            cmd.id == cmd.key && Fixed(cfg, cmd.key) && Fixed(cfg, cmd.task)
  {
    if job.DispatchJob? { assert cfg.plan[job.i] in cfg.plan; }
  }

  lemma JobOpBacked(cfg: Config, sh: Shared, job: Job, stage: JobStage)
    requires GoodConfig(cfg) && Local(cfg, sh, InJob(job, stage))
    ensures OpBacked(cfg, sh, InJob(job, stage), JobOp(cfg, job, stage))
  {
    NewCommandFixed(cfg, job);
  }

  lemma CheckOpBacked(cfg: Config, sh: Shared, task: string, check: CheckStage)
    requires Local(cfg, sh, InCheck(task, check))
    ensures OpBacked(cfg, sh, InCheck(task, check), CheckOp(check))
  {
  }

  lemma OpIsBacked(cfg: Config, sh: Shared, pc: Pc, now: int)
    requires GoodConfig(cfg) && Local(cfg, sh, pc)
    ensures OpBacked(cfg, sh, pc, OpOf(cfg, pc, now))
  {
    match pc
    case Notes(events, _, _) => assert events != [] ==> events[0] in events;
    case InJob(job, stage) => JobOpBacked(cfg, sh, job, stage);
    case InCheck(task, check) => CheckOpBacked(cfg, sh, task, check);
    case InPass(_, pass) =>
    case _ =>
  }

  lemma ScrubHeld(cfg: Config, sh: Shared, pc: Pc, e: Event)
    requires CtlOk(cfg, sh.ctl) && Local(cfg, sh, pc)
    requires e.CommandEvent? && e.cmd.Some? ==> InHand(pc).Some? && e.cmd.value == LoggedOf(InHand(pc).value)
    ensures Scrub(cfg, e).CommandEvent? <==> e.CommandEvent?
    ensures e.CommandEvent? ==> Scrub(cfg, e) == e
    ensures e.CommandEvent? && e.cmd.Some? ==> Agrees(sh.ctl, e.cmd.value)
  {
    if e.CommandEvent? && e.cmd.Some? {
      var c := e.cmd.value;
      assert Agrees(sh.ctl, c);
      assert FixedCommand(cfg, c.key, sh.ctl.commands[c.key]);
    }
  }

  /** What another request relies on survives a step that leaves its command, its copy and its call alone. */
  ghost predicate Undisturbed(cfg: Config, sh: Shared, next: Shared, other: Pc) {
    && (OwnedKey(cfg, other).Some? ==>
          var k := OwnedKey(cfg, other).value;
          && k in sh.ctl.commands && k in next.ctl.commands
          && next.ctl.commands[k].state == sh.ctl.commands[k].state
          && (Keyed(next.log, k) <==> Keyed(sh.log, k)))
    && (InHand(other).Some? ==>
          var c := InHand(other).value;
          Agrees(next.ctl, LoggedOf(c)) && (Keyed(sh.log, c.key) ==> Keyed(next.log, c.key)))
    && (CallingOut(other) ==> !CalledWith(next.calls, JobKey(cfg, other.job)))
  }

  lemma UndisturbedKeepsLocal(cfg: Config, sh: Shared, next: Shared, other: Pc)
    requires Local(cfg, sh, other)
    requires Undisturbed(cfg, sh, next, other)
    ensures Local(cfg, next, other)
  {
  }

  // ---- appends

  lemma AppendGlobal(cfg: Config, sh: Shared, next: Shared, e: Event)
    requires Global(cfg, sh)
    requires next == sh.(fatal := next.fatal, skewed := next.skewed)
          || next == sh.(log := sh.log + [e], skewed := next.skewed)
    requires e.CommandEvent? && e.cmd.Some? ==> Agrees(sh.ctl, e.cmd.value)
    ensures Global(cfg, next)
  {
    if next.log != sh.log {
      forall k | k in sh.ctl.commands && sh.ctl.commands[k].state != Requested ensures Keyed(next.log, k) {
        KeyedGrows(sh.log, [e], k);
      }
      forall i | 0 <= i < |sh.calls| ensures Keyed(next.log, sh.calls[i].key) {
        KeyedGrows(sh.log, [e], sh.calls[i].key);
      }
    }
  }

  lemma AppendKeeps(cfg: Config, sh: Shared, pc: Pc, e: Event, ch: Choice)
    requires Global(cfg, sh) && Local(cfg, sh, pc) && OpBacked(cfg, sh, pc, Append(e))
    ensures Global(cfg, Effect(cfg, sh, Append(e), ch).0)
  {
    ScrubHeld(cfg, sh, pc, e);
    AppendGlobal(cfg, sh, Effect(cfg, sh, Append(e), ch).0, Scrub(cfg, e));
  }

  lemma AppendKeepsOther(cfg: Config, sh: Shared, pc: Pc, e: Event, ch: Choice, other: Pc)
    requires Global(cfg, sh) && Local(cfg, sh, pc) && OpBacked(cfg, sh, pc, Append(e))
    requires Local(cfg, sh, other) && Apart(cfg, pc, other)
    ensures Undisturbed(cfg, sh, Effect(cfg, sh, Append(e), ch).0, other)
  {
    ScrubHeld(cfg, sh, pc, e);
    if ch.appended {
      if OwnedKey(cfg, other).Some? {
        var k := OwnedKey(cfg, other).value;
        KeyedAppend(sh.log, Scrub(cfg, e), k);
        if NamesKey(Scrub(cfg, e), k) { HeldKeyIsOwnedOrLogged(cfg, sh, pc, k); }
      }
      if InHand(other).Some? { KeyedAppend(sh.log, Scrub(cfg, e), InHand(other).value.key); }
    }
  }

  lemma HeldKeyIsOwnedOrLogged(cfg: Config, sh: Shared, pc: Pc, k: string)
    requires Local(cfg, sh, pc) && InHand(pc).Some? && InHand(pc).value.key == k
    ensures OwnedKey(cfg, pc) == Some(k) || Keyed(sh.log, k)
  {
  }

  // ---- operations on the controller

  lemma CallsStayLogged(sh: Shared, next: Shared)
    requires CallsLogged(sh) && next.log == sh.log && next.calls == sh.calls
    ensures CallsLogged(next)
  {
  }

  lemma CreateGlobal(cfg: Config, sh: Shared, cmd: Command, ch: Choice)
    requires Global(cfg, sh) && cmd.id == cmd.key && Fixed(cfg, cmd.key) && Fixed(cfg, cmd.task)
    ensures Global(cfg, Effect(cfg, sh, CreateCommand(cmd), ch).0)
  {
    hide Latest, Rotate, Transition, Fixed, Keyed, CalledOnce, CallsLogged, AfterReport, AfterRefusal;
    var next := Effect(cfg, sh, CreateCommand(cmd), ch).0;
    if next.ctl != sh.ctl {
      assert next.ctl.commands.Keys == sh.ctl.commands.Keys + {cmd.key};
      assert |next.ctl.commands| == |sh.ctl.commands| + 1;
      CallsStayLogged(sh, next);
      forall k | k in next.ctl.commands && next.ctl.commands[k].state != Requested ensures Keyed(next.log, k) {
        assert k != cmd.key;
      }
    }
  }

  lemma CreateKeepsOther(cfg: Config, sh: Shared, cmd: Command, ch: Choice, other: Pc)
    requires Local(cfg, sh, other)
    ensures Undisturbed(cfg, sh, Effect(cfg, sh, CreateCommand(cmd), ch).0, other)
  {
    var next := Effect(cfg, sh, CreateCommand(cmd), ch).0;
    assert forall k | k in sh.ctl.commands :: k in next.ctl.commands && next.ctl.commands[k] == sh.ctl.commands[k];
  }

  lemma RotateKeeps(cfg: Config, sh: Shared, key: string, task: string, ch: Choice)
    requires Global(cfg, sh) && !Keyed(sh.log, key)
    ensures Global(cfg, Effect(cfg, sh, RotateFence(key, task), ch).0)
  {
    hide Latest, RequestOnce, Transition, Fixed;
    var next := Effect(cfg, sh, RotateFence(key, task), ch).0;
    assert next.ctl.commands.Keys == sh.ctl.commands.Keys;
    assert |next.ctl.commands| == |next.ctl.commands.Keys| == |sh.ctl.commands.Keys| == |sh.ctl.commands|;
    forall i | 0 <= i < |sh.log| && sh.log[i].CommandEvent? && sh.log[i].cmd.Some?
      ensures Agrees(next.ctl, sh.log[i].cmd.value)
    {
      assert Agrees(sh.ctl, sh.log[i].cmd.value);
      assert NamesKey(sh.log[i], sh.log[i].cmd.value.key);
    }
  }

  lemma RotateKeepsOther(cfg: Config, sh: Shared, key: string, task: string, ch: Choice, other: Pc)
    requires Local(cfg, sh, other) && !Keyed(sh.log, key)
    requires OwnedKey(cfg, other) != Some(key)
    ensures Undisturbed(cfg, sh, Effect(cfg, sh, RotateFence(key, task), ch).0, other)
  {
    var next := Effect(cfg, sh, RotateFence(key, task), ch).0;
    if InHand(other).Some? { HeldKeyIsOwnedOrLogged(cfg, sh, other, InHand(other).value.key); }
    assert forall k | k in sh.ctl.commands && k != key :: k in next.ctl.commands && next.ctl.commands[k] == sh.ctl.commands[k];
  }

  lemma MoveKeeps(cfg: Config, sh: Shared, key: string, to: CommandState, ch: Choice)
    requires Global(cfg, sh)
    requires key in sh.ctl.commands && Allowed(sh.ctl.commands[key].state, to) ==> Keyed(sh.log, key)
    ensures Global(cfg, Effect(cfg, sh, Move(key, to), ch).0)
  {
    hide Latest, RequestOnce;
    var next := Effect(cfg, sh, Move(key, to), ch).0;
    assert next.ctl.commands.Keys == sh.ctl.commands.Keys;
    assert |next.ctl.commands| == |next.ctl.commands.Keys| == |sh.ctl.commands.Keys| == |sh.ctl.commands|;
  }

  /** A transition touches one command, leaves its identity and fence alone, and is refused when the table says so. */
  lemma MoveTouchesOne(cfg: Config, sh: Shared, key: string, to: CommandState, ch: Choice, k: string)
    requires k in sh.ctl.commands
    ensures var next := Effect(cfg, sh, Move(key, to), ch).0;
            && next.log == sh.log && next.calls == sh.calls && k in next.ctl.commands
            && var (c, d) := (sh.ctl.commands[k], next.ctl.commands[k]);
               && d.id == c.id && d.task == c.task && d.fence == c.fence
               && (k != key || !Allowed(c.state, to) ==> d.state == c.state)
  {
    hide Latest, RequestOnce, Rotate;
  }

  lemma MoveKeepsOther(cfg: Config, sh: Shared, key: string, to: CommandState, ch: Choice, other: Pc)
    requires Local(cfg, sh, other)
    requires OwnedKey(cfg, other) == Some(key) ==> to == OutcomeUnknown || to == Polling || to == Reconciled
    ensures Undisturbed(cfg, sh, Effect(cfg, sh, Move(key, to), ch).0, other)
  {
    hide Effect, Shaped;
    if OwnedKey(cfg, other).Some? { MoveTouchesOne(cfg, sh, key, to, ch, OwnedKey(cfg, other).value); }
    if InHand(other).Some? { MoveTouchesOne(cfg, sh, key, to, ch, InHand(other).value.key); }
    if CallingOut(other) { MoveTouchesOne(cfg, sh, key, to, ch, JobKey(cfg, other.job)); }
  }

  lemma CallKeeps(cfg: Config, sh: Shared, call: Call, ch: Choice)
    requires Global(cfg, sh) && Keyed(sh.log, call.key) && !CalledWith(sh.calls, call.key)
    ensures Global(cfg, Effect(cfg, sh, Adapter(call), ch).0)
  {
    hide Do, CtlOk, LogAgrees;
    forall i | 0 <= i < |sh.calls| ensures sh.calls[i].key != call.key {
      assert !CalledWith(sh.calls, call.key);
    }
  }

  lemma CallKeepsOther(cfg: Config, sh: Shared, call: Call, ch: Choice, other: Pc)
    requires Local(cfg, sh, other) && (CallingOut(other) ==> JobKey(cfg, other.job) != call.key)
    ensures Undisturbed(cfg, sh, Effect(cfg, sh, Adapter(call), ch).0, other)
  {
    if CallingOut(other) { CalledAppend(sh.calls, call, JobKey(cfg, other.job)); }
  }

  lemma CalledAppend(calls: seq<Call>, call: Call, k: string)
    ensures CalledWith(calls + [call], k) <==> CalledWith(calls, k) || call.key == k
  {
    var more := calls + [call];
    assert more[|calls|] == call;
    if CalledWith(calls, k) {
      var i :| 0 <= i < |calls| && calls[i].key == k;
      assert more[i].key == k;
    }
    if CalledWith(more, k) {
      var i :| 0 <= i < |more| && more[i].key == k;
      assert i < |calls| ==> calls[i].key == k;
    }
  }

  // ---- every effect, by the request that performs it

  lemma EffectKeepsGlobal(cfg: Config, sh: Shared, pc: Pc, op: Op, ch: Choice)
    requires Global(cfg, sh) && Local(cfg, sh, pc) && OpBacked(cfg, sh, pc, op)
    ensures Global(cfg, Effect(cfg, sh, op, ch).0)
  {
    match op
    case Append(e) => AppendKeeps(cfg, sh, pc, e, ch);
    case CreateCommand(cmd) => CreateGlobal(cfg, sh, cmd, ch);
    case RotateFence(key, task) => RotateKeeps(cfg, sh, key, task, ch);
    case Move(key, to) => MoveKeeps(cfg, sh, key, to, ch);
    case Adapter(call) => CallKeeps(cfg, sh, call, ch);
    case _ =>
  }

  lemma EffectKeepsOther(cfg: Config, sh: Shared, pc: Pc, op: Op, ch: Choice, other: Pc)
    requires Global(cfg, sh) && Local(cfg, sh, pc) && OpBacked(cfg, sh, pc, op)
    requires Local(cfg, sh, other) && Apart(cfg, pc, other)
    ensures Local(cfg, Effect(cfg, sh, op, ch).0, other)
  {
    hide Global, Local;
    var next := Effect(cfg, sh, op, ch).0;
    match op {
      case Append(e) => AppendKeepsOther(cfg, sh, pc, e, ch, other);
      case CreateCommand(cmd) => CreateKeepsOther(cfg, sh, cmd, ch, other);
      case RotateFence(key, task) => RotateKeepsOther(cfg, sh, key, task, ch, other);
      case Move(key, to) => MoveKeepsOther(cfg, sh, key, to, ch, other);
      case Adapter(call) => CallKeepsOther(cfg, sh, call, ch, other);
      case _ => QuietKeepsOther(cfg, sh, op, ch, other);
    }
    UndisturbedKeepsLocal(cfg, sh, next, other);
  }

  lemma QuietKeepsOther(cfg: Config, sh: Shared, op: Op, ch: Choice, other: Pc)
    requires Local(cfg, sh, other)
    requires !op.Append? && !op.CreateCommand? && !op.RotateFence? && !op.Move? && !op.Adapter?
    ensures Undisturbed(cfg, sh, Effect(cfg, sh, op, ch).0, other)
  {
    var next := Effect(cfg, sh, op, ch).0;
    assert next.log == sh.log && next.ctl.commands == sh.ctl.commands && next.calls == sh.calls;
  }

  // ---- where the request goes next

  /** A point at which the request owns nothing and has nothing in hand. */
  ghost predicate Plain(cfg: Config, pc: Pc) {
    Shaped(cfg, pc) && OwnedKey(cfg, pc).None? && InHand(pc).None? && !CallingOut(pc)
  }

  lemma PlainIsLocal(cfg: Config, sh: Shared, pc: Pc)
    requires Plain(cfg, pc)
    ensures Local(cfg, sh, pc)
  {
  }

  lemma EndPlain(cfg: Config, ok: bool, cont: Cont)
    ensures Plain(cfg, End(ok, cont))
  {
  }

  lemma WalkPlain(cfg: Config, seen: seq<Event>, i: nat, cont: Cont)
    ensures Plain(cfg, Walk(cfg, seen, i, cont))
  {
    WalkStops(cfg, seen, i, cont);
    EndPlain(cfg, true, cont);
    EndPlain(cfg, false, cont);
  }

  lemma GotoPlain(cfg: Config, next: Next)
    requires NextOk(cfg, next)
    ensures Plain(cfg, Goto(cfg, next))
  {
    match next
    case ToWalk(seen, i, cont) => WalkPlain(cfg, seen, i, cont);
    case ToEnd(ok, cont) => EndPlain(cfg, ok, cont);
    case _ =>
  }

  lemma MarkNotesPlain(cfg: Config, job: Job, to: CommandState)
    requires JobOk(cfg, job)
    ensures Plain(cfg, MarkNotes(cfg, job, to))
  {
  }

  lemma AfterNotesPlain(cfg: Config, events: seq<Event>, next: Next, abort: Next, out: Outcome)
    requires Shaped(cfg, Notes(events, next, abort))
    ensures Plain(cfg, AfterNotes(cfg, events, next, abort, out))
  {
    GotoPlain(cfg, next);
    GotoPlain(cfg, abort);
  }

  lemma AfterPassPlain(cfg: Config, cont: Cont, pass: PassStage, out: Outcome)
    requires PassOk(cfg, pass)
    ensures Plain(cfg, AfterPass(cfg, cont, pass, out))
  {
    EndPlain(cfg, true, cont);
    EndPlain(cfg, false, cont);
    if out.Events? { WalkPlain(cfg, out.events, 0, cont); }
  }

  lemma AfterDecidePlain(cfg: Config, digest: Digest, grant: bool, decide: DecideStage, out: Outcome, now: int)
    ensures Plain(cfg, AfterDecide(digest, grant, decide, out, now))
  {
  }

  lemma AfterReconcilePlain(cfg: Config, reconcile: ReconcileStage, out: Outcome)
    ensures Plain(cfg, AfterReconcile(cfg, reconcile, out))
  {
  }

  /** The point after a step, and that it takes no key another request owns. */
  ghost predicate Lands(cfg: Config, sh: Shared, pc: Pc, next: Shared, pc': Pc) {
    && Local(cfg, next, pc')
    && (OwnedKey(cfg, pc').Some? && OwnedKey(cfg, pc') != OwnedKey(cfg, pc) ==>
          forall other | Local(cfg, sh, other) :: Apart(cfg, pc', other))
  }

  lemma PlainLands(cfg: Config, sh: Shared, pc: Pc, next: Shared, pc': Pc)
    requires Plain(cfg, pc')
    ensures Lands(cfg, sh, pc, next, pc')
  {
    PlainIsLocal(cfg, next, pc');
  }

  lemma UnknownIsApart(cfg: Config, sh: Shared, pc: Pc, k: string)
    requires k !in sh.ctl.commands && OwnedKey(cfg, pc) == Some(k)
    ensures forall other | Local(cfg, sh, other) :: Apart(cfg, pc, other)
  {
    forall other | Local(cfg, sh, other) ensures Apart(cfg, pc, other) {
      assert Owning(cfg, sh, other);
    }
  }

  lemma CreatedLands(cfg: Config, sh: Shared, job: Job, ch: Choice)
    requires Global(cfg, sh) && JobOk(cfg, job)
    requires RequestOnce(sh.ctl, NewCommand(cfg, job), ch.now).1.Created?
    ensures var (next, out) := Effect(cfg, sh, CreateCommand(NewCommand(cfg, job)), ch);
            Lands(cfg, sh, InJob(job, Create), next, AfterJob(cfg, job, Create, out))
  {
    hide Goto, Fixed, CtlOk, CalledOnce, CallsLogged, Apart, JobOk;
    var key := JobKey(cfg, job);
    var (next, out) := Effect(cfg, sh, CreateCommand(NewCommand(cfg, job)), ch);
    assert key !in sh.ctl.commands;
    if Keyed(sh.log, key) { KeyedIsKnown(sh, key); }
    UnknownIsApart(cfg, sh, AfterJob(cfg, job, Create, out), key);
  }

  lemma CreateLands(cfg: Config, sh: Shared, job: Job, ch: Choice)
    requires Global(cfg, sh) && JobOk(cfg, job)
    ensures var (next, out) := Effect(cfg, sh, JobOp(cfg, job, Create), ch);
            Lands(cfg, sh, InJob(job, Create), next, AfterJob(cfg, job, Create, out))
  {
    hide Goto, Global, Lands, JobKey, NewCommand;
    var (next, out) := Effect(cfg, sh, CreateCommand(NewCommand(cfg, job)), ch);
    if out.made.Created? {
      CreatedLands(cfg, sh, job, ch);
    } else {
      GotoPlain(cfg, Proceed(job));
      GotoPlain(cfg, Fail(job));
      PlainLands(cfg, sh, InJob(job, Create), next, AfterJob(cfg, job, Create, out));
    }
  }

  lemma RotatedLands(cfg: Config, sh: Shared, job: Job, ch: Choice)
    requires Global(cfg, sh) && Local(cfg, sh, InJob(job, Rotating))
    requires Rotate(sh.ctl, JobKey(cfg, job), JobTask(cfg, job), ch.now).1.Some?
    ensures var (next, out) := Effect(cfg, sh, RotateFence(JobKey(cfg, job), JobTask(cfg, job)), ch);
            Lands(cfg, sh, InJob(job, Rotating), next, AfterJob(cfg, job, Rotating, out))
  {
    hide Goto, CalledOnce, CallsLogged, LogAgrees, MovedIsLogged, Apart;
    var key := JobKey(cfg, job);
    var (next, out) := Effect(cfg, sh, RotateFence(key, JobTask(cfg, job)), ch);
    assert next.ctl.commands[key] == out.cmd.value;
    assert FixedCommand(cfg, key, sh.ctl.commands[key]);
    assert JobKey(cfg, WithToken(job, out.cmd.value.fence)) == key;
  }

  lemma RotatingLands(cfg: Config, sh: Shared, job: Job, ch: Choice)
    requires Global(cfg, sh) && Local(cfg, sh, InJob(job, Rotating))
    ensures var (next, out) := Effect(cfg, sh, JobOp(cfg, job, Rotating), ch);
            Lands(cfg, sh, InJob(job, Rotating), next, AfterJob(cfg, job, Rotating, out))
  {
    hide Goto, Global, Owning, HoldsCopy, NotCalled, Lands, JobKey, JobTask;
    var (next, out) := Effect(cfg, sh, RotateFence(JobKey(cfg, job), JobTask(cfg, job)), ch);
    if out.cmd.Some? {
      RotatedLands(cfg, sh, job, ch);
    } else {
      GotoPlain(cfg, Fail(job));
      PlainLands(cfg, sh, InJob(job, Rotating), next, AfterJob(cfg, job, Rotating, out));
    }
  }

  lemma LogRequestLands(cfg: Config, sh: Shared, job: Job, cmd: Command, ch: Choice)
    requires Global(cfg, sh) && Local(cfg, sh, InJob(job, LogRequest(cmd)))
    ensures var (next, out) := Effect(cfg, sh, JobOp(cfg, job, LogRequest(cmd)), ch);
            Lands(cfg, sh, InJob(job, LogRequest(cmd)), next, AfterJob(cfg, job, LogRequest(cmd), out))
  {
    hide Goto, Scrub, NewCommand, CtlOk, FixedCommand, Latest, Apart, LogAgrees, MovedIsLogged, CalledOnce;
    var key := JobKey(cfg, job);
    var pc := InJob(job, LogRequest(cmd));
    var e := CommandName(job, Requested, Some(cmd));
    var (next, out) := Effect(cfg, sh, Append(e), ch);
    if ch.appended {
      ScrubHeld(cfg, sh, pc, e);
      KeyedAppend(sh.log, e, key);
      CalledIsKeyed(sh, key);
    } else {
      GotoPlain(cfg, Fail(job));
      PlainLands(cfg, sh, pc, next, AfterJob(cfg, job, LogRequest(cmd), out));
    }
  }

  /** A transition leaves a copy that agrees with the controller, or none. */
  lemma MoveYieldsCopy(cfg: Config, sh: Shared, key: string, to: CommandState, ch: Choice)
    requires Global(cfg, sh)
    ensures var (next, out) := Effect(cfg, sh, Move(key, to), ch);
            && out.Found? && next.log == sh.log && next.calls == sh.calls
            && (out.cmd.Some? ==>
                  && key in sh.ctl.commands && next.ctl.commands[key] == out.cmd.value
                  && Agrees(next.ctl, LoggedOf(out.cmd.value)) && out.cmd.value.key == key
                  && Allowed(sh.ctl.commands[key].state, to) && out.cmd.value.state == to)
  {
    if key in sh.ctl.commands { assert FixedCommand(cfg, key, sh.ctl.commands[key]); }
  }

  lemma MarkLands(cfg: Config, sh: Shared, job: Job, to: CommandState, ch: Choice)
    requires Global(cfg, sh) && Local(cfg, sh, InJob(job, Mark(to)))
    ensures var (next, out) := Effect(cfg, sh, JobOp(cfg, job, Mark(to)), ch);
            Lands(cfg, sh, InJob(job, Mark(to)), next, AfterJob(cfg, job, Mark(to), out))
  {
    hide MarkNotes, CtlOk, LogAgrees;
    MoveYieldsCopy(cfg, sh, JobKey(cfg, job), to, ch);
  }

  lemma SettleLands(cfg: Config, sh: Shared, task: string, key: string, to: CommandState, ch: Choice)
    requires Global(cfg, sh) && Local(cfg, sh, InCheck(task, Settle(key, to)))
    ensures var (next, out) := Effect(cfg, sh, CheckOp(Settle(key, to)), ch);
            Lands(cfg, sh, InCheck(task, Settle(key, to)), next, AfterCheck(cfg, task, Settle(key, to), out, ch.pick))
  {
    hide Do, Global, CtlOk;
    MoveYieldsCopy(cfg, sh, key, to, ch);
  }

  lemma PollLands(cfg: Config, sh: Shared, task: string, key: string, ch: Choice)
    requires Global(cfg, sh)
    ensures var (next, out) := Effect(cfg, sh, CheckOp(Poll(key)), ch);
            Lands(cfg, sh, InCheck(task, Poll(key)), next, AfterCheck(cfg, task, Poll(key), out, ch.pick))
  {
    MoveYieldsCopy(cfg, sh, key, Polling, ch);
  }

  lemma CallOutLands(cfg: Config, sh: Shared, job: Job, ch: Choice)
    requires Local(cfg, sh, InJob(job, CallOut))
    ensures var (next, out) := Effect(cfg, sh, JobOp(cfg, job, CallOut), ch);
            Lands(cfg, sh, InJob(job, CallOut), next, AfterJob(cfg, job, CallOut, out))
  {
    hide Do, MarkNotes;
  }

  lemma StoppingLands(cfg: Config, sh: Shared, job: Job, ch: Choice)
    requires Local(cfg, sh, InJob(job, Stopping))
    ensures var (next, out) := Effect(cfg, sh, JobOp(cfg, job, Stopping), ch);
            Lands(cfg, sh, InJob(job, Stopping), next, AfterJob(cfg, job, Stopping, out))
  {
    hide Do, NewCommand;
  }

  lemma UnsureLands(cfg: Config, sh: Shared, job: Job, ch: Choice)
    requires Local(cfg, sh, InJob(job, Unsure))
    ensures var (next, out) := Effect(cfg, sh, JobOp(cfg, job, Unsure), ch);
            Lands(cfg, sh, InJob(job, Unsure), next, AfterJob(cfg, job, Unsure, out))
  {
  }

  /** Stages after which the request owns nothing. */
  predicate Releases(stage: JobStage) {
    stage.RetryGuard? || stage.Probe? || stage.Token? || stage.LogMark?
  }

  lemma AfterJobPlain(cfg: Config, job: Job, stage: JobStage, out: Outcome)
    requires JobOk(cfg, job) && StageOk(stage) && Releases(stage)
    ensures Plain(cfg, AfterJob(cfg, job, stage, out))
  {
    hide MarkNotes;
    GotoPlain(cfg, Fail(job));
    GotoPlain(cfg, Proceed(job));
    if stage.LogMark? { MarkNotesPlain(cfg, job, stage.logTo); }
  }

  lemma JobLands(cfg: Config, sh: Shared, job: Job, stage: JobStage, ch: Choice)
    requires Global(cfg, sh) && Local(cfg, sh, InJob(job, stage))
    ensures var (next, out) := Effect(cfg, sh, JobOp(cfg, job, stage), ch);
            Lands(cfg, sh, InJob(job, stage), next, AfterJob(cfg, job, stage, out))
  {
    hide Do, Effect, AfterJob, Global;
    if Releases(stage) {
      var (next, out) := Effect(cfg, sh, JobOp(cfg, job, stage), ch);
      AfterJobPlain(cfg, job, stage, out);
      PlainLands(cfg, sh, InJob(job, stage), next, AfterJob(cfg, job, stage, out));
    } else {
      match stage
      case Create => CreateLands(cfg, sh, job, ch);
      case Rotating => RotatingLands(cfg, sh, job, ch);
      case LogRequest(cmd) => LogRequestLands(cfg, sh, job, cmd, ch);
      case Mark(to) => MarkLands(cfg, sh, job, to, ch);
      case CallOut => CallOutLands(cfg, sh, job, ch);
      case Stopping => StoppingLands(cfg, sh, job, ch);
      case Unsure => UnsureLands(cfg, sh, job, ch);
    }
  }

  lemma PolledLands(cfg: Config, sh: Shared, task: string, key: string, ch: Choice)
    requires Local(cfg, sh, InCheck(task, Polled(key)))
    ensures var (next, out) := Effect(cfg, sh, CheckOp(Polled(key)), ch);
            Lands(cfg, sh, InCheck(task, Polled(key)), next, AfterCheck(cfg, task, Polled(key), out, ch.pick))
  {
    hide Scrub;
  }

  lemma AfterCheckPlain(cfg: Config, task: string, check: CheckStage, out: Outcome, pick: string)
    requires CheckOk(check) && !check.Poll? && !check.Settle? && !check.Polled?
    ensures Plain(cfg, AfterCheck(cfg, task, check, out, pick))
  {
  }

  lemma CheckLands(cfg: Config, sh: Shared, task: string, check: CheckStage, ch: Choice)
    requires Global(cfg, sh) && Local(cfg, sh, InCheck(task, check))
    ensures var (next, out) := Effect(cfg, sh, CheckOp(check), ch);
            Lands(cfg, sh, InCheck(task, check), next, AfterCheck(cfg, task, check, out, ch.pick))
  {
    if check.Poll? {
      PollLands(cfg, sh, task, check.key, ch);
    } else if check.Settle? {
      SettleLands(cfg, sh, task, check.key, check.to, ch);
    } else if check.Polled? {
      PolledLands(cfg, sh, task, check.key, ch);
    } else {
      var (next, out) := Effect(cfg, sh, CheckOp(check), ch);
      AfterCheckPlain(cfg, task, check, out, ch.pick);
      PlainLands(cfg, sh, InCheck(task, check), next, AfterCheck(cfg, task, check, out, ch.pick));
    }
  }

  lemma PointLands(cfg: Config, sh: Shared, pc: Pc, ch: Choice)
    requires Global(cfg, sh) && Local(cfg, sh, pc)
    ensures var (next, pc') := Act(cfg, sh, pc, ch);
            Lands(cfg, sh, pc, next, pc')
  {
    hide Effect, AfterJob, AfterCheck, AfterReconcile, AfterDecide;
    var (next, out) := Effect(cfg, sh, OpOf(cfg, pc, ch.now), ch);
    var pc' := After(cfg, pc, out, ch);
    match pc
    case Done => PlainLands(cfg, sh, pc, next, pc');
    case Notes(events, then_, abort) =>
      AfterNotesPlain(cfg, events, then_, abort, out);
      PlainLands(cfg, sh, pc, next, pc');
    case InPass(cont, pass) =>
      AfterPassPlain(cfg, cont, pass, out);
      PlainLands(cfg, sh, pc, next, pc');
    case InJob(job, stage) => JobLands(cfg, sh, job, stage, ch);
    case InCheck(task, check) => CheckLands(cfg, sh, task, check, ch);
    case InDecision(digest, grant, decide) =>
      AfterDecidePlain(cfg, digest, grant, decide, out, ch.now);
      PlainLands(cfg, sh, pc, next, pc');
    case InReconcile(reconcile) =>
      AfterReconcilePlain(cfg, reconcile, out);
      PlainLands(cfg, sh, pc, next, pc');
  }

  // ---- steps and runs

  lemma AdvanceKeeps(cfg: Config, s: State, r: nat, ch: Choice)
    requires GoodConfig(cfg) && Inv(cfg, s) && r in s.reqs
    ensures Inv(cfg, Do(cfg, s, Advance(r, ch)))
  {
    hide After, OpOf, Reboot, Global, Local;
    var pc := s.reqs[r];
    var op := OpOf(cfg, pc, ch.now);
    var (next, pc') := Act(cfg, s.sh, pc, ch);
    OpIsBacked(cfg, s.sh, pc, ch.now);
    EffectKeepsGlobal(cfg, s.sh, pc, op, ch);
    PointLands(cfg, s.sh, pc, ch);
    forall q | q in s.reqs && q != r ensures Local(cfg, next, s.reqs[q]) && Apart(cfg, pc', s.reqs[q]) {
      EffectKeepsOther(cfg, s.sh, pc, op, ch, s.reqs[q]);
    }
    var after := Do(cfg, s, Advance(r, ch));
    assert after == State(next, s.reqs[r := pc']);
    forall a, b | a in after.reqs && b in after.reqs && a != b ensures Apart(cfg, after.reqs[a], after.reqs[b]) {
      assert a != r && b != r ==> Apart(cfg, s.reqs[a], s.reqs[b]);
    }
  }

  lemma BeginKeeps(cfg: Config, s: State, r: nat, request: Request)
    requires Inv(cfg, s)
    ensures Inv(cfg, Do(cfg, s, Begin(r, request)))
  {
    hide Act, Reboot, Global, Local;
    if Idle(s, r) && !s.sh.fatal && Admissible(cfg, request) {
      assert Plain(cfg, Entry(request));
      PlainIsLocal(cfg, s.sh, Entry(request));
    }
  }

  // ---- restarts

  lemma {:induction false} LatestFromLog(log: seq<Event>, ctl: Ctl)
    requires LogAgrees(log, ctl)
    requires forall k | k in ctl.commands :: ctl.commands[k].id != "" && k != "" && ctl.commands[k].task != ""
    ensures forall k :: k in Latest(log) <==> Keyed(log, k)
    ensures forall k | k in Latest(log) :: Latest(log)[k].key == k && Agrees(ctl, LoggedOf(Latest(log)[k]))
    decreases |log|
  {
    if log != [] {
      var rest, e := log[..|log| - 1], log[|log| - 1];
      assert log == rest + [e];
      LatestFromLog(rest, ctl);
      forall k ensures k in Latest(log) <==> Keyed(log, k) { KeyedAppend(rest, e, k); }
    }
  }

  lemma {:induction false} ListKeysLists(keys: seq<string>, m: map<string, Command>)
    requires NoRepeat(keys) && forall k | k in m :: m[k].key == k
    ensures forall c: Command :: c in ListKeys(keys, m) <==> c.key in keys && c.key in m && m[c.key] == c
    ensures forall i, j | 0 <= i < j < |ListKeys(keys, m)| :: ListKeys(keys, m)[i].key != ListKeys(keys, m)[j].key
  {
    if keys != [] {
      TailNoRepeat(keys);
      ListKeysLists(keys[1..], m);
      assert keys == [keys[0]] + keys[1..];
      var rest := ListKeys(keys[1..], m);
      forall i | 0 <= i < |rest| ensures rest[i].key != keys[0] { assert rest[i] in rest; }
    }
  }

  lemma TailNoRepeat(keys: seq<string>)
    requires NoRepeat(keys) && keys != []
    ensures NoRepeat(keys[1..]) && keys[0] !in keys[1..]
  {
    forall i, j | 0 <= i < j < |keys[1..]| ensures keys[1..][i] != keys[1..][j] { assert keys[i + 1] != keys[j + 1]; }
    forall i | 0 <= i < |keys[1..]| ensures keys[1..][i] != keys[0] { assert keys[0] != keys[i + 1]; }
  }

  lemma {:induction false} SortedBagIsItself(b: multiset<string>)
    ensures multiset(SortedBag(b)) == b
    decreases |b|
  {
    if |b| > 0 {
      assert exists x :: x in b;
      assert Elements(b) != {};
      SortedBagIsItself(b - multiset{Least(Elements(b))});
    }
  }

  /** Recovery lists every latest command once. */
  lemma ListingLists(m: map<string, Command>)
    requires forall k | k in m :: m[k].key == k
    ensures ControlRuns.Lists(Listing(m), m)
  {
    var keys := SortedBag(multiset(m.Keys));
    SortedBagIsItself(multiset(m.Keys));
    SortedKeysOnce(keys, m.Keys);
    ListKeysLists(keys, m);
    forall k | k in m ensures m[k] in Listing(m) { assert m[k].key in keys; }
    var l := Listing(m);
    forall i | 0 <= i < |l| ensures l[i].key in m && m[l[i].key] == l[i] { assert l[i] in l; }
  }

  /** The map recovery folds out of the log: the commands that were logged, as they were known. */
  lemma LatestIsKnown(cfg: Config, sh: Shared)
    requires Global(cfg, sh)
    ensures var m := Latest(sh.log);
            && (forall k :: k in m <==> Keyed(sh.log, k))
            && (forall k | k in m :: m[k].key == k && Agrees(sh.ctl, LoggedOf(m[k])) && FixedCommand(cfg, k, m[k]))
            && m.Keys <= sh.ctl.commands.Keys && |m| <= cfg.bound
  {
    forall k | k in sh.ctl.commands
      ensures sh.ctl.commands[k].id != "" && k != "" && sh.ctl.commands[k].task != ""
    {
      assert FixedCommand(cfg, k, sh.ctl.commands[k]);
    }
    LatestFromLog(sh.log, sh.ctl);
    var m := Latest(sh.log);
    forall k | k in m ensures FixedCommand(cfg, k, m[k]) && k in sh.ctl.commands {
      assert FixedCommand(cfg, k, sh.ctl.commands[k]);
    }
    SubsetIsSmaller(m.Keys, sh.ctl.commands.Keys);
  }

  /** A log the server wrote never makes recovery fail, and it brings back exactly the logged commands. */
  lemma RecoveryNeverFails(cfg: Config, sh: Shared)
    requires GoodConfig(cfg) && Global(cfg, sh)
    ensures RestoreCommands(NewCtl(cfg.bound), Listing(Latest(sh.log))).1 == Restored
    ensures Recover(cfg, sh.log).commands == Latest(sh.log)
    ensures Recover(cfg, sh.log).count == |Latest(sh.log)| && Recover(cfg, sh.log).maxCommands == cfg.bound
    ensures ControlRuns.TopFences(Recover(cfg, sh.log))
    ensures Recover(cfg, sh.log).stopped <==> EmergencyStopped in sh.log
  {
    LatestIsKnown(cfg, sh);
    var m := Latest(sh.log);
    ListingLists(m);
    ControlRuns.RestoreRebuilds(cfg.bound, Listing(m), m);
    var c := RestoreCommands(NewCtl(cfg.bound), Listing(m)).0;
    assert forall t :: Fence(RestoreEmergencyStop(c, ""), t) == Fence(c, t);
    assert forall t :: ControlRuns.IsTopFence(c.commands, t, Fence(c, t));
  }

  lemma RebootKeepsGlobal(cfg: Config, sh: Shared, appended: bool)
    requires GoodConfig(cfg) && Global(cfg, sh)
    ensures Global(cfg, Reboot(cfg, sh, appended))
  {
    LatestIsKnown(cfg, sh);
    RecoveryNeverFails(cfg, sh);
    var back := sh.(ctl := Recover(cfg, sh.log), claims := {}, rotated := LoggedRotations(sh.log), skewed := {});
    forall i | 0 <= i < |sh.log| && sh.log[i].CommandEvent? && sh.log[i].cmd.Some?
      ensures Agrees(back.ctl, sh.log[i].cmd.value)
    {
      var c := sh.log[i].cmd.value;
      assert Agrees(sh.ctl, c);
      assert NamesKey(sh.log[i], c.key);
      assert Agrees(sh.ctl, LoggedOf(Latest(sh.log)[c.key]));
    }
    assert Global(cfg, back);
    var next := Reboot(cfg, sh, appended);
    AppendGlobal(cfg, back, back.(log := next.log), Note(DispatchInterrupted, ""));
    assert next == back.(log := next.log, fatal := next.fatal);
  }

  lemma StepKeeps(cfg: Config, s: State, step: Step)
    requires GoodConfig(cfg) && Inv(cfg, s)
    ensures Inv(cfg, Do(cfg, s, step))
  {
    hide Act, Reboot, Global, Local, OwnedKey;
    match step
    case Begin(r, request) => BeginKeeps(cfg, s, r, request);
    case Advance(r, ch) => if r in s.reqs { AdvanceKeeps(cfg, s, r, ch); }
    case Restart(appended) => RebootKeepsGlobal(cfg, s.sh, appended);
  }

  lemma InitHolds(cfg: Config)
    requires GoodConfig(cfg)
    ensures Inv(cfg, Init(cfg))
  {
    var s := Init(cfg);
    assert forall e | e in s.reqs[0].events :: e.Note?;
    assert Plain(cfg, s.reqs[0]);
    PlainIsLocal(cfg, s.sh, s.reqs[0]);
  }

  /** The invariant holds after any steps of any requests, with any failures and restarts in between. */
  lemma {:induction false} InvAlways(cfg: Config, steps: seq<Step>)
    requires GoodConfig(cfg)
    ensures Inv(cfg, Exec(cfg, steps))
    decreases |steps|
  {
    if steps == [] {
      InitHolds(cfg);
    } else {
      InvAlways(cfg, steps[..|steps| - 1]);
      StepKeeps(cfg, Exec(cfg, steps[..|steps| - 1]), steps[|steps| - 1]);
    }
  }

  // ---- what follows

  /** No command is sent to an adapter twice: not by concurrent requests, not after a failed append, not across restarts. */
  lemma SentAtMostOnce(cfg: Config, steps: seq<Step>, i: nat, j: nat)
    requires GoodConfig(cfg)
    requires i < j < |Exec(cfg, steps).sh.calls|
    ensures Exec(cfg, steps).sh.calls[i].key != Exec(cfg, steps).sh.calls[j].key
  {
    InvAlways(cfg, steps);
  }

  /** Nothing reaches an adapter before its request is in the log. */
  lemma SentOnlyIfLogged(cfg: Config, steps: seq<Step>, i: nat)
    requires GoodConfig(cfg) && i < |Exec(cfg, steps).sh.calls|
    ensures Keyed(Exec(cfg, steps).sh.log, Exec(cfg, steps).sh.calls[i].key)
  {
    InvAlways(cfg, steps);
  }

  /** One request at a time polls a command. */
  lemma PolledByOne(cfg: Config, steps: seq<Step>, r: nat, q: nat)
    requires GoodConfig(cfg)
    requires var reqs := Exec(cfg, steps).reqs;
             && r in reqs && q in reqs && r != q
             && reqs[r].InCheck? && PolledKey(reqs[r].check).Some?
             && reqs[q].InCheck? && PolledKey(reqs[q].check).Some?
    ensures PolledKey(Exec(cfg, steps).reqs[r].check) != PolledKey(Exec(cfg, steps).reqs[q].check)
  {
    hide Do, Inv, Global, Local;
    InvAlways(cfg, steps);
    var s := Exec(cfg, steps);
    assert Apart(cfg, s.reqs[r], s.reqs[q]);
  }

  /** At every point of every run a restart succeeds, with the commands, ids, tasks and fences the log holds. */
  lemma RestartAlwaysRestores(cfg: Config, steps: seq<Step>)
    requires GoodConfig(cfg)
    ensures var sh := Exec(cfg, steps).sh;
            && RestoreCommands(NewCtl(cfg.bound), Listing(Latest(sh.log))).1 == Restored
            && Recover(cfg, sh.log).commands.Keys <= sh.ctl.commands.Keys
            && forall k | k in Recover(cfg, sh.log).commands ::
                 && Recover(cfg, sh.log).commands[k].id == sh.ctl.commands[k].id
                 && Recover(cfg, sh.log).commands[k].task == sh.ctl.commands[k].task
                 && Recover(cfg, sh.log).commands[k].fence == sh.ctl.commands[k].fence
  {
    InvAlways(cfg, steps);
    var sh := Exec(cfg, steps).sh;
    RecoveryNeverFails(cfg, sh);
    LatestIsKnown(cfg, sh);
  }
}
