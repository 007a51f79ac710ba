/** What holds of a controller over every sequence of calls. */
module ControlRuns {
  import opened Model
  import opened Sequences
  import opened Control

  datatype Op =
    | Request(cmd: Command, now: int)
    | Move(key: string, to: CommandState, result: string, error: string, now: int)
    | RotateFence(key: string, task: string, now: int)
    | Restore(cmds: seq<Command>)
    | RaiseFence(task: string, token: nat)
    | Execute(key: string, outcome: Option<string>)
    | Renew(task: string)
    | Acquire(task: string, holder: string, now: int, ttl: int)
    | Stop(reason: string)
    | StopRestored(reason: string)

  function Apply(c: Ctl, op: Op): Ctl {
    match op
    case Request(cmd, now) => RequestOnce(c, cmd, now).0
    case Move(key, to, result, error, now) => Transition(c, key, to, result, error, now).0
    case RotateFence(key, task, now) => Rotate(c, key, task, now).0
    case Restore(cmds) => RestoreCommands(c, cmds).0
    case RaiseFence(task, token) => Control.RestoreFence(c, task, token).0
    case Execute(key, outcome) => ExecuteOnce(c, key, outcome).0
    case Renew(task) => RenewLease(c, task).0
    case Acquire(task, holder, now, ttl) => AcquireLease(c, task, holder, now, ttl).0
    case Stop(reason) => EmergencyStop(c, reason)
    case StopRestored(reason) => RestoreEmergencyStop(c, reason)
  }

  function Run(c: Ctl, ops: seq<Op>): Ctl
    decreases |ops|
  {
    if ops == [] then c else Run(Apply(c, ops[0]), ops[1..])
  }

  /** Every restore in the run is one the server would keep. */
  predicate RestoresSucceed(c: Ctl, ops: seq<Op>)
    decreases |ops|
  {
    ops == [] ||
    ((ops[0].Restore? ==> RestoreCommands(c, ops[0].cmds).1 == Restored) && RestoresSucceed(Apply(c, ops[0]), ops[1..]))
  }

  predicate NoRestore(ops: seq<Op>) {
    forall i | 0 <= i < |ops| :: !ops[i].Restore?
  }

  // ---- the invariant

  ghost predicate Named(c: Ctl) {
    forall k | k in c.commands :: c.commands[k].key == k && k != "" && c.commands[k].id != "" && c.commands[k].task != ""
  }

  ghost predicate ResultsStored(c: Ctl) {
    forall k | k in c.commands && (c.commands[k].state == Completed || c.commands[k].state == Reconciled) ::
      k in c.results && c.results[k] == c.commands[k].result
  }

  ghost predicate LeasesFenced(c: Ctl) {
    forall t | t in c.leases :: c.leases[t].task == t && 0 < c.leases[t].token <= Fence(c, t)
  }

  ghost predicate Valid(c: Ctl) {
    Named(c) && ResultsStored(c) && LeasesFenced(c) && |c.commands| == c.count <= c.maxCommands
  }

  /** The invariant without the bound, which a restore may break before it is refused. */
  ghost predicate Sound(c: Ctl) {
    Named(c) && ResultsStored(c) && LeasesFenced(c) && |c.commands| == c.count
  }

  /** One command is put in place, results grow by what it needs, and no fence falls. */
  ghost predicate SetsOne(c: Ctl, next: Ctl, cmd: Command) {
    && next.commands == c.commands[cmd.key := cmd]
    && next.leases == c.leases
    && (forall k | k in c.results && k != cmd.key :: k in next.results && next.results[k] == c.results[k])
    && (forall t :: Fence(c, t) <= Fence(next, t))
  }

  lemma SetOneIsSound(c: Ctl, next: Ctl, cmd: Command)
    requires Named(c) && ResultsStored(c) && LeasesFenced(c) && SetsOne(c, next, cmd)
    requires cmd.key != "" && cmd.id != "" && cmd.task != ""
    requires cmd.state == Completed || cmd.state == Reconciled ==> cmd.key in next.results && next.results[cmd.key] == cmd.result
    ensures Named(next) && ResultsStored(next) && LeasesFenced(next)
  {
    forall k | k in next.commands && (next.commands[k].state == Completed || next.commands[k].state == Reconciled)
      ensures k in next.results && next.results[k] == next.commands[k].result
    {
      if k != cmd.key { assert next.commands[k] == c.commands[k]; }
    }
    forall t | t in next.leases ensures next.leases[t].token <= Fence(next, t) { assert Fence(c, t) <= Fence(next, t); }
  }

  lemma SetOneCounts(m: map<string, Command>, key: string, cmd: Command)
    ensures |m[key := cmd]| == |m| + if key in m then 0 else 1
  {
    var n := m[key := cmd];
    assert n.Keys == m.Keys + {key};
    assert |n| == |n.Keys| && |m| == |m.Keys|;
  }

  lemma {:induction false} RestoreIsSound(c: Ctl, cmds: seq<Command>)
    requires Sound(c)
    ensures var r := RestoreCommands(c, cmds);
            Sound(r.0) && r.0.maxCommands == c.maxCommands && (r.1 == Restored ==> r.0.count <= r.0.maxCommands)
    decreases |cmds|
  {
    if cmds != [] {
      var cmd := cmds[0];
      if cmd.key != "" && cmd.id != "" && cmd.task != "" && cmd.key !in c.commands {
        RestoreOneIsSound(c, cmd);
        RestoreIsSound(RestoreOne(c, cmd), cmds[1..]);
      }
    }
  }

  lemma RestoreOneIsSound(c: Ctl, cmd: Command)
    requires Sound(c) && cmd.key != "" && cmd.id != "" && cmd.task != "" && cmd.key !in c.commands
    ensures Sound(RestoreOne(c, cmd))
  {
    SetOneCounts(c.commands, cmd.key, cmd);
    SetOneIsSound(c, RestoreOne(c, cmd), cmd);
  }

  lemma RequestIsValid(c: Ctl, cmd: Command, now: int)
    requires Valid(c)
    ensures Valid(RequestOnce(c, cmd, now).0)
  {
    var (next, made) := RequestOnce(c, cmd, now);
    if made.Created? {
      SetOneCounts(c.commands, cmd.key, made.cmd);
      SetOneIsSound(c, next, made.cmd);
    }
  }

  lemma MoveIsValid(c: Ctl, key: string, to: CommandState, result: string, error: string, now: int)
    requires Valid(c)
    ensures Valid(Transition(c, key, to, result, error, now).0)
  {
    var (next, moved) := Transition(c, key, to, result, error, now);
    if moved.Some? {
      SetOneCounts(c.commands, key, moved.value);
      SetOneIsSound(c, next, moved.value);
    }
  }

  lemma RotateIsValid(c: Ctl, key: string, task: string, now: int)
    requires Valid(c)
    ensures Valid(Rotate(c, key, task, now).0)
  {
    var (next, moved) := Rotate(c, key, task, now);
    if moved.Some? {
      SetOneCounts(c.commands, key, moved.value);
      SetOneIsSound(c, next, moved.value);
    }
  }

  lemma AcquireIsValid(c: Ctl, task: string, holder: string, now: int, ttl: int)
    requires Valid(c)
    ensures Valid(AcquireLease(c, task, holder, now, ttl).0)
  {
    assert forall t :: Fence(c, t) <= Fence(AcquireLease(c, task, holder, now, ttl).0, t);
  }

  lemma ExecuteIsValid(c: Ctl, key: string, outcome: Option<string>)
    requires Valid(c)
    ensures Valid(ExecuteOnce(c, key, outcome).0)
  {
    assert forall t :: Fence(c, t) == Fence(ExecuteOnce(c, key, outcome).0, t);
  }

  /** Calls that raise fences, or stop, and touch nothing else. */
  lemma FencesIsValid(c: Ctl, next: Ctl)
    requires Valid(c)
    requires next == c.(fences := next.fences, stopped := next.stopped, stopReason := next.stopReason)
    requires forall t :: Fence(c, t) <= Fence(next, t)
    ensures Valid(next)
  {
  }

  lemma StepIsValid(c: Ctl, op: Op)
    requires Valid(c) && (op.Restore? ==> RestoreCommands(c, op.cmds).1 == Restored)
    ensures Valid(Apply(c, op))
  {
    match op
    case Restore(cmds) => RestoreIsSound(c, cmds);
    case Request(cmd, now) => RequestIsValid(c, cmd, now);
    case Move(key, to, result, error, now) => MoveIsValid(c, key, to, result, error, now);
    case RotateFence(key, task, now) => RotateIsValid(c, key, task, now);
    case Acquire(task, holder, now, ttl) => AcquireIsValid(c, task, holder, now, ttl);
    case RaiseFence(task, token) => FencesIsValid(c, Control.RestoreFence(c, task, token).0);
    case Renew(task) => FencesIsValid(c, RenewLease(c, task).0);
    case Stop(reason) => FencesIsValid(c, EmergencyStop(c, reason));
    case StopRestored(reason) => FencesIsValid(c, RestoreEmergencyStop(c, reason));
    case Execute(key, outcome) => ExecuteIsValid(c, key, outcome);
  }

  /** Counting, naming, stored results and lease tokens stay right over every run whose restores succeed. */
  lemma {:induction false} ValidThroughout(c: Ctl, ops: seq<Op>)
    requires Valid(c) && RestoresSucceed(c, ops)
    ensures Valid(Run(c, ops))
    decreases |ops|
  {
    if ops != [] {
      StepIsValid(c, ops[0]);
      ValidThroughout(Apply(c, ops[0]), ops[1..]);
    }
  }

  // ---- the life cycle

  /** States a command may still come to, including the one it is in. */
  predicate Reaches(from: CommandState, to: CommandState) {
    match from
    case Requested => true
    case Acknowledged => to != Requested
    case Polling => to != Requested
    case OutcomeUnknown => to == OutcomeUnknown || to == Reconciled
    case _ => to == from
  }

  /** The moves of a command, from state to state. */
  const MOVES: set<(CommandState, CommandState)> := {
    (Requested, Acknowledged), (Requested, Failed), (Requested, Cancelled),
    (Acknowledged, Polling), (Acknowledged, Completed), (Acknowledged, Failed), (Acknowledged, Cancelled),
    (Acknowledged, OutcomeUnknown),
    (Polling, Acknowledged), (Polling, Completed), (Polling, Failed), (Polling, Cancelled),
    (OutcomeUnknown, Reconciled)}

  /** A transition goes through exactly along one of the moves; then only that command has changed, in state, result and
      error, and the result is kept by key exactly when it is completed or reconciled. */
  lemma TransitionsAreTheMoves(c: Ctl, key: string, to: CommandState, result: string, error: string, now: int)
    ensures var (next, cmd) := Transition(c, key, to, result, error, now);
            && (cmd.Some? <==> key in c.commands && (c.commands[key].state, to) in MOVES)
            && (cmd.None? ==> next == c)
            && (cmd.Some? ==>
                  && cmd.value.result == result && cmd.value.error == error && cmd.value.state == to
                  && next.commands == c.commands[key := cmd.value]
                  && (forall k :: k in next.results <==> k in c.results || (k == key && (to == Completed || to == Reconciled)))
                  && (to == Completed || to == Reconciled ==> next.results[key] == result)
                  && cmd.value.id == c.commands[key].id && cmd.value.task == c.commands[key].task
                  && cmd.value.fence == c.commands[key].fence && next.fences == c.fences)
  {
  }

  /** A recovered token raises its task's fence to itself or leaves it, and no other fence changes. */
  lemma RecoveredTokensCount(c: Ctl, task: string, token: nat, other: string)
    ensures var (next, ok) := Control.RestoreFence(c, task, token);
            && (ok <==> task != "" && token > 0)
            && Fence(next, other) == (if ok && other == task && token > Fence(c, task) then token else Fence(c, other))
            && next.commands == c.commands
  {
  }

  lemma ReachesTransitive(a: CommandState, b: CommandState, c: CommandState)
    requires Reaches(a, b) && Reaches(b, c)
    ensures Reaches(a, c)
  {
  }

  predicate Terminal(s: CommandState) {
    s == Completed || s == Failed || s == Cancelled || s == Reconciled
  }

  /** `after` knows every command of `before` under the same id and task, no earlier in its life. */
  ghost predicate Progressed(before: Ctl, after: Ctl) {
    && before.commands.Keys <= after.commands.Keys
    && (forall k | k in before.commands ::
          && after.commands[k].id == before.commands[k].id
          && after.commands[k].task == before.commands[k].task
          && Reaches(before.commands[k].state, after.commands[k].state)
          && (Terminal(before.commands[k].state) ==> after.commands[k].result == before.commands[k].result))
    && (forall t :: Fence(before, t) <= Fence(after, t))
    && (before.stopped ==> after.stopped)
  }

  lemma RestoreOneProgresses(c: Ctl, cmd: Command)
    requires cmd.key !in c.commands
    ensures Progressed(c, RestoreOne(c, cmd))
  {
    assert forall k | k in c.commands :: RestoreOne(c, cmd).commands[k] == c.commands[k];
    assert forall t :: Fence(c, t) <= Fence(RestoreOne(c, cmd), t);
  }

  lemma {:induction false} RestoreProgresses(c: Ctl, cmds: seq<Command>)
    ensures Progressed(c, RestoreCommands(c, cmds).0)
    decreases |cmds|
  {
    hide Progressed;
    ProgressedItself(c);
    if cmds != [] {
      var cmd := cmds[0];
      if cmd.key != "" && cmd.id != "" && cmd.task != "" && cmd.key !in c.commands {
        RestoreOneProgresses(c, cmd);
        RestoreProgresses(RestoreOne(c, cmd), cmds[1..]);
        ProgressedTransitive(c, RestoreOne(c, cmd), RestoreCommands(c, cmds).0);
      }
    }
  }

  lemma ProgressedTransitive(a: Ctl, b: Ctl, c: Ctl)
    requires Progressed(a, b) && Progressed(b, c)
    ensures Progressed(a, c)
  {
    forall k | k in a.commands ensures Reaches(a.commands[k].state, c.commands[k].state) {
      ReachesTransitive(a.commands[k].state, b.commands[k].state, c.commands[k].state);
    }
    forall t ensures Fence(a, t) <= Fence(c, t) { assert Fence(a, t) <= Fence(b, t) <= Fence(c, t); }
  }

  lemma StepProgresses(c: Ctl, op: Op)
    ensures Progressed(c, Apply(c, op))
  {
    match op
    case Restore(cmds) => RestoreProgresses(c, cmds);
    case Request(cmd, now) => RequestProgresses(c, cmd, now);
    case Move(key, to, result, error, now) => MoveProgresses(c, key, to, result, error, now);
    case RotateFence(key, task, now) => RotateProgresses(c, key, task, now);
    case Acquire(task, holder, now, ttl) => FencesProgress(c, AcquireLease(c, task, holder, now, ttl).0);
    case RaiseFence(task, token) => FencesProgress(c, Control.RestoreFence(c, task, token).0);
    case Renew(task) => FencesProgress(c, RenewLease(c, task).0);
    case Stop(reason) => FencesProgress(c, EmergencyStop(c, reason));
    case StopRestored(reason) => FencesProgress(c, RestoreEmergencyStop(c, reason));
    case Execute(key, outcome) => FencesProgress(c, ExecuteOnce(c, key, outcome).0);
  }

  lemma FencesProgress(c: Ctl, next: Ctl)
    requires next.commands == c.commands && (c.stopped ==> next.stopped)
    requires forall t :: Fence(c, t) <= Fence(next, t)
    ensures Progressed(c, next)
  {
  }

  lemma RequestProgresses(c: Ctl, cmd: Command, now: int)
    ensures Progressed(c, RequestOnce(c, cmd, now).0)
  {
    assert forall t :: Fence(RequestOnce(c, cmd, now).0, t) == Fence(c, t);
  }

  lemma ProgressedItself(c: Ctl)
    ensures Progressed(c, c)
  {
  }

  lemma SetOneProgresses(c: Ctl, next: Ctl, key: string, cmd: Command)
    requires key in c.commands && next.commands == c.commands[key := cmd] && next.stopped == c.stopped
    requires cmd.id == c.commands[key].id && cmd.task == c.commands[key].task && Reaches(c.commands[key].state, cmd.state)
    requires Terminal(c.commands[key].state) ==> cmd.result == c.commands[key].result
    requires forall t :: Fence(c, t) <= Fence(next, t)
    ensures Progressed(c, next)
  {
  }

  lemma MoveProgresses(c: Ctl, key: string, to: CommandState, result: string, error: string, now: int)
    ensures Progressed(c, Transition(c, key, to, result, error, now).0)
  {
    var (next, moved) := Transition(c, key, to, result, error, now);
    if moved.None? { ProgressedItself(c); } else { SetOneProgresses(c, next, key, moved.value); }
  }

  lemma RotateProgresses(c: Ctl, key: string, task: string, now: int)
    ensures Progressed(c, Rotate(c, key, task, now).0)
  {
    var (next, moved) := Rotate(c, key, task, now);
    if moved.None? { ProgressedItself(c); } else { SetOneProgresses(c, next, key, moved.value); }
  }

  /** Over any run: a command keeps its id and task, only moves forward, and stays put once terminal; an unknown outcome
      is left by reconciliation only; fences never go back; a stop is never lifted. */
  lemma {:induction false} ProgressThroughout(c: Ctl, ops: seq<Op>)
    ensures Progressed(c, Run(c, ops))
    decreases |ops|
  {
    if ops != [] {
      var next := Apply(c, ops[0]);
      StepProgresses(c, ops[0]);
      ProgressThroughout(next, ops[1..]);
      ProgressedTransitive(c, next, Run(next, ops[1..]));
    }
  }

  lemma TerminalIsForever(c: Ctl, ops: seq<Op>, k: string)
    requires k in c.commands
    ensures var after := Run(c, ops).commands;
            && k in after
            && (Terminal(c.commands[k].state) ==>
                  after[k].state == c.commands[k].state && after[k].result == c.commands[k].result)
            && (c.commands[k].state == OutcomeUnknown ==> after[k].state == OutcomeUnknown || after[k].state == Reconciled)
  {
    ProgressThroughout(c, ops);
  }

  /** After an emergency stop no command is created, whatever is called. */
  lemma {:induction false} StopFreezesCommands(c: Ctl, ops: seq<Op>)
    requires c.stopped && NoRestore(ops)
    ensures Run(c, ops).commands.Keys == c.commands.Keys
    decreases |ops|
  {
    if ops != [] {
      assert !ops[0].Restore?;
      StepProgresses(c, ops[0]);
      assert Apply(c, ops[0]).commands.Keys == c.commands.Keys;
      StopFreezesCommands(Apply(c, ops[0]), ops[1..]);
    }
  }

  // ---- tokens

  datatype Token = Token(task: string, value: nat)

  /** The token a call hands out, if any. */
  function Issued(c: Ctl, op: Op): Option<Token> {
    match op
    case RotateFence(key, task, now) =>
      var r := Rotate(c, key, task, now).1;
      if r.Some? then Some(Token(task, r.value.fence)) else None
    case Renew(task) => Some(Token(task, RenewLease(c, task).1))
    case Acquire(task, holder, now, ttl) =>
      var r := AcquireLease(c, task, holder, now, ttl).1;
      if r.Acquired? then Some(Token(task, r.lease.token)) else None
    case _ => None
  }

  /** A later token for a task is greater than every earlier one, across any calls in between. */
  lemma TokensGrow(c: Ctl, first: Op, between: seq<Op>, second: Op)
    requires Issued(c, first).Some?
    requires Issued(Run(Apply(c, first), between), second).Some?
    requires Issued(c, first).value.task == Issued(Run(Apply(c, first), between), second).value.task
    ensures Issued(c, first).value.value < Issued(Run(Apply(c, first), between), second).value.value
  {
    var t := Issued(c, first).value.task;
    ProgressThroughout(Apply(c, first), between);
    assert Issued(c, first).value.value <= Fence(Apply(c, first), t);
  }

  /** A token older than the current fence is refused for good. */
  lemma StaleTokenNeverCommits(c: Ctl, ops: seq<Op>, task: string, token: nat)
    requires token < Fence(c, task)
    ensures !Commit(Run(c, ops), task, token)
  {
    ProgressThroughout(c, ops);
  }

  // ---- leases

  /** When the call happens on the clock, for the calls that read it in a lease decision. */
  predicate Before(op: Op, t: int) {
    op.Acquire? ==> op.now < t
  }

  predicate LeavesAlone(op: Op, task: string, holder: string) {
    op.Acquire? && op.task == task ==> op.holder != holder
  }

  lemma LeaseStep(c: Ctl, op: Op, lease: Lease)
    requires lease.task in c.leases && c.leases[lease.task] == lease
    requires Before(op, lease.expires) && LeavesAlone(op, lease.task, lease.holder)
    ensures lease.task in Apply(c, op).leases && Apply(c, op).leases[lease.task] == lease
  {
    match op
    case Restore(cmds) => RestoreKeepsLeases(c, cmds);
    case _ =>
  }

  lemma {:induction false} RestoreKeepsLeases(c: Ctl, cmds: seq<Command>)
    ensures RestoreCommands(c, cmds).0.leases == c.leases
    decreases |cmds|
  {
    if cmds != [] {
      var cmd := cmds[0];
      if cmd.key != "" && cmd.id != "" && cmd.task != "" && cmd.key !in c.commands {
        RestoreKeepsLeases(RestoreOne(c, cmd), cmds[1..]);
      }
    }
  }

  /** Until it expires or its holder takes it again, a lease stays the task's only one: nobody else acquires it, and
      nobody else's lease commits. */
  lemma {:induction false} LeaseIsExclusive(c: Ctl, ops: seq<Op>, lease: Lease, other: Lease, now: int)
    requires lease.task in c.leases && c.leases[lease.task] == lease
    requires forall i | 0 <= i < |ops| :: Before(ops[i], lease.expires) && LeavesAlone(ops[i], lease.task, lease.holder)
    ensures lease.task in Run(c, ops).leases && Run(c, ops).leases[lease.task] == lease
    ensures other.task == lease.task && other.holder != lease.holder ==> !CommitLease(Run(c, ops), other, now)
    decreases |ops|
  {
    if ops != [] {
      LeaseStep(c, ops[0], lease);
      LeaseIsExclusive(Apply(c, ops[0]), ops[1..], lease, other, now);
    }
  }

  ghost predicate LeaseTokensGrow(before: Ctl, after: Ctl) {
    forall t | t in before.leases :: t in after.leases && before.leases[t].token <= after.leases[t].token
  }

  lemma LeaseTokensStep(c: Ctl, op: Op)
    requires Valid(c)
    ensures LeaseTokensGrow(c, Apply(c, op))
  {
    if op.Restore? { RestoreKeepsLeases(c, op.cmds); }
  }

  lemma {:induction false} LeaseTokensThroughout(c: Ctl, ops: seq<Op>)
    requires Valid(c) && RestoresSucceed(c, ops)
    ensures LeaseTokensGrow(c, Run(c, ops))
    decreases |ops|
  {
    if ops != [] {
      StepIsValid(c, ops[0]);
      LeaseTokensStep(c, ops[0]);
      LeaseTokensThroughout(Apply(c, ops[0]), ops[1..]);
      LeaseTokensChain(c, Apply(c, ops[0]), Run(c, ops));
    }
  }

  lemma LeaseTokensChain(a: Ctl, b: Ctl, c: Ctl)
    requires LeaseTokensGrow(a, b) && LeaseTokensGrow(b, c)
    ensures LeaseTokensGrow(a, c)
  {
    forall t | t in a.leases ensures t in c.leases && a.leases[t].token <= c.leases[t].token { assert t in b.leases; }
  }

  /** Once a task's lease has been taken anew, the older lease never commits again. */
  lemma SupersededLeaseNeverCommits(c: Ctl, ops: seq<Op>, stale: Lease, now: int)
    requires Valid(c) && RestoresSucceed(c, ops)
    requires stale.task in c.leases && stale.token < c.leases[stale.task].token
    ensures !CommitLease(Run(c, ops), stale, now)
  {
    LeaseTokensThroughout(c, ops);
  }

  // ---- what a single call settles for good

  /** A key creates one command over all calls: asked for again, at any later time, it is answered with that command. */
  lemma KeyCreatesOneCommand(c: Ctl, cmd: Command, now: int, ops: seq<Op>, again: Command, later: int)
    requires RequestOnce(c, cmd, now).1.Created? && again.key == cmd.key
    ensures var answer := RequestOnce(Run(Apply(c, Request(cmd, now)), ops), again, later).1;
            && !answer.Created?
            && (answer.Existing? ==> answer.prior.id == cmd.id && answer.prior.task == cmd.task)
  {
    ProgressThroughout(Apply(c, Request(cmd, now)), ops);
  }

  /** A command settles once over all calls: after its first final transition it keeps that state and that result, and
      every other transition is refused. */
  lemma OutcomeSettlesOnce(c: Ctl, key: string, to: CommandState, result: string, error: string, now: int, ops: seq<Op>)
    requires Transition(c, key, to, result, error, now).1.Some? && Terminal(to)
    ensures var after := Run(Apply(c, Move(key, to, result, error, now)), ops);
            && key in after.commands && after.commands[key].state == to && after.commands[key].result == result
            && forall other, r, e, t :: Transition(after, key, other, r, e, t) == (after, None)
  {
    ProgressThroughout(Apply(c, Move(key, to, result, error, now)), ops);
  }

  /** Whichever way a token is issued: it is accepted from now on, unless the controller is stopped, and every token the task
      had until then is refused for good. */
  lemma IssuedTokenSupersedes(c: Ctl, op: Op, ops: seq<Op>, older: nat)
    requires Issued(c, op).Some? && older <= Fence(c, Issued(c, op).value.task)
    ensures var token := Issued(c, op).value;
            && (Commit(Apply(c, op), token.task, token.value) <==> !c.stopped)
            && !Commit(Run(Apply(c, op), ops), token.task, older)
  {
    var token := Issued(c, op).value;
    assert Fence(Apply(c, op), token.task) == token.value;
    assert Fence(c, token.task) < token.value;
    StaleTokenNeverCommits(Apply(c, op), ops, token.task, older);
  }

  /** A lease is granted exactly when nobody else's lease of the task could commit now, and then nobody else's can until it
      expires. */
  lemma LeaseGoesToOneHolder(c: Ctl, task: string, holder: string, now: int, ttl: int)
    requires Valid(c)
    ensures var (after, r) := AcquireLease(c, task, holder, now, ttl);
            && (r.Acquired? <==>
                  && !c.stopped && task != "" && holder != "" && ttl > 0
                  && forall l: Lease | l.task == task && CommitLease(c, l, now) :: l.holder == holder)
            && (r.Acquired? ==> forall l: Lease, t | l.task == task && t < now + ttl ::
                  CommitLease(after, l, t) <==> l.holder == holder && l.token == r.lease.token)
            && (!r.Acquired? ==> after == c)
  {
    if !c.stopped && task in c.leases && now < c.leases[task].expires { assert CommitLease(c, c.leases[task], now); }
  }

  // ---- restoring a listing of commands

  /** `cmds` lists the values of `m`, each once. */
  ghost predicate Lists(cmds: seq<Command>, m: map<string, Command>) {
    && (forall i | 0 <= i < |cmds| :: cmds[i].key in m && m[cmds[i].key] == cmds[i])
    && (forall k | k in m :: m[k].key == k && m[k] in cmds)
    && (forall i, j | 0 <= i < j < |cmds| :: cmds[i].key != cmds[j].key)
  }

  /** `f` is the greatest fence among the commands of `task`, or zero. */
  ghost predicate IsTopFence(m: map<string, Command>, task: string, f: nat) {
    && (forall k | k in m && m[k].task == task :: m[k].fence <= f)
    && (f == 0 || exists k | k in m :: m[k].task == task && m[k].fence == f)
  }

  ghost predicate TopFences(c: Ctl) {
    forall t :: IsTopFence(c.commands, t, Fence(c, t))
  }

  lemma RestoreOneKeepsTop(c: Ctl, cmd: Command)
    requires TopFences(c) && cmd.key !in c.commands
    ensures TopFences(RestoreOne(c, cmd))
  {
    var next := RestoreOne(c, cmd);
    forall t ensures IsTopFence(next.commands, t, Fence(next, t)) {
      assert IsTopFence(c.commands, t, Fence(c, t));
      if Fence(c, t) != 0 {
        var k :| k in c.commands && c.commands[k].task == t && c.commands[k].fence == Fence(c, t);
        assert k in next.commands && next.commands[k] == c.commands[k];
      }
      assert next.commands[cmd.key] == cmd;
    }
  }

  ghost predicate Fillable(m: map<string, Command>) {
    forall k | k in m :: m[k].key == k && k != "" && m[k].id != "" && m[k].task != ""
  }

  /** `after` holds what `c` held and the listed commands. */
  ghost predicate Holds(c: Ctl, cmds: seq<Command>, after: Ctl) {
    && (forall k :: k in after.commands <==> k in c.commands || Listed(cmds, k))
    && (forall k | k in c.commands :: after.commands[k] == c.commands[k])
    && (forall i | 0 <= i < |cmds| :: cmds[i].key in after.commands && after.commands[cmds[i].key] == cmds[i])
  }

  ghost predicate Listed(cmds: seq<Command>, k: string) {
    exists i | 0 <= i < |cmds| :: cmds[i].key == k
  }

  lemma ListedFirst(cmds: seq<Command>, k: string)
    requires cmds != []
    ensures Listed(cmds, k) <==> cmds[0].key == k || Listed(cmds[1..], k)
  {
    if Listed(cmds, k) {
      var i :| 0 <= i < |cmds| && cmds[i].key == k;
      if i > 0 { assert cmds[1..][i - 1].key == k; }
    }
    if Listed(cmds[1..], k) {
      var i :| 0 <= i < |cmds[1..]| && cmds[1..][i].key == k;
      assert cmds[i + 1].key == k;
    }
  }

  lemma HoldsStep(c: Ctl, cmds: seq<Command>, after: Ctl)
    requires cmds != [] && cmds[0].key !in c.commands && Holds(RestoreOne(c, cmds[0]), cmds[1..], after)
    ensures Holds(c, cmds, after)
  {
    forall k ensures k in after.commands <==> k in c.commands || Listed(cmds, k) { ListedFirst(cmds, k); }
    forall i | 0 <= i < |cmds| ensures cmds[i].key in after.commands && after.commands[cmds[i].key] == cmds[i] {
      if i > 0 { assert cmds[1..][i - 1] == cmds[i]; }
    }
  }

  ghost predicate Restorable(c: Ctl, cmds: seq<Command>) {
    && (forall i | 0 <= i < |cmds| :: cmds[i].key != "" && cmds[i].id != "" && cmds[i].task != "")
    && (forall i | 0 <= i < |cmds| :: cmds[i].key !in c.commands)
    && (forall i, j | 0 <= i < j < |cmds| :: cmds[i].key != cmds[j].key)
  }

  lemma RestorableRest(c: Ctl, cmds: seq<Command>)
    requires cmds != [] && Restorable(c, cmds)
    ensures Restorable(RestoreOne(c, cmds[0]), cmds[1..])
  {
  }

  lemma {:induction false} RestoreAdds(c: Ctl, cmds: seq<Command>)
    requires TopFences(c) && Restorable(c, cmds)
    ensures var (after, verdict) := RestoreCommands(c, cmds);
            && TopFences(after) && Holds(c, cmds, after)
            && after.count == c.count + |cmds|
            && after.maxCommands == c.maxCommands && after.stopped == c.stopped && after.leases == c.leases
            && (verdict == Restored <==> after.count <= after.maxCommands)
    decreases |cmds|
  {
    hide TopFences, Holds;
    if cmds == [] {
      HoldsNothing(c);
    } else {
      RestoreOneKeepsTop(c, cmds[0]);
      RestorableRest(c, cmds);
      RestoreAdds(RestoreOne(c, cmds[0]), cmds[1..]);
      HoldsStep(c, cmds, RestoreCommands(c, cmds).0);
    }
  }

  lemma HoldsNothing(c: Ctl)
    ensures Holds(c, [], c)
  {
  }

  /** Whatever order a map of commands is listed in, restoring it into a fresh controller rebuilds exactly that map,
      with each task's fence at the greatest token seen; it fails only when the map is over the bound. */
  lemma RestoreRebuilds(max: int, cmds: seq<Command>, m: map<string, Command>)
    requires Lists(cmds, m) && Fillable(m)
    ensures var (c, verdict) := RestoreCommands(NewCtl(max), cmds);
            && c.commands == m && c.count == |m| && c.maxCommands == NewCtl(max).maxCommands && !c.stopped
            && (verdict == Restored <==> |m| <= c.maxCommands)
            && TopFences(c)
  {
    hide RestoreCommands, TopFences;
    NewHasTop(max);
    RestoreAdds(NewCtl(max), cmds);
    var c := RestoreCommands(NewCtl(max), cmds).0;
    forall k ensures k in c.commands <==> k in m {
      if k in m {
        var i :| 0 <= i < |cmds| && cmds[i] == m[k];
        assert cmds[i].key == k;
      }
    }
    forall k | k in m ensures c.commands[k] == m[k] {
      var i :| 0 <= i < |cmds| && cmds[i] == m[k];
      assert c.commands[cmds[i].key] == cmds[i];
    }
    assert c.commands == m;
    KeyCount(cmds, m);
  }

  lemma NewHasTop(max: int)
    ensures TopFences(NewCtl(max))
  {
  }

  lemma KeyCount(cmds: seq<Command>, m: map<string, Command>)
    requires Lists(cmds, m)
    ensures |cmds| == |m|
  {
    var keys := seq(|cmds|, i requires 0 <= i < |cmds| => cmds[i].key);
    NoRepeatCounts(keys);
    forall k ensures k in keys <==> k in m {
      if k in m {
        var i :| 0 <= i < |cmds| && cmds[i] == m[k];
        assert keys[i] == k;
      }
    }
    assert (set k | k in keys) == m.Keys;
  }
}
