/** The per-run command controller: idempotent commands, their life cycle, fencing tokens, leases and the emergency stop.
    Each operation is a function on controller values; the class carries it out on its fields. */
module Control {
  import opened Model
  import opened Ordering
  import opened Sequences

  datatype CommandState =
    | Requested
    | Acknowledged
    | Completed
    | Failed
    | OutcomeUnknown
    | Reconciled
    | Cancelled
    | Polling

  datatype Command = Command(
    id: string,
    key: string,
    task: string,
    state: CommandState,
    fence: nat,
    result: string,
    error: string,
    requestedAt: int,
    updatedAt: int)

  datatype Lease = Lease(task: string, token: nat, holder: string, expires: int)

  datatype Ctl = Ctl(
    results: map<string, string>,
    fences: map<string, nat>,
    leases: map<string, Lease>,
    commands: map<string, Command>,
    stopped: bool,
    stopReason: string,
    maxCommands: nat,
    count: nat)

  function NewCtl(max: int): Ctl {
    Ctl(map[], map[], map[], map[], false, "", if max <= 0 then 1 else max, 0)
  }

  const DEFAULT_BOUND := 10000

  /** Zero when the task was never fenced. */
  function Fence(c: Ctl, task: string): nat {
    if task in c.fences then c.fences[task] else 0
  }

  // ---- commands

  datatype Creation = Stopped | Incomplete | Existing(prior: Command) | Runaway | Created(cmd: Command)

  function RequestOnce(c: Ctl, cmd: Command, now: int): (Ctl, Creation) {
    if c.stopped then (c, Stopped)
    else if cmd.id == "" || cmd.key == "" || cmd.task == "" then (c, Incomplete)
    else if cmd.key in c.commands then (c, Existing(c.commands[cmd.key]))
    else if c.count >= c.maxCommands then (c, Runaway)
    else
      var new_ := cmd.(state := Requested, requestedAt := now, updatedAt := now);
      (c.(commands := c.commands[cmd.key := new_], count := c.count + 1), Created(new_))
  }

  predicate Allowed(from: CommandState, to: CommandState) {
    match from
    case Requested => to == Acknowledged || to == Failed || to == Cancelled
    case Acknowledged => to == Completed || to == Failed || to == OutcomeUnknown || to == Cancelled || to == Polling
    case Polling => to == Acknowledged || to == Completed || to == Failed || to == Cancelled
    case OutcomeUnknown => to == Reconciled
    case _ => false
  }

  function Transition(c: Ctl, key: string, to: CommandState, result: string, error: string, now: int)
    : (Ctl, Option<Command>)
  {
    if key in c.commands && Allowed(c.commands[key].state, to) then
      var cmd := c.commands[key].(state := to, result := result, error := error, updatedAt := now);
      var results := if to == Completed || to == Reconciled then c.results[key := result] else c.results;
      (c.(commands := c.commands[key := cmd], results := results), Some(cmd))
    else (c, None)
  }

  function Rotate(c: Ctl, key: string, task: string, now: int): (Ctl, Option<Command>) {
    if key in c.commands && c.commands[key].task == task then
      var token := Fence(c, task) + 1;
      var cmd := c.commands[key].(fence := token, updatedAt := now);
      (c.(fences := c.fences[task := token], commands := c.commands[key := cmd]), Some(cmd))
    else (c, None)
  }

  // ---- recovery

  datatype Restoration = Restored | InvalidCommand | DuplicateKey | OverBound

  function RestoreOne(c: Ctl, cmd: Command): Ctl {
    c.(
    commands := c.commands[cmd.key := cmd],
    fences := if cmd.fence > Fence(c, cmd.task) then c.fences[cmd.task := cmd.fence] else c.fences,
    results := if cmd.state == Completed || cmd.state == Reconciled then c.results[cmd.key := cmd.result] else c.results,
    count := c.count + 1)
  }

  function RestoreCommands(c: Ctl, cmds: seq<Command>): (Ctl, Restoration)
    decreases |cmds|
  {
    if cmds == [] then (c, if c.count > c.maxCommands then OverBound else Restored)
    else
      var cmd := cmds[0];
      if cmd.key == "" || cmd.id == "" || cmd.task == "" then (c, InvalidCommand)
      else if cmd.key in c.commands then (c, DuplicateKey)
      else RestoreCommands(RestoreOne(c, cmd), cmds[1..])
  }

  function RestoreFence(c: Ctl, task: string, token: nat): (Ctl, bool) {
    if task == "" || token == 0 then (c, false)
    else if token > Fence(c, task) then (c.(fences := c.fences[task := token]), true)
    else (c, true)
  }

  // ---- leases, commits and the emergency stop

  function RenewLease(c: Ctl, task: string): (Ctl, nat) {
    var token := Fence(c, task) + 1;
    (c.(fences := c.fences[task := token]), token)
  }

  datatype Acquisition = Refused | Held | Acquired(lease: Lease)

  function AcquireLease(c: Ctl, task: string, holder: string, now: int, ttl: int): (Ctl, Acquisition) {
    if c.stopped || task == "" || holder == "" || ttl <= 0 then (c, Refused)
    else if task in c.leases && now < c.leases[task].expires && c.leases[task].holder != holder then (c, Held)
    else
      var lease := Lease(task, Fence(c, task) + 1, holder, now + ttl);
      (c.(fences := c.fences[task := lease.token], leases := c.leases[task := lease]), Acquired(lease))
  }

  predicate CommitLease(c: Ctl, lease: Lease, now: int) {
    && !c.stopped
    && lease.task in c.leases
    && c.leases[lease.task].token == lease.token && c.leases[lease.task].holder == lease.holder
    && now < c.leases[lease.task].expires
  }

  predicate Commit(c: Ctl, task: string, token: nat) {
    !c.stopped && token != 0 && token == Fence(c, task)
  }

  function EmergencyStop(c: Ctl, reason: string): Ctl {
    c.(stopped := true, stopReason := reason, fences := map t | t in c.fences :: c.fences[t] + 1)
  }

  function RestoreEmergencyStop(c: Ctl, reason: string): Ctl {
    c.(stopped := true, stopReason := reason)
  }

  /** `outcome` is what the guarded function returns if it is called at all. */
  function ExecuteOnce(c: Ctl, key: string, outcome: Option<string>): (Ctl, Option<string>) {
    if key == "" || c.stopped then (c, None)
    else if key in c.results then (c, Some(c.results[key]))
    else if outcome.None? then (c, None)
    else (c.(results := c.results[key := outcome.value]), Some(outcome.value))
  }

  lemma RestoreNext(c: Ctl, cmds: seq<Command>, i: nat)
    requires i < |cmds|
    ensures RestoreCommands(c, cmds[i..])
         == if cmds[i].key == "" || cmds[i].id == "" || cmds[i].task == "" then (c, InvalidCommand)
            else if cmds[i].key in c.commands then (c, DuplicateKey)
            else RestoreCommands(RestoreOne(c, cmds[i]), cmds[i + 1..])
  {
    assert cmds[i..][0] == cmds[i] && cmds[i..][1..] == cmds[i + 1..];
  }

  lemma RestoreEnds(c: Ctl, cmds: seq<Command>)
    ensures RestoreCommands(c, cmds[|cmds|..]) == (c, if c.count > c.maxCommands then OverBound else Restored)
  {
  }

  // ---- the object

  class Controller {
    var results: map<string, string>
    var fences: map<string, nat>
    var leases: map<string, Lease>
    var commands: map<string, Command>
    var stopped: bool
    var stopReason: string
    var maxCommands: nat
    var commandCount: nat

    ghost function Value(): Ctl
      reads this
    {
      Ctl(results, fences, leases, commands, stopped, stopReason, maxCommands, commandCount)
    }

    constructor (max: int)
      ensures Value() == NewCtl(max)
    {
      results, fences, leases, commands := map[], map[], map[], map[];
      stopped, stopReason := false, "";
      maxCommands, commandCount := (if max <= 0 then 1 else max), 0;
    }

    method Request(cmd: Command, now: int) returns (r: Creation)
      modifies this
      ensures (Value(), r) == RequestOnce(old(Value()), cmd, now)
      ensures r.Created? <==> cmd.key !in old(commands) && cmd.key in commands
      ensures !r.Created? ==> Value() == old(Value())
      ensures forall k | k in old(commands) :: k in commands && commands[k] == old(commands)[k]
    {
      if stopped {
        return Stopped;
      }
      if cmd.id == "" || cmd.key == "" || cmd.task == "" {
        return Incomplete;
      }
      if cmd.key in commands {
        return Existing(commands[cmd.key]);
      }
      if commandCount >= maxCommands {
        return Runaway;
      }
      var stamped := cmd.(state := Requested, requestedAt := now, updatedAt := now);
      commands := commands[cmd.key := stamped];
      commandCount := commandCount + 1;
      return Created(stamped);
    }

    method Move(key: string, to: CommandState, result: string, error: string, now: int) returns (r: Option<Command>)
      modifies this
      ensures (Value(), r) == Transition(old(Value()), key, to, result, error, now)
      ensures r.None? ==> Value() == old(Value())
      ensures r.Some? ==> commands.Keys == old(commands).Keys && commands[key].state == to
      ensures r.Some? ==> Allowed(old(commands)[key].state, to)
      ensures forall k | k in old(commands) && k != key :: k in commands && commands[k] == old(commands)[k]
    {
      if key !in commands || !Allowed(commands[key].state, to) {
        return None;
      }
      var cmd := commands[key].(state := to, result := result, error := error, updatedAt := now);
      commands := commands[key := cmd];
      if to == Completed || to == Reconciled {
        results := results[key := result];
      }
      return Some(cmd);
    }

    method RotateFence(key: string, task: string, now: int) returns (r: Option<Command>)
      modifies this
      ensures (Value(), r) == Rotate(old(Value()), key, task, now)
      ensures r.None? ==> Value() == old(Value())
      ensures r.Some? ==> Fence(old(Value()), task) < r.value.fence == Fence(Value(), task)
      ensures forall t | t != task :: Fence(Value(), t) == Fence(old(Value()), t)
    {
      if key !in commands || commands[key].task != task {
        return None;
      }
      fences := fences[task := (if task in fences then fences[task] else 0) + 1];
      var cmd := commands[key].(fence := fences[task], updatedAt := now);
      commands := commands[key := cmd];
      return Some(cmd);
    }

    method Restore(cmds: seq<Command>) returns (r: Restoration)
      modifies this
      ensures (Value(), r) == RestoreCommands(old(Value()), cmds)
    {
      hide RestoreCommands;
      assert cmds[0..] == cmds;
      for i := 0 to |cmds|
        invariant RestoreCommands(old(Value()), cmds) == RestoreCommands(Value(), cmds[i..])
      {
        var cmd := cmds[i];
        RestoreNext(Value(), cmds, i);
        if cmd.key == "" || cmd.id == "" || cmd.task == "" {
          return InvalidCommand;
        }
        if cmd.key in commands {
          return DuplicateKey;
        }
        commands := commands[cmd.key := cmd];
        if cmd.fence > (if cmd.task in fences then fences[cmd.task] else 0) {
          fences := fences[cmd.task := cmd.fence];
        }
        if cmd.state == Completed || cmd.state == Reconciled {
          results := results[cmd.key := cmd.result];
        }
        commandCount := commandCount + 1;
      }
      RestoreEnds(Value(), cmds);
      if commandCount > maxCommands {
        return OverBound;
      }
      return Restored;
    }

    method Renew(task: string) returns (token: nat)
      modifies this
      ensures (Value(), token) == RenewLease(old(Value()), task)
      ensures Fence(old(Value()), task) < token == Fence(Value(), task)
      ensures forall t | t != task :: Fence(Value(), t) == Fence(old(Value()), t)
    {
      fences := fences[task := (if task in fences then fences[task] else 0) + 1];
      return fences[task];
    }

    method Acquire(task: string, holder: string, now: int, ttl: int) returns (r: Acquisition)
      modifies this
      ensures (Value(), r) == AcquireLease(old(Value()), task, holder, now, ttl)
      ensures !r.Acquired? ==> Value() == old(Value())
      ensures r.Acquired? ==> CommitLease(Value(), r.lease, now) && Fence(old(Value()), task) < r.lease.token
    {
      if stopped || task == "" || holder == "" || ttl <= 0 {
        return Refused;
      }
      if task in leases && now < leases[task].expires && leases[task].holder != holder {
        return Held;
      }
      fences := fences[task := (if task in fences then fences[task] else 0) + 1];
      var lease := Lease(task, fences[task], holder, now + ttl);
      leases := leases[task := lease];
      return Acquired(lease);
    }

    method Stop(reason: string)
      modifies this
      ensures Value() == EmergencyStop(old(Value()), reason)
    {
      stopped, stopReason := true, reason;
      var todo := fences.Keys;
      ghost var was := fences;
      while todo != {}
        invariant Value() == old(Value()).(stopped := true, stopReason := reason, fences := fences)
        invariant todo <= was.Keys && fences.Keys == was.Keys
        invariant forall t | t in was :: fences[t] == was[t] + if t in todo then 0 else 1
        decreases todo
      {
        var t :| t in todo;
        fences := fences[t := fences[t] + 1];
        todo := todo - {t};
      }
    }

    /** Every command, in the order of its idempotency key. */
    method SnapshotCommands() returns (r: seq<Command>)
      requires forall k | k in commands :: commands[k].key == k
      ensures forall i, j | 0 <= i < j < |r| :: AtMost(r[i].key, r[j].key) && r[i].key != r[j].key
      ensures forall c: Command :: c in r <==> c.key in commands && commands[c.key] == c
    {
      var keys := SortedKeys();
      r := [];
      for i := 0 to |keys|
        invariant |r| == i
        invariant forall j | 0 <= j < i :: keys[j] in commands && r[j] == commands[keys[j]]
      {
        r := r + [commands[keys[i]]];
      }
      forall c: Command | c.key in commands && commands[c.key] == c ensures c in r {
        var j :| 0 <= j < |keys| && keys[j] == c.key;
        assert r[j] == c;
      }
    }

    method SortedKeys() returns (keys: seq<string>)
      ensures Sorted(keys) && NoRepeat(keys) && forall k :: k in keys <==> k in commands
    {
      keys := [];
      var todo := commands.Keys;
      while todo != {}
        invariant todo <= commands.Keys
        invariant multiset(keys) == multiset(commands.Keys - todo)
        decreases todo
      {
        var k :| k in todo;
        keys := keys + [k];
        assert commands.Keys - (todo - {k}) == (commands.Keys - todo) + {k};
        todo := todo - {k};
      }
      assert commands.Keys - todo == commands.Keys;
      keys := SortStrings(keys);
      SortedKeysOnce(keys, commands.Keys);
    }
  }

  lemma SortedKeysOnce(keys: seq<string>, s: set<string>)
    requires multiset(keys) == multiset(s)
    ensures forall k :: k in keys <==> k in s
    ensures NoRepeat(keys)
  {
    forall k ensures k in keys <==> k in s {
      assert k in keys <==> k in multiset(keys);
      assert k in s <==> k in multiset(s);
    }
    forall x ensures multiset(keys)[x] <= 1 { assert multiset(s)[x] <= 1; }
    NoRepeatIsAtMostOnce(keys);
  }
}
