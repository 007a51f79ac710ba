/** What the server takes from a run's log: who is active, which request for approval counts, and whether the run is running;
    and what a restart and a failed append make of that. */
module LogReading {
  import opened Model
  import opened Control
  import opened Actions
  import opened Protocol
  import opened Outcomes
  import opened Traces
  import Status

  // ---- active tasks and requests for approval

  /** A command of the task, or one whose transition was refused and that names none, is reported in one of the states. */
  predicate Reports(e: Event, task: string, states: set<CommandState>) {
    && e.CommandEvent? && e.source == ByCommand && e.suffix in states
    && task == if e.cmd.Some? then e.cmd.value.task else ""
  }

  const ENDS: set<CommandState> := {Completed, Cancelled, Failed, OutcomeUnknown}

  /** The report acknowledges a command of the task, and no later one ends one. */
  predicate LastWord(log: seq<Event>, i: int, task: string) {
    && 0 <= i < |log| && Reports(log[i], task, {Acknowledged})
    && forall j | i < j < |log| :: !Reports(log[j], task, ENDS)
  }

  lemma LastWordAppend(log: seq<Event>, e: Event, task: string)
    ensures (exists i :: LastWord(log + [e], i, task)) <==>
            Reports(e, task, {Acknowledged}) || (!Reports(e, task, ENDS) && exists i :: LastWord(log, i, task))
  {
    hide Reports;
    var all := log + [e];
    assert all[|log|] == e;
    if Reports(e, task, {Acknowledged}) { assert LastWord(all, |log|, task); }
    if exists i :: LastWord(log, i, task) {
      var i :| LastWord(log, i, task);
      assert !Reports(e, task, ENDS) ==> LastWord(all, i, task);
    }
    if exists i :: LastWord(all, i, task) {
      var i :| LastWord(all, i, task);
      if i < |log| {
        assert forall j | i < j < |log| :: all[j] == log[j];
        assert LastWord(log, i, task);
      }
    }
  }

  /** A task is active when the last report that acknowledges or ends a command of it acknowledges one. */
  lemma {:induction false} ActiveIsLastReport(log: seq<Event>, task: string)
    ensures IsActive(log, task) <==> exists i :: LastWord(log, i, task)
    decreases |log|
  {
    hide LastWord;
    if log == [] {
      NoWord(task);
    } else {
      var rest, e := log[..|log| - 1], log[|log| - 1];
      assert log == rest + [e];
      ActiveIsLastReport(rest, task);
      LastWordAppend(rest, e, task);
    }
  }

  lemma NoWord(task: string)
    ensures !exists i :: LastWord([], i, task)
  {
  }

  predicate AsksFor(e: Event, d: Digest) {
    e.ApprovalRequested? && e.digest == d
  }

  /** The request a decision is checked against is the last one in the log. */
  lemma {:induction false} LastRequestIsLast(log: seq<Event>, d: Digest)
    ensures match LastRequest(log, d)
            case None => forall i | 0 <= i < |log| :: !AsksFor(log[i], d)
            case Some(e) =>
              exists i | 0 <= i < |log| :: log[i] == e && AsksFor(e, d) && forall j | i < j < |log| :: !AsksFor(log[j], d)
    decreases |log|
  {
    if log != [] && !AsksFor(log[|log| - 1], d) {
      var rest := log[..|log| - 1];
      LastRequestIsLast(rest, d);
      if LastRequest(rest, d).Some? {
        var e := LastRequest(rest, d).value;
        var i :| 0 <= i < |rest| && rest[i] == e && AsksFor(e, d) && forall j | i < j < |rest| :: !AsksFor(rest[j], d);
        assert log[i] == e;
        forall j | i < j < |log| ensures !AsksFor(log[j], d) { assert j < |rest| ==> log[j] == rest[j]; }
      } else {
        forall i | 0 <= i < |log| ensures !AsksFor(log[i], d) { assert i < |rest| ==> log[i] == rest[i]; }
      }
    }
  }

  // ---- the status of the run

  /** The type under which an event is stored, as far as a status depends on it. */
  function TypeOf(e: Event): string {
    match e
    case EmergencyStopped => "dispatch.emergency_stopped"
    case Note(DispatchStarted, _) => "dispatch.started"
    case Note(DispatchResumed, _) => "dispatch.resumed"
    case Note(DispatchCompleted, _) => "dispatch.completed"
    case Note(DispatchFailed, _) => "dispatch.failed"
    case Note(DispatchCancelled, _) => "dispatch.cancelled"
    case Note(DispatchInterrupted, _) => "dispatch.interrupted"
    case CommandEvent(_, _, _, _) => "command.event"
    case ApprovalRequested(_, _, _, _, _, _) => "approval.requested"
    case ApprovalDecided(_, granted) => if granted then "approval.granted" else "approval.denied"
    case TaskCompleted(_) => "task.completed"
    case Note(_, _) => "task.event"
  }

  function TypesOf(log: seq<Event>): seq<string> {
    if log == [] then [] else TypesOf(log[..|log| - 1]) + [TypeOf(log[|log| - 1])]
  }

  lemma TypesAppend(log: seq<Event>, e: Event)
    ensures TypesOf(log + [e]) == TypesOf(log) + [TypeOf(e)]
  {
    assert (log + [e])[..|log|] == log;
  }

  /** Recovery takes a run to be running exactly when the replayed status says so. */
  lemma {:induction false} RunningIsReplayed(log: seq<Event>)
    ensures IsRunning(log) <==> Status.Replayed(TypesOf(log)) == Status.Running
    decreases |log|
  {
    if log != [] {
      var rest, e := log[..|log| - 1], log[|log| - 1];
      RunningIsReplayed(rest);
      OneMoreType(TypesOf(rest), e);
      assert TypesOf(log) == TypesOf(rest) + [TypeOf(e)];
    }
  }

  predicate GivesStatus(e: Event) {
    || e.EmergencyStopped?
    || (e.Note? && e.what in {DispatchStarted, DispatchResumed, DispatchCompleted, DispatchFailed, DispatchCancelled,
                              DispatchInterrupted})
  }

  lemma SilentType(e: Event)
    requires !GivesStatus(e)
    ensures TypeOf(e) !in Status.STATUS_TYPES
  {
    assert TypeOf(e)[0] != 'd';
    Status.StatusTypesBegin(TypeOf(e));
  }

  lemma OneMoreType(types: seq<string>, e: Event)
    ensures var status := Status.Replayed(types + [TypeOf(e)]);
            match e
            case EmergencyStopped => status == Status.Stopped
            case Note(DispatchStarted, _) => status == Status.Running
            case Note(DispatchResumed, _) => status == Status.Running
            case Note(DispatchCompleted, _) => status == Status.Completed
            case Note(DispatchFailed, _) => status == Status.Failed
            case Note(DispatchCancelled, _) => status == Status.Cancelled
            case Note(DispatchInterrupted, _) => status == Status.Interrupted
            case _ => status == Status.Replayed(types)
  {
    hide Status.Replayed;
    if GivesStatus(e) {
      Status.StatusAfterEvent(types);
    } else {
      SilentType(e);
      Status.OtherEventsAreSilent(types, TypeOf(e));
    }
  }

  /** A restart leaves no run running: it notes the interruption of one that was, and if that note is lost the server takes no
      further requests. Other runs it leaves alone, and nothing stays in flight. */
  lemma RestartInterruptsRunning(cfg: Config, steps: seq<Step>, appended: bool)
    ensures var s, after := Exec(cfg, steps), Exec(cfg, steps + [Restart(appended)]);
            var running := Status.Replayed(TypesOf(s.sh.log)) == Status.Running;
            && after.reqs == map[]
            && (if running && appended
                then after.sh.log == s.sh.log + [Note(DispatchInterrupted, "")]
                     && Status.Replayed(TypesOf(after.sh.log)) == Status.Interrupted
                else after.sh.log == s.sh.log)
            && (after.sh.fatal <==> running && !appended)
  {
    hide Exec, Recover, Status.Replayed;
    var s := Exec(cfg, steps);
    ExecAfter(cfg, steps, Restart(appended));
    RunningIsReplayed(s.sh.log);
    TypesAppend(s.sh.log, Note(DispatchInterrupted, ""));
    OneMoreType(TypesOf(s.sh.log), Note(DispatchInterrupted, ""));
  }

  // ---- a failed append

  lemma EffectKeepsFatal(cfg: Config, sh: Shared, op: Op, ch: Choice)
    ensures sh.fatal || (op.Append? && !ch.appended) ==> Effect(cfg, sh, op, ch).0.fatal
  {
  }

  lemma {:induction false} FatalStays(cfg: Config, steps: seq<Step>, more: seq<Step>)
    requires Exec(cfg, steps).sh.fatal && NoRestart(more)
    ensures Exec(cfg, steps + more).sh.fatal
    decreases |more|
  {
    hide Exec, Effect, After, OpOf, Entry, Admissible;
    if more == [] {
      assert steps + more == steps;
    } else {
      var rest, last := more[..|more| - 1], more[|more| - 1];
      assert forall n | 0 <= n < |rest| :: rest[n] == more[n];
      FatalStays(cfg, steps, rest);
      ExecAfter(cfg, steps + rest, last);
      assert steps + more == steps + rest + [last];
      var s := Exec(cfg, steps + rest);
      if last.Advance? && last.r in s.reqs { EffectKeepsFatal(cfg, s.sh, OpOf(cfg, s.reqs[last.r], last.ch.now), last.ch); }
    }
  }

  /** Once an append has failed, no request is taken until the server restarts. */
  lemma NoRequestsAfterFailure(
    cfg: Config, steps: seq<Step>, r: nat, ch: Choice, more: seq<Step>, q: nat, request: Request)
    requires r in Exec(cfg, steps).reqs && OpOf(cfg, Exec(cfg, steps).reqs[r], ch.now).Append? && !ch.appended
    requires NoRestart(more)
    ensures var later := steps + [Advance(r, ch)] + more;
            Exec(cfg, later + [Begin(q, request)]) == Exec(cfg, later)
  {
    hide Exec, After, OpOf, Entry, Admissible;
    var s := Exec(cfg, steps);
    ExecAfter(cfg, steps, Advance(r, ch));
    EffectKeepsFatal(cfg, s.sh, OpOf(cfg, s.reqs[r], ch.now), ch);
    FatalStays(cfg, steps + [Advance(r, ch)], more);
    ExecAfter(cfg, steps + [Advance(r, ch)] + more, Begin(q, request));
  }
}
