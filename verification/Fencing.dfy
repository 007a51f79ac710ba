/** Fencing tokens over whole runs: tokens issued by rotation and logged never coincide for a task, across crashes between
    rotation and append; a superseded token is never accepted; and one request at a time, they rise in log order. */
module Fencing {
  import opened Model
  import opened Control
  import opened Actions
  import ControlRuns
  import opened Protocol
  import opened CommandSafety

  predicate IsRequest(e: Event) {
    e.CommandEvent? && e.suffix == Requested && e.cmd.Some?
  }

  ghost predicate RotatedBelow(sh: Shared) {
    forall k | k in sh.rotated ::
      k in sh.ctl.commands && sh.ctl.commands[k].fence <= Fence(sh.ctl, sh.ctl.commands[k].task)
  }

  ghost predicate RotatedApart(sh: Shared) {
    forall k, m | k in sh.rotated && m in sh.rotated && k != m && k in sh.ctl.commands && m in sh.ctl.commands
                  && sh.ctl.commands[k].task == sh.ctl.commands[m].task ::
      sh.ctl.commands[k].fence != sh.ctl.commands[m].fence
  }

  ghost predicate IssuedAreRotated(log: seq<Event>, rotated: set<string>) {
    forall j | 0 <= j < |log| && IssuesToken(log[j]) :: log[j].cmd.value.key in rotated
  }

  /** The request of a command is the first event that carries its key. */
  ghost predicate RequestsComeFirst(log: seq<Event>) {
    forall j | 0 <= j < |log| && IsRequest(log[j]) :: !Keyed(log[..j], log[j].cmd.value.key)
  }

  ghost predicate FenceGlobal(sh: Shared) {
    RotatedBelow(sh) && RotatedApart(sh) && IssuedAreRotated(sh.log, sh.rotated) && RequestsComeFirst(sh.log)
  }

  ghost predicate FenceLocal(cfg: Config, sh: Shared, pc: Pc) {
    pc.InJob? && pc.stage.LogRequest? && Rotates(pc.job) ==> JobKey(cfg, pc.job) in sh.rotated
  }

  ghost predicate FenceInv(cfg: Config, s: State) {
    FenceGlobal(s.sh) && forall r | r in s.reqs :: FenceLocal(cfg, s.sh, s.reqs[r])
  }

  // ---- one step

  ghost predicate OpFenced(cfg: Config, sh: Shared, op: Op) {
    match op
    case Append(e) =>
      && (IsRequest(e) ==> !Keyed(sh.log, e.cmd.value.key))
      && (IssuesToken(e) ==> e.cmd.value.key in sh.rotated)
    case _ => true
  }

  lemma OpIsFenced(cfg: Config, sh: Shared, pc: Pc, now: int)
    requires Local(cfg, sh, pc) && FenceLocal(cfg, sh, pc)
    ensures OpFenced(cfg, sh, OpOf(cfg, pc, now))
  {
    match pc
    case Notes(events, _, _) => assert events != [] ==> events[0] in events;
    case InJob(job, stage) =>
    case InCheck(_, check) =>
    case _ =>
  }

  lemma AppendKeepsFences(cfg: Config, sh: Shared, pc: Pc, e: Event, ch: Choice)
    requires Global(cfg, sh) && Local(cfg, sh, pc) && OpBacked(cfg, sh, pc, Append(e))
    requires FenceGlobal(sh) && OpFenced(cfg, sh, Append(e))
    ensures FenceGlobal(Effect(cfg, sh, Append(e), ch).0)
  {
    if ch.appended {
      ScrubHeld(cfg, sh, pc, e);
      AddEvent(sh.log, Scrub(cfg, e), sh.rotated);
    }
  }

  lemma AddEvent(log: seq<Event>, e: Event, rotated: set<string>)
    requires RequestsComeFirst(log) && IssuedAreRotated(log, rotated)
    requires IsRequest(e) ==> !Keyed(log, e.cmd.value.key)
    requires IssuesToken(e) ==> e.cmd.value.key in rotated
    ensures RequestsComeFirst(log + [e]) && IssuedAreRotated(log + [e], rotated)
  {
    var all := log + [e];
    forall j | 0 <= j < |all| && IsRequest(all[j]) ensures !Keyed(all[..j], all[j].cmd.value.key) {
      assert all[..j] == log[..j];
      assert log[..|log|] == log;
    }
  }

  lemma RotateKeepsFences(cfg: Config, sh: Shared, key: string, task: string, ch: Choice)
    requires FenceGlobal(sh)
    ensures FenceGlobal(Effect(cfg, sh, RotateFence(key, task), ch).0)
  {
    var next := Effect(cfg, sh, RotateFence(key, task), ch).0;
    assert forall t :: Fence(sh.ctl, t) <= Fence(next.ctl, t);
    assert forall k | k in sh.ctl.commands && k != key :: k in next.ctl.commands && next.ctl.commands[k] == sh.ctl.commands[k];
  }

  lemma CreateKeepsFences(cfg: Config, sh: Shared, cmd: Command, ch: Choice)
    requires FenceGlobal(sh)
    ensures FenceGlobal(Effect(cfg, sh, CreateCommand(cmd), ch).0)
  {
    var next := Effect(cfg, sh, CreateCommand(cmd), ch).0;
    assert forall t :: Fence(sh.ctl, t) == Fence(next.ctl, t);
    assert forall k | k in sh.ctl.commands :: k in next.ctl.commands && next.ctl.commands[k] == sh.ctl.commands[k];
  }

  lemma MoveKeepsFences(cfg: Config, sh: Shared, key: string, to: CommandState, ch: Choice)
    requires FenceGlobal(sh)
    ensures FenceGlobal(Effect(cfg, sh, Move(key, to), ch).0)
  {
    var next := Effect(cfg, sh, Move(key, to), ch).0;
    assert forall t :: Fence(sh.ctl, t) == Fence(next.ctl, t);
    assert forall k | k in sh.ctl.commands ::
        && k in next.ctl.commands && next.ctl.commands[k].task == sh.ctl.commands[k].task
        && next.ctl.commands[k].fence == sh.ctl.commands[k].fence;
  }

  lemma StopKeepsFences(cfg: Config, sh: Shared, ch: Choice)
    requires FenceGlobal(sh)
    ensures FenceGlobal(Effect(cfg, sh, StopAll, ch).0)
  {
    assert forall t :: Fence(sh.ctl, t) <= Fence(Effect(cfg, sh, StopAll, ch).0.ctl, t);
  }

  lemma EffectKeepsFences(cfg: Config, sh: Shared, pc: Pc, op: Op, ch: Choice)
    requires Global(cfg, sh) && Local(cfg, sh, pc) && OpBacked(cfg, sh, pc, op)
    requires FenceGlobal(sh) && OpFenced(cfg, sh, op)
    ensures FenceGlobal(Effect(cfg, sh, op, ch).0)
    ensures sh.rotated <= Effect(cfg, sh, op, ch).0.rotated
  {
    match op
    case Append(e) => AppendKeepsFences(cfg, sh, pc, e, ch);
    case CreateCommand(cmd) => CreateKeepsFences(cfg, sh, cmd, ch);
    case RotateFence(key, task) => RotateKeepsFences(cfg, sh, key, task, ch);
    case Move(key, to) => MoveKeepsFences(cfg, sh, key, to, ch);
    case StopAll => StopKeepsFences(cfg, sh, ch);
    case _ =>
  }

  /** Only a creation without rotation and a rotation lead to a logged request. */
  lemma JobLandsFenced(cfg: Config, sh: Shared, job: Job, stage: JobStage, ch: Choice)
    ensures var (next, out) := Effect(cfg, sh, JobOp(cfg, job, stage), ch);
            FenceLocal(cfg, next, AfterJob(cfg, job, stage, out))
  {
    var (next, out) := Effect(cfg, sh, JobOp(cfg, job, stage), ch);
    GotoRequestsNothing(cfg, Proceed(job));
    GotoRequestsNothing(cfg, Fail(job));
    if stage.Rotating? && FoundCommand(out).Some? {
      assert JobKey(cfg, WithToken(job, out.cmd.value.fence)) == JobKey(cfg, job);
    }
  }

  predicate RequestsNothing(pc: Pc) { pc.InJob? ==> !pc.stage.LogRequest? }

  lemma WalkRequestsNothing(cfg: Config, seen: seq<Event>, i: nat, cont: Cont)
    ensures RequestsNothing(Walk(cfg, seen, i, cont))
  {
    WalkStops(cfg, seen, i, cont);
  }

  lemma GotoRequestsNothing(cfg: Config, next: Next)
    ensures RequestsNothing(Goto(cfg, next))
  {
    if next.ToWalk? { WalkRequestsNothing(cfg, next.seen, next.i, next.cont); }
  }

  lemma OthersRequestNothing(cfg: Config, pc: Pc, out: Outcome, ch: Choice)
    requires !pc.InJob?
    ensures RequestsNothing(After(cfg, pc, out, ch))
  {
    match pc
    case Notes(events, next, abort) =>
      GotoRequestsNothing(cfg, next);
      GotoRequestsNothing(cfg, abort);
    case InPass(cont, pass) => if out.Events? { WalkRequestsNothing(cfg, out.events, 0, cont); }
    case InCheck(task, check) =>
    case InDecision(d, grant, decide) => DecideRequestsNothing(d, grant, decide, out, ch.now);
    case InReconcile(reconcile) => ReconcileRequestsNothing(cfg, reconcile, out);
    case Done =>
  }

  lemma DecideRequestsNothing(d: Digest, grant: bool, decide: DecideStage, out: Outcome, now: int)
    ensures RequestsNothing(AfterDecide(d, grant, decide, out, now))
  {
  }

  lemma ReconcileRequestsNothing(cfg: Config, reconcile: ReconcileStage, out: Outcome)
    ensures RequestsNothing(AfterReconcile(cfg, reconcile, out))
  {
  }

  lemma AdvanceKeepsFences(cfg: Config, s: State, r: nat, ch: Choice)
    requires GoodConfig(cfg) && Inv(cfg, s) && FenceInv(cfg, s) && r in s.reqs
    ensures FenceInv(cfg, Do(cfg, s, Advance(r, ch)))
  {
    hide Exec, Effect, JobOp, AfterJob, Reboot, Global, Local;
    var pc := s.reqs[r];
    var op := OpOf(cfg, pc, ch.now);
    var (next, out) := Effect(cfg, s.sh, op, ch);
    var pc' := After(cfg, pc, out, ch);
    OpIsBacked(cfg, s.sh, pc, ch.now);
    OpIsFenced(cfg, s.sh, pc, ch.now);
    EffectKeepsFences(cfg, s.sh, pc, op, ch);
    if pc.InJob? { JobLandsFenced(cfg, s.sh, pc.job, pc.stage, ch); } else { OthersRequestNothing(cfg, pc, out, ch); }
    assert Do(cfg, s, Advance(r, ch)) == State(next, s.reqs[r := pc']);
  }

  // ---- restarts

  /** A restart knows every rotation the log remembers, with the fence that was logged. */
  lemma RestartKnows(cfg: Config, sh: Shared, k: string)
    requires GoodConfig(cfg) && Global(cfg, sh) && IssuedAreRotated(sh.log, sh.rotated) && k in LoggedRotations(sh.log)
    ensures var back := Recover(cfg, sh.log);
            && k in sh.rotated && k in back.commands && k in sh.ctl.commands
            && back.commands[k].task == sh.ctl.commands[k].task && back.commands[k].fence == sh.ctl.commands[k].fence
            && back.commands[k].fence <= Fence(back, back.commands[k].task)
  {
    RecoveryNeverFails(cfg, sh);
    LatestIsKnown(cfg, sh);
    var e :| e in sh.log && IssuesToken(e) && e.cmd.value.key == k;
    var j :| 0 <= j < |sh.log| && sh.log[j] == e;
    assert NamesKey(sh.log[j], k);
    assert Agrees(sh.ctl, LoggedOf(Latest(sh.log)[k]));
    var back := Recover(cfg, sh.log);
    assert ControlRuns.IsTopFence(back.commands, back.commands[k].task, Fence(back, back.commands[k].task));
  }

  lemma RestartKeepsFences(cfg: Config, sh: Shared, appended: bool)
    requires GoodConfig(cfg) && Global(cfg, sh) && FenceGlobal(sh)
    ensures FenceGlobal(Reboot(cfg, sh, appended))
  {
    var rotated := LoggedRotations(sh.log);
    var back := sh.(ctl := Recover(cfg, sh.log), rotated := rotated);
    forall k | k in rotated
      ensures k in sh.rotated && k in back.ctl.commands && k in sh.ctl.commands
      ensures back.ctl.commands[k].task == sh.ctl.commands[k].task && back.ctl.commands[k].fence == sh.ctl.commands[k].fence
      ensures back.ctl.commands[k].fence <= Fence(back.ctl, back.ctl.commands[k].task)
    {
      RestartKnows(cfg, sh, k);
    }
    assert RotatedBelow(back) && RotatedApart(back);
    LoggedAreRotated(sh.log);
    AddEvent(sh.log, Note(DispatchInterrupted, ""), rotated);
  }

  lemma LoggedAreRotated(log: seq<Event>)
    ensures IssuedAreRotated(log, LoggedRotations(log))
  {
    forall j | 0 <= j < |log| && IssuesToken(log[j]) ensures log[j].cmd.value.key in LoggedRotations(log) {
      assert log[j] in log;
    }
  }

  lemma StepKeepsFences(cfg: Config, s: State, step: Step)
    requires GoodConfig(cfg) && Inv(cfg, s) && FenceInv(cfg, s)
    ensures FenceInv(cfg, Do(cfg, s, step))
  {
    hide Act, Latest, Reboot, Global, Local, OwnedKey;
    match step
    case Begin(r, request) => if Do(cfg, s, step) != s { assert FenceLocal(cfg, s.sh, Entry(request)); }
    case Advance(r, ch) => if r in s.reqs { AdvanceKeepsFences(cfg, s, r, ch); }
    case Restart(appended) => RestartKeepsFences(cfg, s.sh, appended);
  }

  lemma {:induction false} FenceInvAlways(cfg: Config, steps: seq<Step>)
    requires GoodConfig(cfg)
    ensures Inv(cfg, Exec(cfg, steps)) && FenceInv(cfg, Exec(cfg, steps))
    decreases |steps|
  {
    hide Do, Inv, Global, Local, OwnedKey;
    InvAlways(cfg, steps);
    if steps != [] {
      FenceInvAlways(cfg, steps[..|steps| - 1]);
      StepKeepsFences(cfg, Exec(cfg, steps[..|steps| - 1]), steps[|steps| - 1]);
    }
  }

  // ---- what follows

  lemma IssuedToken(cfg: Config, sh: Shared, j: nat)
    requires Global(cfg, sh) && FenceGlobal(sh) && j < |sh.log| && IssuesToken(sh.log[j])
    ensures var c := sh.log[j].cmd.value;
            && c.key in sh.rotated && c.key in sh.ctl.commands
            && sh.ctl.commands[c.key].task == c.task && sh.ctl.commands[c.key].fence == c.fence
            && c.fence <= Fence(sh.ctl, c.task)
  {
    assert Agrees(sh.ctl, sh.log[j].cmd.value);
  }

  lemma RequestsHaveDistinctKeys(log: seq<Event>, i: nat, j: nat)
    requires RequestsComeFirst(log) && i < j < |log| && IsRequest(log[i]) && IsRequest(log[j])
    ensures log[i].cmd.value.key != log[j].cmd.value.key
  {
    assert log[..j][i] == log[i];
    assert NamesKey(log[..j][i], log[i].cmd.value.key);
    assert !Keyed(log[..j], log[j].cmd.value.key);
  }

  /** Two tokens that were issued for a task and logged are different: no crash between issuing one and logging it, and no
      race between requests, makes the server hand out a logged token again. */
  lemma LoggedTokensDiffer(cfg: Config, steps: seq<Step>, i: nat, j: nat)
    requires GoodConfig(cfg)
    requires var log := Exec(cfg, steps).sh.log;
             && i < j < |log| && IssuesToken(log[i]) && IssuesToken(log[j])
             && log[i].cmd.value.task == log[j].cmd.value.task
    ensures var log := Exec(cfg, steps).sh.log; log[i].cmd.value.fence != log[j].cmd.value.fence
  {
    hide Do, Local, OwnedKey;
    FenceInvAlways(cfg, steps);
    var sh := Exec(cfg, steps).sh;
    IssuedToken(cfg, sh, i);
    IssuedToken(cfg, sh, j);
    RequestsHaveDistinctKeys(sh.log, i, j);
  }

  /** A logged token that another logged token of its task exceeds is never accepted again. */
  lemma SupersededTokenIsRefused(cfg: Config, steps: seq<Step>, i: nat, j: nat)
    requires GoodConfig(cfg)
    requires var log := Exec(cfg, steps).sh.log;
             && i < |log| && j < |log| && IssuesToken(log[i]) && IssuesToken(log[j])
             && log[i].cmd.value.task == log[j].cmd.value.task && log[i].cmd.value.fence < log[j].cmd.value.fence
    ensures var sh := Exec(cfg, steps).sh; !Commit(sh.ctl, sh.log[i].cmd.value.task, sh.log[i].cmd.value.fence)
  {
    hide Do, Local, OwnedKey;
    FenceInvAlways(cfg, steps);
    IssuedToken(cfg, Exec(cfg, steps).sh, j);
  }

  /** Whatever was logged as issued is covered by the fence a restart comes back with. */
  lemma RestartCoversIssuedTokens(cfg: Config, steps: seq<Step>, j: nat)
    requires GoodConfig(cfg)
    requires j < |Exec(cfg, steps).sh.log| && IssuesToken(Exec(cfg, steps).sh.log[j])
    ensures var log := Exec(cfg, steps).sh.log;
            log[j].cmd.value.fence <= Fence(Recover(cfg, log), log[j].cmd.value.task)
  {
    hide Act, Exec, Latest, Recover, Global, Local, OwnedKey;
    FenceInvAlways(cfg, steps);
    var s := Exec(cfg, steps);
    StepKeeps(cfg, s, Restart(false));
    RestartKeepsFences(cfg, s.sh, false);
    IssuedToken(cfg, Reboot(cfg, s.sh, false), j);
  }

  // ---- one request at a time

  /** No request begins before the last one is done. */
  ghost predicate OneAtATime(cfg: Config, steps: seq<Step>) {
    forall n | 0 <= n < |steps| && steps[n].Begin? :: AllDone(Exec(cfg, steps[..n]))
  }

  ghost predicate TokensRise(log: seq<Event>) {
    forall i, j | 0 <= i < j < |log| && IssuesToken(log[i]) && IssuesToken(log[j])
                  && log[i].cmd.value.task == log[j].cmd.value.task ::
      log[i].cmd.value.fence < log[j].cmd.value.fence
  }

  ghost predicate TokenCurrent(sh: Shared, pc: Pc) {
    pc.InJob? && pc.stage.LogRequest? && Rotates(pc.job) ==> pc.stage.cmd.fence == Fence(sh.ctl, pc.stage.cmd.task)
  }

  ghost predicate Sequential(s: State) {
    forall r, q | r in s.reqs && q in s.reqs && r != q :: s.reqs[r].Done? || s.reqs[q].Done?
  }

  ghost predicate SequentialInv(s: State) {
    Sequential(s) && TokensRise(s.sh.log) && forall r | r in s.reqs :: TokenCurrent(s.sh, s.reqs[r])
  }

  lemma RotationIsCurrent(cfg: Config, sh: Shared, job: Job, stage: JobStage, ch: Choice)
    ensures var (next, out) := Effect(cfg, sh, JobOp(cfg, job, stage), ch);
            TokenCurrent(next, AfterJob(cfg, job, stage, out))
  {
    GotoRequestsNothing(cfg, Proceed(job));
    GotoRequestsNothing(cfg, Fail(job));
  }

  /** All tokens in the log are at most the current fence, so one that equals it and is new exceeds them. */
  lemma CurrentTokenRises(cfg: Config, sh: Shared, e: Event)
    requires Global(cfg, sh) && FenceGlobal(sh) && TokensRise(sh.log)
    requires IssuesToken(e) ==>
               && Agrees(sh.ctl, e.cmd.value) && e.cmd.value.fence == Fence(sh.ctl, e.cmd.value.task)
               && e.cmd.value.key in sh.rotated && !Keyed(sh.log, e.cmd.value.key)
    ensures TokensRise(sh.log + [e])
  {
    if IssuesToken(e) {
      forall i | 0 <= i < |sh.log| && IssuesToken(sh.log[i]) && sh.log[i].cmd.value.task == e.cmd.value.task
        ensures sh.log[i].cmd.value.fence < e.cmd.value.fence
      {
        IssuedToken(cfg, sh, i);
        assert NamesKey(sh.log[i], sh.log[i].cmd.value.key);
      }
    }
  }

  lemma AppendKeepsRise(cfg: Config, sh: Shared, pc: Pc, ch: Choice)
    requires GoodConfig(cfg) && Global(cfg, sh) && Local(cfg, sh, pc) && FenceGlobal(sh) && FenceLocal(cfg, sh, pc)
    requires TokensRise(sh.log) && TokenCurrent(sh, pc)
    ensures TokensRise(Effect(cfg, sh, OpOf(cfg, pc, ch.now), ch).0.log)
  {
    hide OpOf, Local, RequestOnce, Transition, CtlOk;
    var op := OpOf(cfg, pc, ch.now);
    if op.Append? && ch.appended {
      OpIsBacked(cfg, sh, pc, ch.now);
      OpIsFenced(cfg, sh, pc, ch.now);
      ScrubHeld(cfg, sh, pc, op.e);
      IssuingIsCurrent(cfg, sh, pc, ch.now);
      CurrentTokenRises(cfg, sh, Scrub(cfg, op.e));
    }
  }

  lemma IssuingIsCurrent(cfg: Config, sh: Shared, pc: Pc, now: int)
    requires Local(cfg, sh, pc) && TokenCurrent(sh, pc)
    ensures var op := OpOf(cfg, pc, now);
            op.Append? && IssuesToken(op.e) ==> op.e.cmd.value.fence == Fence(sh.ctl, op.e.cmd.value.task)
  {
    match pc
    case Notes(events, _, _) => assert events != [] ==> events[0] in events;
    case InJob(job, stage) =>
    case InCheck(_, check) =>
    case _ =>
  }

  lemma AdvanceKeepsRise(cfg: Config, s: State, r: nat, ch: Choice)
    requires GoodConfig(cfg) && Inv(cfg, s) && FenceInv(cfg, s) && SequentialInv(s) && r in s.reqs
    ensures SequentialInv(Do(cfg, s, Advance(r, ch)))
  {
    hide Exec, Global, Local;
    var pc := s.reqs[r];
    var (next, out) := Effect(cfg, s.sh, OpOf(cfg, pc, ch.now), ch);
    var pc' := After(cfg, pc, out, ch);
    assert Do(cfg, s, Advance(r, ch)) == State(next, s.reqs[r := pc']);
    AppendKeepsRise(cfg, s.sh, pc, ch);
    if pc.Done? {
      assert next == s.sh && pc' == pc;
    } else {
      if pc.InJob? { RotationIsCurrent(cfg, s.sh, pc.job, pc.stage, ch); } else { OthersRequestNothing(cfg, pc, out, ch); }
      forall q | q in s.reqs && q != r ensures s.reqs[q].Done? {}
    }
  }

  lemma StepKeepsRise(cfg: Config, s: State, step: Step)
    requires GoodConfig(cfg) && Inv(cfg, s) && FenceInv(cfg, s) && SequentialInv(s)
    requires step.Begin? ==> AllDone(s)
    ensures SequentialInv(Do(cfg, s, step))
  {
    hide Act, Latest, Recover, Inv;
    match step
    case Begin(r, request) =>
      if Do(cfg, s, step) != s { assert TokenCurrent(s.sh, Entry(request)); }
    case Advance(r, ch) => if r in s.reqs { AdvanceKeepsRise(cfg, s, r, ch); }
    case Restart(appended) =>
  }

  lemma {:induction false} RiseAlways(cfg: Config, steps: seq<Step>)
    requires GoodConfig(cfg) && OneAtATime(cfg, steps)
    ensures SequentialInv(Exec(cfg, steps))
    decreases |steps|
  {
    hide Do, Inv;
    if steps != [] {
      var rest := steps[..|steps| - 1];
      forall n | 0 <= n < |rest| && rest[n].Begin? ensures AllDone(Exec(cfg, rest[..n])) { assert rest[..n] == steps[..n]; }
      RiseAlways(cfg, rest);
      FenceInvAlways(cfg, rest);
      StepKeepsRise(cfg, Exec(cfg, rest), steps[|steps| - 1]);
    }
  }

  /** When requests take turns, with crashes and restarts anywhere, the logged tokens of a task rise in log order. */
  lemma TokensRiseInTurn(cfg: Config, steps: seq<Step>, i: nat, j: nat)
    requires GoodConfig(cfg) && OneAtATime(cfg, steps)
    requires var log := Exec(cfg, steps).sh.log;
             && i < j < |log| && IssuesToken(log[i]) && IssuesToken(log[j])
             && log[i].cmd.value.task == log[j].cmd.value.task
    ensures var log := Exec(cfg, steps).sh.log; log[i].cmd.value.fence < log[j].cmd.value.fence
  {
    RiseAlways(cfg, steps);
  }
}
