/** Whenever no event is owed for any command, a restart brings back every command exactly when every command's request
    made it to the log; and then, unless an emergency stop was asked for, every task's fence. */
module RecoveredFences {
  import opened Model
  import opened Control
  import opened Actions
  import ControlRuns
  import opened Protocol
  import opened CommandSafety
  import opened Recovery
  import opened Agreement

  // ---- every command comes back

  /** No request is between a transition and its append. */
  ghost predicate NothingOwed(cfg: Config, s: State) {
    forall k :: NobodyOwes(cfg, s, k)
  }

  /** No command is stuck with a request whose append failed. */
  predicate RequestsLogged(sh: Shared) {
    forall k | k in sh.ctl.commands && sh.ctl.commands[k].state == Requested :: k !in sh.skewed
  }

  ghost predicate SameCommands(a: Ctl, b: Ctl) {
    && a.commands.Keys == b.commands.Keys
    && forall k | k in a.commands ::
         && a.commands[k].id == b.commands[k].id
         && a.commands[k].task == b.commands[k].task
         && a.commands[k].fence == b.commands[k].fence
  }

  /** A command is missing after a restart exactly when its request's append failed. */
  lemma LoggedUnlessLost(cfg: Config, steps: seq<Step>, k: string)
    requires GoodConfig(cfg)
    requires var s := Exec(cfg, steps); k in s.sh.ctl.commands && NobodyOwes(cfg, s, k)
    ensures var sh := Exec(cfg, steps).sh;
            k in Recover(cfg, sh.log).commands <==> sh.ctl.commands[k].state != Requested || k !in sh.skewed
  {
    hide Exec, Recover, Latest, RestoreCommands, NobodyOwes, Local, Apart, CtlOk, LogAgrees;
    BehindAlways(cfg, steps);
    var sh := Exec(cfg, steps).sh;
    RecoveryNeverFails(cfg, sh);
    LatestIsKnown(cfg, sh);
    RecoveryIsExact(cfg, steps, k);
    if k in Latest(sh.log) { assert ControlRuns.Reaches(Latest(sh.log)[k].state, sh.ctl.commands[k].state); }
  }

  /** No command is lost, none appears, and each keeps its id, its task and its fence, exactly when every request was
      logged: whatever happened to the reports that followed. */
  lemma EveryCommandComesBack(cfg: Config, steps: seq<Step>)
    requires GoodConfig(cfg) && NothingOwed(cfg, Exec(cfg, steps))
    ensures var sh := Exec(cfg, steps).sh;
            SameCommands(sh.ctl, Recover(cfg, sh.log)) <==> RequestsLogged(sh)
  {
    hide Exec, Recover, Latest, RestoreCommands, NobodyOwes;
    RestartAlwaysRestores(cfg, steps);
    var sh := Exec(cfg, steps).sh;
    forall k | k in sh.ctl.commands
      ensures k in Recover(cfg, sh.log).commands <==> sh.ctl.commands[k].state != Requested || k !in sh.skewed
    {
      assert NobodyOwes(cfg, Exec(cfg, steps), k);
      LoggedUnlessLost(cfg, steps, k);
    }
  }

  // ---- every fence comes back

  predicate IsHaltRequest(step: Step) {
    step.Begin? && step.request.ControlTask? && step.request.kind == Halt
  }

  predicate NoHalt(steps: seq<Step>) {
    forall n | 0 <= n < |steps| :: !IsHaltRequest(steps[n])
  }

  /** The token a job works under is one its task has reached. */
  ghost predicate TokenReached(cfg: Config, ctl: Ctl, job: Job) {
    JobToken(job) <= Fence(ctl, JobTask(cfg, job))
  }

  ghost predicate NextReached(cfg: Config, ctl: Ctl, next: Next) {
    next.ToCreate? ==> next.job.RetryJob? && TokenReached(cfg, ctl, next.job)
  }

  predicate PastToken(stage: JobStage) {
    !stage.RetryGuard? && !stage.Probe? && !stage.Token?
  }

  ghost predicate Reached(cfg: Config, ctl: Ctl, pc: Pc) {
    match pc
    case Notes(_, next, abort) => NextReached(cfg, ctl, next) && NextReached(cfg, ctl, abort)
    case InJob(job, stage) =>
      && (job.ControlJob? ==> job.kind != Halt)
      && (job.ControlJob? && (PastToken(stage) || stage.Token?) ==> job.task != "")
      && (PastToken(stage) || job.RetryJob? ==> TokenReached(cfg, ctl, job))
    case _ => true
  }

  lemma ReachedStays(cfg: Config, ctl: Ctl, next: Ctl, pc: Pc)
    requires Reached(cfg, ctl, pc) && forall t :: Fence(ctl, t) <= Fence(next, t)
    ensures Reached(cfg, next, pc)
  {
    if pc.InJob? { assert Fence(ctl, JobTask(cfg, pc.job)) <= Fence(next, JobTask(cfg, pc.job)); }
    if pc.Notes? && pc.next.ToCreate? { assert Fence(ctl, JobTask(cfg, pc.next.job)) <= Fence(next, JobTask(cfg, pc.next.job)); }
    if pc.Notes? && pc.abort.ToCreate? {
      assert Fence(ctl, JobTask(cfg, pc.abort.job)) <= Fence(next, JobTask(cfg, pc.abort.job));
    }
  }

  lemma EffectRaises(cfg: Config, sh: Shared, op: Op, ch: Choice, t: string)
    ensures Fence(sh.ctl, t) <= Fence(Effect(cfg, sh, op, ch).0.ctl, t)
  {
  }

  lemma CreateKeepsTop(c: Ctl, cmd: Command, now: int)
    requires ControlRuns.TopFences(c) && cmd.fence <= Fence(c, cmd.task)
    ensures ControlRuns.TopFences(RequestOnce(c, cmd, now).0)
  {
    var next := RequestOnce(c, cmd, now).0;
    forall t ensures ControlRuns.IsTopFence(next.commands, t, Fence(next, t)) {
      assert ControlRuns.IsTopFence(c.commands, t, Fence(c, t));
      KeepsWitness(c, next, t);
    }
  }

  lemma KeepsWitness(c: Ctl, next: Ctl, t: string)
    requires ControlRuns.IsTopFence(c.commands, t, Fence(c, t)) && Fence(next, t) == Fence(c, t)
    requires forall k | k in c.commands ::
               k in next.commands && next.commands[k].task == c.commands[k].task && next.commands[k].fence == c.commands[k].fence
    requires forall k | k in next.commands && k !in c.commands && next.commands[k].task == t ::
               next.commands[k].fence <= Fence(c, t)
    ensures ControlRuns.IsTopFence(next.commands, t, Fence(next, t))
  {
    if Fence(c, t) != 0 {
      var k :| k in c.commands && c.commands[k].task == t && c.commands[k].fence == Fence(c, t);
      assert k in next.commands && next.commands[k].task == t && next.commands[k].fence == Fence(c, t);
    }
  }

  lemma RotateKeepsTop(c: Ctl, key: string, task: string, now: int)
    requires ControlRuns.TopFences(c)
    ensures ControlRuns.TopFences(Rotate(c, key, task, now).0)
  {
    var (next, r) := Rotate(c, key, task, now);
    if r.Some? {
      forall t ensures ControlRuns.IsTopFence(next.commands, t, Fence(next, t)) {
        assert ControlRuns.IsTopFence(c.commands, t, Fence(c, t));
        if t == task {
          assert next.commands[key].task == t && next.commands[key].fence == Fence(next, t);
        } else if Fence(c, t) != 0 {
          var k :| k in c.commands && c.commands[k].task == t && c.commands[k].fence == Fence(c, t);
          assert k != key && next.commands[k] == c.commands[k];
        }
      }
    }
  }

  lemma MoveKeepsTop(c: Ctl, key: string, to: CommandState, now: int)
    requires ControlRuns.TopFences(c)
    ensures ControlRuns.TopFences(Transition(c, key, to, "", "", now).0)
  {
    hide Do;
    var next := Transition(c, key, to, "", "", now).0;
    forall t ensures ControlRuns.IsTopFence(next.commands, t, Fence(next, t)) {
      assert ControlRuns.IsTopFence(c.commands, t, Fence(c, t));
      KeepsWitness(c, next, t);
    }
  }

  /** Without a stop, only a creation under a token the task has reached, and rotations, touch the fences. */
  ghost predicate OpReached(ctl: Ctl, op: Op) {
    match op
    case CreateCommand(cmd) => cmd.fence <= Fence(ctl, cmd.task)
    case StopAll => false
    case _ => true
  }

  lemma OpIsReached(cfg: Config, ctl: Ctl, pc: Pc, now: int)
    requires Reached(cfg, ctl, pc) && (pc.InJob? ==> !pc.stage.Stopping?)
    ensures OpReached(ctl, OpOf(cfg, pc, now))
  {
  }

  lemma EffectKeepsTop(cfg: Config, sh: Shared, op: Op, ch: Choice)
    requires ControlRuns.TopFences(sh.ctl) && OpReached(sh.ctl, op)
    ensures ControlRuns.TopFences(Effect(cfg, sh, op, ch).0.ctl)
  {
    match op
    case CreateCommand(cmd) => CreateKeepsTop(sh.ctl, cmd, ch.now);
    case RotateFence(key, task) => RotateKeepsTop(sh.ctl, key, task, ch.now);
    case Move(key, to) => MoveKeepsTop(sh.ctl, key, to, ch.now);
    case _ =>
  }

  /** Points that no request without an emergency stop comes to are left out. */
  ghost predicate TopLocal(cfg: Config, ctl: Ctl, pc: Pc) {
    Reached(cfg, ctl, pc) && (pc.InJob? ==> !pc.stage.Stopping?)
  }

  lemma WalkTopLocal(cfg: Config, ctl: Ctl, seen: seq<Event>, i: nat, cont: Cont)
    ensures TopLocal(cfg, ctl, Walk(cfg, seen, i, cont))
  {
    WalkStops(cfg, seen, i, cont);
  }

  lemma GotoTopLocal(cfg: Config, ctl: Ctl, next: Next)
    requires NextReached(cfg, ctl, next)
    ensures TopLocal(cfg, ctl, Goto(cfg, next))
  {
    if next.ToWalk? { WalkTopLocal(cfg, ctl, next.seen, next.i, next.cont); }
  }

  lemma RotatingTopLocal(cfg: Config, sh: Shared, job: Job, ch: Choice)
    requires TopLocal(cfg, sh.ctl, InJob(job, Rotating))
    ensures var (next, out) := Effect(cfg, sh, JobOp(cfg, job, Rotating), ch);
            TopLocal(cfg, next.ctl, AfterJob(cfg, job, Rotating, out))
  {
    var (next, out) := Effect(cfg, sh, JobOp(cfg, job, Rotating), ch);
    GotoTopLocal(cfg, next.ctl, Fail(job));
    if out.cmd.Some? {
      var j := WithToken(job, out.cmd.value.fence);
      assert JobTask(cfg, j) == JobTask(cfg, job);
      EffectRaises(cfg, sh, JobOp(cfg, job, Rotating), ch, JobTask(cfg, job));
      assert TokenReached(cfg, next.ctl, j);
    }
  }

  lemma MarkNotesTopLocal(cfg: Config, ctl: Ctl, job: Job, to: CommandState)
    requires TokenReached(cfg, ctl, job) && (job.ControlJob? ==> job.task != "" && job.kind != Halt)
    ensures TopLocal(cfg, ctl, MarkNotes(cfg, job, to))
  {
  }

  lemma TokenTopLocal(cfg: Config, sh: Shared, job: Job, ch: Choice)
    requires TopLocal(cfg, sh.ctl, InJob(job, Token))
    ensures var (next, out) := Effect(cfg, sh, JobOp(cfg, job, Token), ch);
            TopLocal(cfg, next.ctl, AfterJob(cfg, job, Token, out))
  {
  }

  lemma JobTopLocal(cfg: Config, ctl: Ctl, job: Job, stage: JobStage, out: Outcome)
    requires TopLocal(cfg, ctl, InJob(job, stage)) && !stage.Rotating? && !stage.Token?
    ensures TopLocal(cfg, ctl, AfterJob(cfg, job, stage, out))
  {
    GotoTopLocal(cfg, ctl, Proceed(job));
    GotoTopLocal(cfg, ctl, Fail(job));
    if stage.LogMark? { MarkNotesTopLocal(cfg, ctl, job, stage.logTo); }
  }

  lemma OthersTopLocal(cfg: Config, ctl: Ctl, pc: Pc, out: Outcome, ch: Choice)
    requires TopLocal(cfg, ctl, pc) && !pc.InJob?
    ensures TopLocal(cfg, ctl, After(cfg, pc, out, ch))
  {
    match pc
    case Notes(events, next, abort) =>
      GotoTopLocal(cfg, ctl, next);
      GotoTopLocal(cfg, ctl, abort);
    case InPass(cont, pass) => if out.Events? { WalkTopLocal(cfg, ctl, out.events, 0, cont); }
    case InCheck(task, check) => CheckTopLocal(cfg, ctl, task, check, out, ch.pick);
    case InDecision(d, grant, decide) => DecideTopLocal(cfg, ctl, d, grant, decide, out, ch.now);
    case InReconcile(reconcile) => ReconcileTopLocal(cfg, ctl, reconcile, out);
    case Done =>
  }

  lemma CheckTopLocal(cfg: Config, ctl: Ctl, task: string, check: CheckStage, out: Outcome, pick: string)
    ensures TopLocal(cfg, ctl, AfterCheck(cfg, task, check, out, pick))
  {
  }

  lemma DecideTopLocal(cfg: Config, ctl: Ctl, d: Digest, grant: bool, decide: DecideStage, out: Outcome, now: int)
    ensures TopLocal(cfg, ctl, AfterDecide(d, grant, decide, out, now))
  {
  }

  lemma ReconcileTopLocal(cfg: Config, ctl: Ctl, reconcile: ReconcileStage, out: Outcome)
    ensures TopLocal(cfg, ctl, AfterReconcile(cfg, reconcile, out))
  {
  }

  lemma PointTopLocal(cfg: Config, sh: Shared, pc: Pc, ch: Choice)
    requires TopLocal(cfg, sh.ctl, pc)
    ensures var (next, pc') := Act(cfg, sh, pc, ch);
            TopLocal(cfg, next.ctl, pc')
  {
    var op := OpOf(cfg, pc, ch.now);
    var (next, out) := Effect(cfg, sh, op, ch);
    forall t ensures Fence(sh.ctl, t) <= Fence(next.ctl, t) { EffectRaises(cfg, sh, op, ch, t); }
    ReachedStays(cfg, sh.ctl, next.ctl, pc);
    if pc.InJob? {
      if pc.stage.Rotating? {
        RotatingTopLocal(cfg, sh, pc.job, ch);
      } else if pc.stage.Token? {
        TokenTopLocal(cfg, sh, pc.job, ch);
      } else {
        JobTopLocal(cfg, next.ctl, pc.job, pc.stage, out);
      }
    } else {
      OthersTopLocal(cfg, next.ctl, pc, out, ch);
    }
  }

  ghost predicate TopInv(cfg: Config, s: State) {
    ControlRuns.TopFences(s.sh.ctl) && forall r | r in s.reqs :: TopLocal(cfg, s.sh.ctl, s.reqs[r])
  }

  lemma AdvanceKeepsTop(cfg: Config, s: State, r: nat, ch: Choice)
    requires TopInv(cfg, s) && r in s.reqs
    ensures TopInv(cfg, Do(cfg, s, Advance(r, ch)))
  {
    hide Exec, Effect, After, OpOf, Reboot, Entry;
    var pc := s.reqs[r];
    var op := OpOf(cfg, pc, ch.now);
    var (next, pc') := Act(cfg, s.sh, pc, ch);
    OpIsReached(cfg, s.sh.ctl, pc, ch.now);
    EffectKeepsTop(cfg, s.sh, op, ch);
    PointTopLocal(cfg, s.sh, pc, ch);
    forall q | q in s.reqs && q != r ensures TopLocal(cfg, next.ctl, s.reqs[q]) {
      forall t ensures Fence(s.sh.ctl, t) <= Fence(next.ctl, t) { EffectRaises(cfg, s.sh, op, ch, t); }
      ReachedStays(cfg, s.sh.ctl, next.ctl, s.reqs[q]);
    }
    assert Do(cfg, s, Advance(r, ch)) == State(next, s.reqs[r := pc']);
  }

  lemma StepKeepsTop(cfg: Config, s: State, step: Step)
    requires GoodConfig(cfg) && Inv(cfg, s) && TopInv(cfg, s) && !IsHaltRequest(step)
    ensures TopInv(cfg, Do(cfg, s, step))
  {
    hide Act, Recover, Global, Local;
    match step
    case Begin(r, request) => if Do(cfg, s, step) != s { assert TopLocal(cfg, s.sh.ctl, Entry(request)); }
    case Advance(r, ch) => if r in s.reqs { AdvanceKeepsTop(cfg, s, r, ch); }
    case Restart(appended) => RecoveryNeverFails(cfg, s.sh);
  }

  lemma {:induction false} TopAlways(cfg: Config, steps: seq<Step>)
    requires GoodConfig(cfg) && NoHalt(steps)
    ensures TopInv(cfg, Exec(cfg, steps))
    decreases |steps|
  {
    hide Do, Inv, Global, Local, OwnedKey;
    if steps == [] {
      assert forall t :: ControlRuns.IsTopFence(Init(cfg).sh.ctl.commands, t, 0);
    } else {
      var rest := steps[..|steps| - 1];
      assert forall n | 0 <= n < |rest| :: rest[n] == steps[n];
      TopAlways(cfg, rest);
      InvAlways(cfg, rest);
      StepKeepsTop(cfg, Exec(cfg, rest), steps[|steps| - 1]);
    }
  }

  lemma TopFenceAgrees(a: Ctl, b: Ctl, t: string)
    requires ControlRuns.TopFences(a) && ControlRuns.TopFences(b) && SameCommands(a, b)
    ensures Fence(a, t) <= Fence(b, t)
  {
    assert ControlRuns.IsTopFence(a.commands, t, Fence(a, t)) && ControlRuns.IsTopFence(b.commands, t, Fence(b, t));
    if Fence(a, t) != 0 {
      var k :| k in a.commands && a.commands[k].task == t && a.commands[k].fence == Fence(a, t);
      assert k in b.commands;
    }
  }

  /** In a run without an emergency stop, every fence comes back as it was. */
  lemma EveryFenceComesBack(cfg: Config, steps: seq<Step>, t: string)
    requires GoodConfig(cfg) && NoHalt(steps) && NothingOwed(cfg, Exec(cfg, steps)) && RequestsLogged(Exec(cfg, steps).sh)
    ensures Fence(Recover(cfg, Exec(cfg, steps).sh.log), t) == Fence(Exec(cfg, steps).sh.ctl, t)
  {
    hide Do, Local, OwnedKey;
    TopAlways(cfg, steps);
    InvAlways(cfg, steps);
    var sh := Exec(cfg, steps).sh;
    RecoveryNeverFails(cfg, sh);
    EveryCommandComesBack(cfg, steps);
    TopFenceAgrees(sh.ctl, Recover(cfg, sh.log), t);
    TopFenceAgrees(Recover(cfg, sh.log), sh.ctl, t);
  }
}
