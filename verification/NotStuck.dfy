/** No run gets stuck: as long as nothing fails, whenever all requests are done either every task is completed and the run
    is logged as completed, or some task whose dependencies are done is waiting for its result or for an approval. */
module NotStuck {
  import opened Model
  import opened Control
  import opened Actions
  import opened Protocol
  import opened CommandSafety
  import opened ScheduleSafety
  import opened Progress
  import opened Expiry

  /** The first task of the plan that is not completed. */
  ghost predicate Frontier(cfg: Config, log: seq<Event>, i: nat) {
    && i < |cfg.plan| && !IsCompleted(log, cfg.plan[i].id)
    && forall j | 0 <= j < i :: IsCompleted(log, cfg.plan[j].id)
  }

  /** The request will look at the log and schedule from it. */
  predicate WillRead(pc: Pc) {
    (pc.Notes? && pc.next.ToSchedule?) || (pc.InPass? && pc.pass.Reading?)
  }

  /** A grant in the log is one the pass has seen. */
  ghost predicate SeenGrant(cfg: Config, log: seq<Event>, seen: seq<Event>, i: nat) {
    PlannedAt(cfg, i).guarded && IsGranted(log, DigestAt(cfg, i)) ==> IsGranted(seen, DigestAt(cfg, i))
  }

  /** The request is on its way to hand task `i` out or to ask for its approval. */
  ghost predicate Carries(cfg: Config, log: seq<Event>, pc: Pc, i: nat) {
    WillRead(pc) ||
    match pc
    case InPass(_, Routing(seen, j)) => j == i && SeenGrant(cfg, log, seen, i)
    case InPass(_, Asking(_, j)) => j == i && PlannedAt(cfg, i).guarded && !IsGranted(log, DigestAt(cfg, i))
    case InJob(job, stage) => job.DispatchJob? && job.i == i && (stage.Probe? || stage.Create?)
    case _ => false
  }

  ghost predicate Carried(cfg: Config, s: State, i: nat) {
    exists r | r in s.reqs :: Carries(cfg, s.sh.log, s.reqs[r], i)
  }

  ghost predicate AwaitsGrant(cfg: Config, log: seq<Event>, i: nat) {
    PlannedAt(cfg, i).guarded && !IsGranted(log, DigestAt(cfg, i)) && IsRequested(log, DigestAt(cfg, i))
  }

  ghost predicate Known(cfg: Config, ctl: Ctl, i: nat) {
    KeyAt(cfg, i) in ctl.commands
  }

  ghost predicate Covered(cfg: Config, s: State, i: nat) {
    Known(cfg, s.sh.ctl, i) || AwaitsGrant(cfg, s.sh.log, i) || Carried(cfg, s, i)
  }

  ghost predicate CoverInv(cfg: Config, s: State) {
    forall i: nat | Frontier(cfg, s.sh.log, i) :: Covered(cfg, s, i)
  }

  // ---- what the scheduler does at the frontier

  lemma {:induction false} ActiveIsLogged(log: seq<Event>, task: string) returns (n: nat)
    requires IsActive(log, task) && task != ""
    ensures n < |log| && log[n].CommandEvent? && log[n].cmd.Some? && log[n].cmd.value.task == task
    decreases |log|
  {
    var e := log[|log| - 1];
    if e.CommandEvent? && e.source == ByCommand && TaskOf(e) == task && e.suffix == Acknowledged {
      n := |log| - 1;
    } else {
      n := ActiveIsLogged(log[..|log| - 1], task);
    }
  }

  lemma ActiveIsKnown(cfg: Config, sh: Shared, i: nat)
    requires Workable(cfg) && Global(cfg, sh) && CommandsOfPlan(cfg, sh.ctl) && i < |cfg.plan|
    requires IsActive(sh.log, cfg.plan[i].id)
    ensures Known(cfg, sh.ctl, i)
  {
    var n := ActiveIsLogged(sh.log, cfg.plan[i].id);
    var c := sh.log[n].cmd.value;
    assert Agrees(sh.ctl, c);
    OfPlanIsKey(cfg, c.key, sh.ctl.commands[c.key]);
  }

  lemma {:induction false} WalkReachesFrontier(cfg: Config, log: seq<Event>, j: nat, i: nat, cont: Cont)
    requires Frontier(cfg, log, i) && j <= i
    ensures Walk(cfg, log, j, cont) == Walk(cfg, log, i, cont)
    decreases i - j
  {
    if j < i { WalkReachesFrontier(cfg, log, j + 1, i, cont); }
  }

  lemma FrontierIsReady(cfg: Config, log: seq<Event>, i: nat)
    requires Workable(cfg) && Frontier(cfg, log, i)
    ensures DepsCompleted(log, cfg.plan[i].deps)
  {
    forall d | d in cfg.plan[i].deps ensures IsCompleted(log, d) {
      var j :| 0 <= j < i && cfg.plan[j].id == d;
      assert IsCompleted(log, cfg.plan[j].id);
    }
  }

  lemma WalkCarries(cfg: Config, sh: Shared, i: nat, cont: Cont)
    requires Workable(cfg) && Global(cfg, sh) && CommandsOfPlan(cfg, sh.ctl) && Frontier(cfg, sh.log, i)
    ensures Carries(cfg, sh.log, Walk(cfg, sh.log, 0, cont), i) || Known(cfg, sh.ctl, i)
  {
    hide Do, Global;
    WalkReachesFrontier(cfg, sh.log, 0, i, cont);
    FrontierIsReady(cfg, sh.log, i);
    if IsActive(sh.log, cfg.plan[i].id) { ActiveIsKnown(cfg, sh, i); }
  }

  // ---- the carrier's own step

  ghost predicate StillCovered(cfg: Config, next: Shared, pc': Pc, i: nat) {
    Known(cfg, next.ctl, i) || AwaitsGrant(cfg, next.log, i) || Carries(cfg, next.log, pc', i)
  }

  lemma RequestedGrows(log: seq<Event>, more: seq<Event>, d: Digest)
    requires log <= more && IsRequested(log, d)
    ensures IsRequested(more, d)
  {
    var e :| e in log && e.ApprovalRequested? && e.digest == d;
    assert e in more;
  }

  lemma RoutingCarries(cfg: Config, sh: Shared, seen: seq<Event>, i: nat, cont: Cont, ch: Choice)
    requires ch.appended && seen <= sh.log && SeenGrant(cfg, sh.log, seen, i)
    ensures var pc := InPass(cont, Routing(seen, i));
            var (next, pc') := Act(cfg, sh, pc, ch);
            StillCovered(cfg, next, pc', i)
  {
    var next := Effect(cfg, sh, OpOf(cfg, InPass(cont, Routing(seen, i)), ch.now), ch).0;
    var d := DigestAt(cfg, i);
    NotesGrantNothing(cfg, sh.log, Note(RoutingDecided, PlannedAt(cfg, i).id), d);
    if IsRequested(seen, d) { RequestedGrows(seen, next.log, d); }
  }

  lemma NotesGrantNothing(cfg: Config, log: seq<Event>, e: Event, d: Digest)
    requires !e.ApprovalDecided?
    ensures IsGranted(log + [Scrub(cfg, e)], d) <==> IsGranted(log, d)
  {
  }

  lemma AskingCarries(cfg: Config, sh: Shared, seen: seq<Event>, i: nat, cont: Cont, ch: Choice)
    requires ch.appended && PlannedAt(cfg, i).guarded && !IsGranted(sh.log, DigestAt(cfg, i))
    ensures AwaitsGrant(cfg, Effect(cfg, sh, OpOf(cfg, InPass(cont, Asking(seen, i)), ch.now), ch).0.log, i)
  {
    var op := OpOf(cfg, InPass(cont, Asking(seen, i)), ch.now);
    NotesGrantNothing(cfg, sh.log, op.e, DigestAt(cfg, i));
    var log := sh.log + [Scrub(cfg, op.e)];
    assert log[|sh.log|].ApprovalRequested? && log[|sh.log|].digest == DigestAt(cfg, i);
    assert log[|sh.log|] in log;
  }

  lemma JobCarries(cfg: Config, sh: Shared, job: Job, stage: JobStage, ch: Choice)
    requires Workable(cfg) && Global(cfg, sh) && CommandsOfPlan(cfg, sh.ctl)
    requires SmoothJob(cfg, job, stage) && (stage.Probe? || stage.Create?)
    ensures var (next, out) := Effect(cfg, sh, JobOp(cfg, job, stage), ch);
            StillCovered(cfg, next, AfterJob(cfg, job, stage, out), job.i)
  {
    hide Do, Latest, CtlOk;
    if KeyAt(cfg, job.i) !in sh.ctl.commands { RoomForPlan(cfg, sh.ctl, job.i); }
  }

  /** The request that carries the frontier gets it known, asked for, or carries on. */
  lemma CarrierStep(cfg: Config, s: State, r: nat, ch: Choice, i: nat)
    requires Workable(cfg) && Inv(cfg, s) && ScheduleInv(cfg, s) && SmoothInv(cfg, s) && r in s.reqs && SmoothChoice(ch)
    requires Frontier(cfg, s.sh.log, i) && Carries(cfg, s.sh.log, s.reqs[r], i)
    ensures var (next, pc') := Act(cfg, s.sh, s.reqs[r], ch);
            StillCovered(cfg, next, pc', i)
  {
    hide Do, AfterReconcile, Walk, Global, Local;
    match s.reqs[r]
    case Notes(events, n, abort) => NotesCarry(cfg, s.sh, events, n, abort, ch, i);
    case InPass(cont, pass) =>
      if pass.Reading? {
        WalkCarries(cfg, s.sh, i, cont);
      } else if pass.Routing? {
        assert Ready(cfg, s.sh.log, s.reqs[r]);
        RoutingCarries(cfg, s.sh, pass.seen, i, cont, ch);
      } else {
        AskingCarries(cfg, s.sh, pass.seen, i, cont, ch);
      }
    case InJob(job, stage) => JobCarries(cfg, s.sh, job, stage, ch);
    case _ =>
  }

  lemma NotesCarry(cfg: Config, sh: Shared, events: seq<Event>, n: Next, abort: Next, ch: Choice, i: nat)
    requires |events| == 1 && n.ToSchedule? && ch.appended
    ensures var (next, pc') := Act(cfg, sh, Notes(events, n, abort), ch);
            WillRead(pc')
  {
  }

  // ---- any step

  predicate Matters(e: Event) {
    e.TaskCompleted? || e.ApprovalDecided?
  }

  /** Whoever logs a completion or a grant schedules afterwards. */
  lemma WhatMattersIsFollowed(cfg: Config, sh: Shared, pc: Pc, ch: Choice)
    requires SmoothPc(cfg, sh.ctl, pc) && SmoothChoice(ch)
    ensures var op := OpOf(cfg, pc, ch.now);
            op.Append? && Matters(op.e) ==> WillRead(Act(cfg, sh, pc, ch).1)
    ensures var op := OpOf(cfg, pc, ch.now);
            op.Append? && op.e.TaskCompleted? ==> pc.Notes? && Act(cfg, sh, pc, ch).1 == InPass(FromResult, Reading)
  {
    hide Do, AfterJob, AfterCheck, AfterPass;
    match pc
    case Notes(events, next, abort) =>
    case InPass(cont, pass) =>
    case InJob(job, stage) =>
    case InCheck(task, check) =>
    case InDecision(d, grant, decide) =>
    case _ =>
  }

  lemma NothingElseMatters(cfg: Config, log: seq<Event>, e: Event)
    requires !Matters(e)
    ensures forall t :: IsCompleted(log + [Scrub(cfg, e)], t) <==> IsCompleted(log, t)
    ensures forall d :: IsGranted(log + [Scrub(cfg, e)], d) <==> IsGranted(log, d)
  {
  }

  lemma OthersStillCarry(cfg: Config, log: seq<Event>, more: seq<Event>, pc: Pc, i: nat)
    requires forall d :: IsGranted(more, d) <==> IsGranted(log, d)
    requires Carries(cfg, log, pc, i)
    ensures Carries(cfg, more, pc, i)
  {
  }

  /** A step that logs neither a completion nor a grant keeps the frontier covered. */
  lemma QuietStepCovers(cfg: Config, s: State, r: nat, ch: Choice, i: nat)
    requires Workable(cfg) && Inv(cfg, s) && ScheduleInv(cfg, s) && SmoothInv(cfg, s) && r in s.reqs && SmoothChoice(ch)
    requires Frontier(cfg, s.sh.log, i) && Covered(cfg, s, i)
    requires var next := Effect(cfg, s.sh, OpOf(cfg, s.reqs[r], ch.now), ch).0;
             forall d :: IsGranted(next.log, d) <==> IsGranted(s.sh.log, d)
    ensures Covered(cfg, Do(cfg, s, Advance(r, ch)), i)
  {
    hide Exec, Effect, After, Inv;
    var (next, pc') := Act(cfg, s.sh, s.reqs[r], ch);
    var t := Do(cfg, s, Advance(r, ch));
    assert t == State(next, s.reqs[r := pc']);
    EffectIsOnward(cfg, s.sh, OpOf(cfg, s.reqs[r], ch.now), ch);
    if AwaitsGrant(cfg, s.sh.log, i) {
      RequestedGrows(s.sh.log, next.log, DigestAt(cfg, i));
    } else if Carried(cfg, s, i) {
      var q :| q in s.reqs && Carries(cfg, s.sh.log, s.reqs[q], i);
      if q == r {
        CarrierStep(cfg, s, r, ch, i);
        assert t.reqs[r] == pc';
      } else {
        OthersStillCarry(cfg, s.sh.log, next.log, s.reqs[q], i);
        assert t.reqs[q] == s.reqs[q];
      }
    }
  }

  lemma QuietLog(cfg: Config, sh: Shared, op: Op, ch: Choice)
    requires op.Append? ==> !Matters(op.e)
    ensures var next := Effect(cfg, sh, op, ch).0;
            && (forall t :: IsCompleted(next.log, t) <==> IsCompleted(sh.log, t))
            && (forall d :: IsGranted(next.log, d) <==> IsGranted(sh.log, d))
  {
    if op.Append? { NothingElseMatters(cfg, sh.log, op.e); }
  }

  lemma ReaderCovers(cfg: Config, t: State, r: nat)
    requires r in t.reqs && WillRead(t.reqs[r])
    ensures CoverInv(cfg, t)
  {
    forall i: nat | Frontier(cfg, t.sh.log, i) ensures Covered(cfg, t, i) { assert Carries(cfg, t.sh.log, t.reqs[r], i); }
  }

  lemma AdvanceCovers(cfg: Config, s: State, r: nat, ch: Choice)
    requires Workable(cfg) && Inv(cfg, s) && ScheduleInv(cfg, s) && SmoothInv(cfg, s) && CoverInv(cfg, s)
    requires r in s.reqs && SmoothChoice(ch)
    ensures CoverInv(cfg, Do(cfg, s, Advance(r, ch)))
  {
    hide Exec, Effect, After, OpOf, Reboot, Inv;
    var op := OpOf(cfg, s.reqs[r], ch.now);
    var t := Do(cfg, s, Advance(r, ch));
    if op.Append? && Matters(op.e) {
      WhatMattersIsFollowed(cfg, s.sh, s.reqs[r], ch);
      ReaderCovers(cfg, t, r);
    } else {
      QuietLog(cfg, s.sh, op, ch);
      forall i: nat | Frontier(cfg, t.sh.log, i) ensures Covered(cfg, t, i) {
        SameFrontier(cfg, s.sh.log, t.sh.log, i);
        QuietStepCovers(cfg, s, r, ch, i);
      }
    }
  }

  lemma SameFrontier(cfg: Config, log: seq<Event>, more: seq<Event>, i: nat)
    requires forall t :: IsCompleted(more, t) <==> IsCompleted(log, t)
    ensures Frontier(cfg, more, i) <==> Frontier(cfg, log, i)
  {
  }

  lemma BeginCovers(cfg: Config, s: State, r: nat, request: Request)
    requires CoverInv(cfg, s) && Smooth(Begin(r, request))
    ensures CoverInv(cfg, Do(cfg, s, Begin(r, request)))
  {
    var t := Do(cfg, s, Begin(r, request));
    if t != s {
      forall i: nat | Frontier(cfg, t.sh.log, i) ensures Covered(cfg, t, i) {
        assert Covered(cfg, s, i);
        if Carried(cfg, s, i) {
          var q :| q in s.reqs && Carries(cfg, s.sh.log, s.reqs[q], i);
          assert q != r && t.reqs[q] == s.reqs[q];
        }
      }
    }
  }

  // ---- commands that are not waiting are in somebody's hands

  /** The request will log the completion of this command's task. */
  predicate Completing(cfg: Config, pc: Pc, k: string) {
    match pc
    case InCheck(_, LogSettle(_, moved)) => moved.Some? && moved.value.key == k
    case Notes(events, _, _) => |events| == 1 && events[0].TaskCompleted? && DispatchKey(cfg, events[0].task) == k
    case _ => false
  }

  ghost predicate Attended(cfg: Config, pc: Pc, k: string, state: CommandState) {
    match state
    case Requested => OwnedKey(cfg, pc) == Some(k)
    case Polling => OwnedKey(cfg, pc) == Some(k)
    case Completed => Completing(cfg, pc, k)
    case _ => true
  }

  ghost predicate SomebodyAttends(cfg: Config, s: State, k: string, state: CommandState) {
    exists r | r in s.reqs :: Attended(cfg, s.reqs[r], k, state)
  }

  /** The command waits for its result, or its completion is logged, or some request has it in hand. */
  ghost predicate InHandOrWaiting(cfg: Config, s: State, k: string) {
    k in s.sh.ctl.commands ==>
      var c := s.sh.ctl.commands[k];
      || c.state == Acknowledged
      || (c.state == Completed && IsCompleted(s.sh.log, c.task))
      || SomebodyAttends(cfg, s, k, c.state)
  }

  ghost predicate HandInv(cfg: Config, s: State) {
    forall k :: InHandOrWaiting(cfg, s, k)
  }

  /** After request `pc` moved: whatever it attended is settled or still attended by it, and what it changed it attends. */
  ghost predicate HandsOver(cfg: Config, sh: Shared, pc: Pc, next: Shared, pc': Pc, k: string) {
    k in next.ctl.commands ==>
      var c := next.ctl.commands[k];
      || c.state == Acknowledged
      || (c.state == Completed && IsCompleted(next.log, c.task))
      || Attended(cfg, pc', k, c.state)
      || (k in sh.ctl.commands && sh.ctl.commands[k].state == c.state && sh.ctl.commands[k].task == c.task
          && !Attended(cfg, pc, k, c.state))
  }

  lemma UntouchedHandsOver(cfg: Config, sh: Shared, pc: Pc, next: Shared, pc': Pc, k: string)
    requires OwnedKey(cfg, pc).None? && !Completing(cfg, pc, k)
    requires next.ctl.commands == sh.ctl.commands
    ensures HandsOver(cfg, sh, pc, next, pc', k)
  {
  }

  lemma JobHandsOver(cfg: Config, sh: Shared, job: Job, stage: JobStage, ch: Choice, k: string)
    requires Workable(cfg) && Global(cfg, sh) && Local(cfg, sh, InJob(job, stage)) && CommandsOfPlan(cfg, sh.ctl)
    requires SmoothJob(cfg, job, stage) && SmoothChoice(ch)
    ensures var (next, out) := Effect(cfg, sh, JobOp(cfg, job, stage), ch);
            HandsOver(cfg, sh, InJob(job, stage), next, AfterJob(cfg, job, stage, out), k)
  {
    hide Do, Global, Local;
    if stage.Rotating? {
      RotationHandsOver(cfg, sh, job, ch, k);
    } else if stage.Create? || stage.Mark? {
      CreationHandsOver(cfg, sh, job, stage, ch, k);
    } else if stage.LogRequest? || stage.CallOut? {
      SendingHandsOver(cfg, sh, job, stage, ch, k);
    } else {
      var (next, out) := Effect(cfg, sh, JobOp(cfg, job, stage), ch);
      UntouchedHandsOver(cfg, sh, InJob(job, stage), next, AfterJob(cfg, job, stage, out), k);
    }
  }

  lemma SendingHandsOver(cfg: Config, sh: Shared, job: Job, stage: JobStage, ch: Choice, k: string)
    requires SmoothJob(cfg, job, stage) && SmoothChoice(ch) && (stage.LogRequest? || stage.CallOut?)
    ensures var (next, out) := Effect(cfg, sh, JobOp(cfg, job, stage), ch);
            HandsOver(cfg, sh, InJob(job, stage), next, AfterJob(cfg, job, stage, out), k)
  {
  }

  lemma RotationHandsOver(cfg: Config, sh: Shared, job: Job, ch: Choice, k: string)
    requires Local(cfg, sh, InJob(job, Rotating)) && CommandsOfPlan(cfg, sh.ctl) && SmoothJob(cfg, job, Rotating)
    ensures var (next, out) := Effect(cfg, sh, JobOp(cfg, job, Rotating), ch);
            HandsOver(cfg, sh, InJob(job, Rotating), next, AfterJob(cfg, job, Rotating, out), k)
  {
    hide Do, Latest, NewCommand, Transition;
    var key := JobKey(cfg, job);
    OfPlanIsKey(cfg, key, sh.ctl.commands[key]);
    KeyNamesTask(cfg, sh.ctl.commands[key].task, JobTask(cfg, job));
    var out := Effect(cfg, sh, JobOp(cfg, job, Rotating), ch).1;
    assert out.cmd.Some? && JobKey(cfg, WithToken(job, out.cmd.value.fence)) == key;
  }

  lemma CreationHandsOver(cfg: Config, sh: Shared, job: Job, stage: JobStage, ch: Choice, k: string)
    requires Local(cfg, sh, InJob(job, stage)) && SmoothJob(cfg, job, stage) && (stage.Create? || stage.Mark?)
    ensures var (next, out) := Effect(cfg, sh, JobOp(cfg, job, stage), ch);
            HandsOver(cfg, sh, InJob(job, stage), next, AfterJob(cfg, job, stage, out), k)
  {
    hide Goto, Scrub;
  }

  lemma SettleHandsOver(cfg: Config, sh: Shared, task: string, key: string, to: CommandState, ch: Choice, k: string)
    requires Global(cfg, sh) && Local(cfg, sh, InCheck(task, Settle(key, to)))
    ensures var (next, out) := Effect(cfg, sh, CheckOp(Settle(key, to)), ch);
            HandsOver(cfg, sh, InCheck(task, Settle(key, to)), next, AfterCheck(cfg, task, Settle(key, to), out, ch.pick), k)
  {
    hide Global, RequestOnce, Rotate, FixedCommand;
    MoveYieldsCopy(cfg, sh, key, to, ch);
  }

  lemma LogSettleHandsOver(cfg: Config, sh: Shared, task: string, moved: Option<Command>, ch: Choice, k: string)
    requires CommandsOfPlan(cfg, sh.ctl) && SmoothCheck(sh.ctl, task, LogSettle(Completed, moved)) && ch.appended
    ensures var (next, out) := Effect(cfg, sh, CheckOp(LogSettle(Completed, moved)), ch);
            HandsOver(cfg, sh, InCheck(task, LogSettle(Completed, moved)), next,
                      AfterCheck(cfg, task, LogSettle(Completed, moved), out, ch.pick), k)
  {
    OfPlanIsKey(cfg, moved.value.key, sh.ctl.commands[moved.value.key]);
  }

  lemma OtherCheckHandsOver(cfg: Config, sh: Shared, task: string, check: CheckStage, ch: Choice, k: string)
    requires Local(cfg, sh, InCheck(task, check)) && SmoothCheck(sh.ctl, task, check) && SmoothChoice(ch)
    requires !check.Settle? && !check.LogSettle?
    ensures var (next, out) := Effect(cfg, sh, CheckOp(check), ch);
            HandsOver(cfg, sh, InCheck(task, check), next, AfterCheck(cfg, task, check, out, ch.pick), k)
  {
    hide Local;
  }

  lemma CheckHandsOver(cfg: Config, sh: Shared, task: string, check: CheckStage, ch: Choice, k: string)
    requires Global(cfg, sh) && Local(cfg, sh, InCheck(task, check)) && CommandsOfPlan(cfg, sh.ctl)
    requires SmoothCheck(sh.ctl, task, check) && SmoothChoice(ch)
    ensures var (next, out) := Effect(cfg, sh, CheckOp(check), ch);
            HandsOver(cfg, sh, InCheck(task, check), next, AfterCheck(cfg, task, check, out, ch.pick), k)
  {
    if check.Settle? {
      SettleHandsOver(cfg, sh, task, check.key, check.to, ch, k);
    } else if check.LogSettle? {
      LogSettleHandsOver(cfg, sh, task, check.moved, ch, k);
    } else {
      OtherCheckHandsOver(cfg, sh, task, check, ch, k);
    }
  }

  /** A logged completion is of the task the command is for. */
  lemma NotesHandOver(cfg: Config, sh: Shared, events: seq<Event>, n: Next, abort: Next, ch: Choice, k: string)
    requires Global(cfg, sh) && CommandsOfPlan(cfg, sh.ctl) && SmoothPc(cfg, sh.ctl, Notes(events, n, abort)) && ch.appended
    ensures var (next, pc') := Act(cfg, sh, Notes(events, n, abort), ch);
            HandsOver(cfg, sh, Notes(events, n, abort), next, pc', k)
  {
    hide Do, After;
    if Completing(cfg, Notes(events, n, abort), k) {
      var t := events[0].task;
      assert FixedCommand(cfg, k, sh.ctl.commands[k]);
      var next := Effect(cfg, sh, Append(events[0]), ch).0;
      assert next.log[|sh.log|] == TaskCompleted(t);
      assert TaskCompleted(t) in next.log;
    }
  }

  lemma PointHandsOver(cfg: Config, sh: Shared, pc: Pc, ch: Choice, k: string)
    requires Workable(cfg) && Global(cfg, sh) && Local(cfg, sh, pc) && CommandsOfPlan(cfg, sh.ctl)
    requires SmoothPc(cfg, sh.ctl, pc) && SmoothChoice(ch)
    ensures var (next, pc') := Act(cfg, sh, pc, ch);
            HandsOver(cfg, sh, pc, next, pc', k)
  {
    hide Do, AfterJob, Global, Local;
    var (next, pc') := Act(cfg, sh, pc, ch);
    match pc
    case Notes(events, n, abort) => NotesHandOver(cfg, sh, events, n, abort, ch, k);
    case InJob(job, stage) => JobHandsOver(cfg, sh, job, stage, ch, k);
    case InCheck(task, check) => CheckHandsOver(cfg, sh, task, check, ch, k);
    case _ => UntouchedHandsOver(cfg, sh, pc, next, pc', k);
  }

  lemma CompletedStays(cfg: Config, sh: Shared, op: Op, ch: Choice, task: string)
    requires IsCompleted(sh.log, task)
    ensures IsCompleted(Effect(cfg, sh, op, ch).0.log, task)
  {
  }

  lemma AdvanceKeepsHands(cfg: Config, s: State, r: nat, ch: Choice, k: string)
    requires Workable(cfg) && Inv(cfg, s) && SmoothInv(cfg, s) && r in s.reqs && SmoothChoice(ch)
    requires InHandOrWaiting(cfg, s, k)
    ensures InHandOrWaiting(cfg, Do(cfg, s, Advance(r, ch)), k)
  {
    hide Exec, After;
    var (next, pc') := Act(cfg, s.sh, s.reqs[r], ch);
    var t := Do(cfg, s, Advance(r, ch));
    assert t == State(next, s.reqs[r := pc']);
    assert Local(cfg, s.sh, s.reqs[r]);
    PointHandsOver(cfg, s.sh, s.reqs[r], ch, k);
    if k in next.ctl.commands {
      var c := next.ctl.commands[k];
      if Attended(cfg, pc', k, c.state) {
        assert t.reqs[r] == pc';
      } else if k in s.sh.ctl.commands && s.sh.ctl.commands[k].state == c.state && s.sh.ctl.commands[k].task == c.task {
        if IsCompleted(s.sh.log, c.task) {
          CompletedStays(cfg, s.sh, OpOf(cfg, s.reqs[r], ch.now), ch, c.task);
        }
        if SomebodyAttends(cfg, s, k, c.state) {
          var q :| q in s.reqs && Attended(cfg, s.reqs[q], k, c.state);
          assert q != r ==> t.reqs[q] == s.reqs[q];
        }
      }
    }
  }

  lemma BeginKeepsHands(cfg: Config, s: State, r: nat, request: Request, k: string)
    requires SmoothInv(cfg, s) && InHandOrWaiting(cfg, s, k)
    ensures InHandOrWaiting(cfg, Do(cfg, s, Begin(r, request)), k)
  {
    hide Act, Latest, Reboot;
    var t := Do(cfg, s, Begin(r, request));
    if t != s && k in s.sh.ctl.commands && SomebodyAttends(cfg, s, k, s.sh.ctl.commands[k].state) {
      var c := s.sh.ctl.commands[k];
      assert SmoothState(c.state);
      var q :| q in s.reqs && Attended(cfg, s.reqs[q], k, c.state);
      assert q != r ==> t.reqs[q] == s.reqs[q];
    }
  }

  // ---- the end of the run

  predicate Finishing(pc: Pc) {
    || pc == InPass(FromResult, Reading)
    || (pc.InCheck? && pc.check.CheckAll? && pc.check.all)
    || (pc.Notes? && pc.events == [Note(DispatchCompleted, "")])
  }

  ghost predicate SomebodyFinishes(s: State) {
    exists r | r in s.reqs :: Finishing(s.reqs[r])
  }

  ghost predicate EndInv(cfg: Config, s: State) {
    AllCompleted(cfg, s.sh.log) ==> Note(DispatchCompleted, "") in s.sh.log || SomebodyFinishes(s)
  }

  lemma {:induction false} WalkEnds(cfg: Config, log: seq<Event>, i: nat, cont: Cont)
    requires AllCompleted(cfg, log)
    ensures Walk(cfg, log, i, cont) == End(true, cont)
    decreases |cfg.plan| - i
  {
    if i < |cfg.plan| {
      assert cfg.plan[i] in cfg.plan;
      WalkEnds(cfg, log, i + 1, cont);
    }
  }

  lemma FinisherStep(cfg: Config, sh: Shared, pc: Pc, ch: Choice)
    requires Fixed(cfg, "") && AllCompleted(cfg, sh.log) && Finishing(pc) && ch.appended
    ensures var (next, pc') := Act(cfg, sh, pc, ch);
            Finishing(pc') || Note(DispatchCompleted, "") in next.log
  {
    match pc
    case InPass(_, _) => WalkEnds(cfg, sh.log, 0, FromResult);
    case InCheck(_, check) => if check.i < |cfg.plan| { assert cfg.plan[check.i] in cfg.plan; }
    case Notes(events, _, _) =>
      var next := Effect(cfg, sh, Append(events[0]), ch).0;
      assert next.log[|sh.log|] == Note(DispatchCompleted, "");
  }

  lemma SameEnd(cfg: Config, log: seq<Event>, more: seq<Event>)
    requires forall t :: IsCompleted(more, t) <==> IsCompleted(log, t)
    ensures AllCompleted(cfg, more) <==> AllCompleted(cfg, log)
  {
  }

  lemma AdvanceKeepsEnd(cfg: Config, s: State, r: nat, ch: Choice)
    requires Workable(cfg) && SmoothInv(cfg, s) && EndInv(cfg, s) && r in s.reqs && SmoothChoice(ch)
    ensures EndInv(cfg, Do(cfg, s, Advance(r, ch)))
  {
    hide Exec, Effect, OpOf, AfterJob, AfterDecide;
    var op := OpOf(cfg, s.reqs[r], ch.now);
    var (next, pc') := Act(cfg, s.sh, s.reqs[r], ch);
    var t := Do(cfg, s, Advance(r, ch));
    assert t == State(next, s.reqs[r := pc']);
    if op.Append? && op.e.TaskCompleted? {
      WhatMattersIsFollowed(cfg, s.sh, s.reqs[r], ch);
      assert Finishing(t.reqs[r]);
    } else {
      CompletionsUnchanged(cfg, s.sh, op, ch);
      SameEnd(cfg, s.sh.log, next.log);
      EffectIsOnward(cfg, s.sh, op, ch);
      if AllCompleted(cfg, s.sh.log) && Note(DispatchCompleted, "") !in s.sh.log {
        var q :| q in s.reqs && Finishing(s.reqs[q]);
        if q == r { FinisherStep(cfg, s.sh, s.reqs[r], ch); }
        assert t.reqs[q] == if q == r then pc' else s.reqs[q];
      }
    }
  }

  lemma CompletionsUnchanged(cfg: Config, sh: Shared, op: Op, ch: Choice)
    requires op.Append? ==> !op.e.TaskCompleted?
    ensures forall t :: IsCompleted(Effect(cfg, sh, op, ch).0.log, t) <==> IsCompleted(sh.log, t)
  {
  }

  // ---- runs

  ghost predicate LiveInv(cfg: Config, s: State) {
    CoverInv(cfg, s) && HandInv(cfg, s) && EndInv(cfg, s)
  }

  lemma StepKeepsLive(cfg: Config, s: State, step: Step)
    requires Workable(cfg) && Inv(cfg, s) && ScheduleInv(cfg, s) && SmoothInv(cfg, s) && LiveInv(cfg, s) && Smooth(step)
    ensures LiveInv(cfg, Do(cfg, s, step))
  {
    hide Act, Reboot, Inv;
    var t := Do(cfg, s, step);
    match step
    case Begin(r, request) =>
      BeginCovers(cfg, s, r, request);
      forall k ensures InHandOrWaiting(cfg, t, k) { BeginKeepsHands(cfg, s, r, request, k); }
      BeginKeepsEnd(cfg, s, r, request);
    case Advance(r, ch) =>
      if r in s.reqs {
        AdvanceCovers(cfg, s, r, ch);
        forall k ensures InHandOrWaiting(cfg, t, k) { AdvanceKeepsHands(cfg, s, r, ch, k); }
        AdvanceKeepsEnd(cfg, s, r, ch);
      }
    case Restart(_) =>
  }

  lemma BeginKeepsEnd(cfg: Config, s: State, r: nat, request: Request)
    requires EndInv(cfg, s)
    ensures EndInv(cfg, Do(cfg, s, Begin(r, request)))
  {
    var t := Do(cfg, s, Begin(r, request));
    if t != s && SomebodyFinishes(s) {
      var q :| q in s.reqs && Finishing(s.reqs[q]);
      assert q != r && t.reqs[q] == s.reqs[q];
    }
  }

  lemma InitIsLive(cfg: Config)
    requires Workable(cfg)
    ensures LiveInv(cfg, Init(cfg))
  {
    ReaderCovers(cfg, Init(cfg), 0);
    assert cfg.plan[0] in cfg.plan;
  }

  lemma {:induction false} LiveAlways(cfg: Config, steps: seq<Step>)
    requires Workable(cfg) && AllSmooth(steps)
    ensures SmoothInv(cfg, Exec(cfg, steps)) && LiveInv(cfg, Exec(cfg, steps))
    decreases |steps|
  {
    hide Do, Inv;
    SmoothAlways(cfg, steps);
    if steps == [] {
      InitIsLive(cfg);
    } else {
      var rest := steps[..|steps| - 1];
      assert forall n | 0 <= n < |rest| :: rest[n] == steps[n];
      LiveAlways(cfg, rest);
      SmoothAlways(cfg, rest);
      StepKeepsLive(cfg, Exec(cfg, rest), steps[|steps| - 1]);
    }
  }

  // ---- what follows

  /** Dependencies are done and the task is not. */
  ghost predicate Due(cfg: Config, log: seq<Event>, i: nat) {
    i < |cfg.plan| && DepsCompleted(log, cfg.plan[i].deps) && !IsCompleted(log, cfg.plan[i].id)
  }

  /** The task is due, and with an agent or up for an approval that can still be given at `now`. */
  ghost predicate Waiting(cfg: Config, sh: Shared, i: nat, now: int) {
    && Due(cfg, sh.log, i)
    && ((KeyAt(cfg, i) in sh.ctl.commands && sh.ctl.commands[KeyAt(cfg, i)].state == Acknowledged)
        || (cfg.plan[i].guarded && Open(sh.log, DigestAt(cfg, i)) && !ExpiredBy(sh.log, DigestAt(cfg, i), now)))
  }

  /** The task needs an approval that was asked for and can no longer be given. */
  ghost predicate Stranded(cfg: Config, log: seq<Event>, i: nat, now: int) {
    i < |cfg.plan| && cfg.plan[i].guarded && Open(log, DigestAt(cfg, i)) && ExpiredBy(log, DigestAt(cfg, i), now)
  }

  lemma FirstIncomplete(cfg: Config, log: seq<Event>) returns (i: nat)
    requires !AllCompleted(cfg, log)
    ensures Frontier(cfg, log, i)
  {
    var t :| t in cfg.plan && !IsCompleted(log, t.id);
    i := 0;
    while IsCompleted(log, cfg.plan[i].id)
      invariant i < |cfg.plan| && forall j | 0 <= j < i :: IsCompleted(log, cfg.plan[j].id)
      decreases |cfg.plan| - i
    {
      if i + 1 == |cfg.plan| {
        var n :| 0 <= n < |cfg.plan| && cfg.plan[n] == t;
        assert n <= i;
      }
      i := i + 1;
    }
  }

  lemma NothingDenied(cfg: Config, log: seq<Event>, d: Digest)
    requires SmoothLog(log) && !IsGranted(log, d)
    ensures !IsDecided(log, d)
  {
    if ApprovalDecided(d, false) in log { assert false; }
  }

  /** Over every run in which nothing fails, with requests interleaved in any way: whenever all of them are done, at whatever
      time, every task is completed and the run is logged as completed, or some due task is waiting for its result or for an
      approval that can be given, or the approval of some due task has expired. */
  lemma NeverStuck(cfg: Config, steps: seq<Step>, now: int)
    requires Workable(cfg) && AllSmooth(steps)
    requires AllDone(Exec(cfg, steps))
    ensures var sh := Exec(cfg, steps).sh;
            || (AllCompleted(cfg, sh.log) && Note(DispatchCompleted, "") in sh.log)
            || (exists i: nat :: Waiting(cfg, sh, i, now))
            || (exists i: nat :: Due(cfg, sh.log, i) && Stranded(cfg, sh.log, i, now))
  {
    hide Do, Exec;
    LiveAlways(cfg, steps);
    var s := Exec(cfg, steps);
    if !AllCompleted(cfg, s.sh.log) {
      var i := FirstIncomplete(cfg, s.sh.log);
      FrontierIsReady(cfg, s.sh.log, i);
      assert Covered(cfg, s, i);
      if AwaitsGrant(cfg, s.sh.log, i) {
        NothingDenied(cfg, s.sh.log, DigestAt(cfg, i));
      } else {
        KnownIsWaiting(cfg, s, i);
      }
      assert Waiting(cfg, s.sh, i, now) || (Due(cfg, s.sh.log, i) && Stranded(cfg, s.sh.log, i, now));
    }
  }

  lemma KnownIsWaiting(cfg: Config, s: State, i: nat)
    requires SmoothInv(cfg, s) && HandInv(cfg, s) && Frontier(cfg, s.sh.log, i) && Known(cfg, s.sh.ctl, i)
    requires forall r | r in s.reqs :: s.reqs[r].Done?
    ensures s.sh.ctl.commands[KeyAt(cfg, i)].state == Acknowledged
  {
    var k := KeyAt(cfg, i);
    var c := s.sh.ctl.commands[k];
    OfPlanIsKey(cfg, k, c);
    KeyNamesTask(cfg, c.task, cfg.plan[i].id);
    assert InHandOrWaiting(cfg, s, k);
    assert SmoothState(c.state);
  }
}
