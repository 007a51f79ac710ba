/** Runs in which nothing fails: which points requests come to, and what commands and events there are. */
module Progress {
  import opened Model
  import opened Control
  import opened Actions
  import opened Protocol
  import opened CommandSafety
  import opened ScheduleSafety
  import Sequences

  /** A plan the scheduler can work through: distinct non-empty ids, dependencies first, every task routable, and no more
      tasks than the controller takes commands. */
  ghost predicate Workable(cfg: Config) {
    && GoodConfig(cfg) && Fixed(cfg, "") && PlanDistinct(cfg)
    && cfg.loaded && cfg.plan != [] && |cfg.plan| <= cfg.bound
    && (forall i | 0 <= i < |cfg.plan| :: cfg.plan[i].id != "" && cfg.plan[i].agent.Some?)
    && (forall i, y | 0 <= i < |cfg.plan| && y in cfg.plan[i].deps :: exists j | 0 <= j < i :: cfg.plan[j].id == y)
  }

  /** Nothing fails: appends succeed, the adapter accepts and reports completion or nothing yet, approvals are granted, and
      there are no controls and no restarts. */
  predicate Smooth(step: Step) {
    match step
    case Begin(_, CheckResult(_)) => true
    case Begin(_, Decide(_, grant, _)) => grant
    case Begin(_, _) => false
    case Advance(_, ch) => ch.appended && ch.reply == Accepted && (ch.observed == ResultCompleted || ch.observed == NoResult)
    case Restart(_) => false
  }

  predicate AllSmooth(steps: seq<Step>) {
    forall n | 0 <= n < |steps| :: Smooth(steps[n])
  }

  lemma KeyNamesTask(cfg: Config, a: string, b: string)
    requires DispatchKey(cfg, a) == DispatchKey(cfg, b)
    ensures a == b
  {
    var x, y := DispatchKey(cfg, a), DispatchKey(cfg, b);
    assert a == x[|cfg.run| + 1..|x| - 9] && b == y[|cfg.run| + 1..|y| - 9];
  }

  // ---- what smooth runs look like

  function KeyAt(cfg: Config, i: nat): string {
    DispatchKey(cfg, PlannedAt(cfg, i).id)
  }

  ghost predicate OfPlan(cfg: Config, k: string, c: Command) {
    exists i: nat | i < |cfg.plan| :: k == KeyAt(cfg, i) && c.task == cfg.plan[i].id
  }

  predicate SmoothState(s: CommandState) {
    s == Requested || s == Acknowledged || s == Polling || s == Completed
  }

  ghost predicate CommandsOfPlan(cfg: Config, ctl: Ctl) {
    !ctl.stopped && forall k | k in ctl.commands :: OfPlan(cfg, k, ctl.commands[k]) && SmoothState(ctl.commands[k].state)
  }

  predicate SmoothLog(log: seq<Event>) {
    forall e | e in log :: (e.ApprovalRequested? ==> e.task != "") && (e.ApprovalDecided? ==> e.granted)
  }

  predicate SmoothNext(next: Next) {
    match next
    case Finish => true
    case ToSchedule(cont) => cont != FromReconcile
    case ToWalk(_, _, cont) => cont != FromReconcile
    case ToEnd(_, cont) => cont != FromReconcile
    case _ => false
  }

  predicate SmoothJob(cfg: Config, job: Job, stage: JobStage) {
    && job.DispatchJob? && job.i < |cfg.plan| && job.cont != FromReconcile
    && !stage.RetryGuard? && !stage.Token? && !stage.Stopping? && !stage.Unsure?
    && (stage.Mark? ==> stage.to == Acknowledged)
    && (stage.LogMark? ==> stage.logTo == Acknowledged && stage.moved.Some?)
  }

  predicate Checks(ctl: Ctl, key: string, task: string) {
    key in ctl.commands && ctl.commands[key].task == task
  }

  predicate SmoothCheck(ctl: Ctl, task: string, check: CheckStage) {
    match check
    case Poll(key) => Checks(ctl, key, task)
    case Polled(key) => Checks(ctl, key, task)
    case Unpoll(key) => Checks(ctl, key, task)
    case Settle(key, to) => Checks(ctl, key, task) && to == Completed
    case LogSettle(to, moved) =>
      to == Completed && moved.Some? && Checks(ctl, moved.value.key, task) && ctl.commands[moved.value.key].state == Completed
    case _ => true
  }

  ghost predicate SmoothPc(cfg: Config, ctl: Ctl, pc: Pc) {
    match pc
    case Done => true
    case Notes(events, next, _) =>
      && |events| == 1 && SmoothNext(next)
      && (events[0].Note? || (events[0].TaskCompleted? && next == ToSchedule(FromResult)
                              && Checks(ctl, DispatchKey(cfg, events[0].task), events[0].task)
                              && ctl.commands[DispatchKey(cfg, events[0].task)].state == Completed))
    case InPass(cont, _) => cont != FromReconcile
    case InJob(job, stage) => SmoothJob(cfg, job, stage)
    case InCheck(task, check) => SmoothCheck(ctl, task, check)
    case InDecision(_, grant, decide) =>
      grant && !decide.Releasing? && (decide.Claiming? ==> decide.task != "") && (decide.LogDecision? ==> decide.task != "")
    case InReconcile(_) => false
  }

  ghost predicate SmoothInv(cfg: Config, s: State) {
    && CommandsOfPlan(cfg, s.sh.ctl) && SmoothLog(s.sh.log)
    && forall r | r in s.reqs :: SmoothPc(cfg, s.sh.ctl, s.reqs[r])
  }

  predicate SmoothChoice(ch: Choice) {
    ch.appended && ch.reply == Accepted && (ch.observed == ResultCompleted || ch.observed == NoResult)
  }

  // ---- one step keeps it smooth

  lemma OfPlanIsKey(cfg: Config, k: string, c: Command)
    requires OfPlan(cfg, k, c)
    ensures k == DispatchKey(cfg, c.task)
  {
  }

  /** There is room for the command of every planned task. */
  lemma RoomForPlan(cfg: Config, ctl: Ctl, i: nat)
    requires Workable(cfg) && CommandsOfPlan(cfg, ctl) && CtlOk(cfg, ctl) && i < |cfg.plan| && KeyAt(cfg, i) !in ctl.commands
    ensures ctl.count < ctl.maxCommands
  {
    var keys := seq(|cfg.plan|, j requires 0 <= j < |cfg.plan| => KeyAt(cfg, j));
    var all := set k | k in keys;
    forall k | k in ctl.commands ensures k in all - {KeyAt(cfg, i)} {
      var j: nat :| j < |cfg.plan| && k == KeyAt(cfg, j) && ctl.commands[k].task == cfg.plan[j].id;
      assert keys[j] == k;
    }
    assert keys[i] == KeyAt(cfg, i);
    SetOfSeq(keys);
    Sequences.SubsetIsSmaller(ctl.commands.Keys, all - {KeyAt(cfg, i)});
  }

  lemma {:induction false} SetOfSeq(keys: seq<string>)
    ensures |set k | k in keys| <= |keys|
    decreases |keys|
  {
    if keys != [] {
      var rest := keys[..|keys| - 1];
      SetOfSeq(rest);
      assert keys == rest + [keys[|keys| - 1]];
      assert (set k | k in keys) == (set k | k in rest) + {keys[|keys| - 1]};
    } else {
      assert (set k | k in keys) == {};
    }
  }

  lemma WalkIsSmooth(cfg: Config, ctl: Ctl, seen: seq<Event>, i: nat, cont: Cont)
    requires cont != FromReconcile && (forall j | 0 <= j < |cfg.plan| :: cfg.plan[j].agent.Some?)
    ensures SmoothPc(cfg, ctl, Walk(cfg, seen, i, cont))
  {
    WalkStops(cfg, seen, i, cont);
  }

  lemma EndIsSmooth(cfg: Config, ctl: Ctl, ok: bool, cont: Cont)
    requires cont != FromReconcile
    ensures SmoothPc(cfg, ctl, End(ok, cont))
  {
  }

  lemma GotoIsSmooth(cfg: Config, ctl: Ctl, next: Next)
    requires Workable(cfg) && SmoothNext(next)
    ensures SmoothPc(cfg, ctl, Goto(cfg, next))
  {
    match next
    case ToWalk(seen, i, cont) => WalkIsSmooth(cfg, ctl, seen, i, cont);
    case ToEnd(ok, cont) => EndIsSmooth(cfg, ctl, ok, cont);
    case _ =>
  }

  /** What a smooth step does to the controller and the log, for the requests that look on. */
  ghost predicate Onward(sh: Shared, next: Shared) {
    && (forall k | k in sh.ctl.commands ::
          && k in next.ctl.commands && next.ctl.commands[k].task == sh.ctl.commands[k].task
          && (sh.ctl.commands[k].state == Completed ==> next.ctl.commands[k].state == Completed))
    && sh.log <= next.log
  }

  lemma EffectIsOnward(cfg: Config, sh: Shared, op: Op, ch: Choice)
    ensures Onward(sh, Effect(cfg, sh, op, ch).0)
  {
    hide Do, Scrub;
  }

  lemma OnwardKeepsSmooth(cfg: Config, sh: Shared, next: Shared, pc: Pc)
    requires Onward(sh, next) && SmoothPc(cfg, sh.ctl, pc)
    ensures SmoothPc(cfg, next.ctl, pc)
  {
  }

  lemma PassIsSmooth(cfg: Config, ctl: Ctl, cont: Cont, pass: PassStage, out: Outcome)
    requires Workable(cfg) && cont != FromReconcile && PassOk(cfg, pass)
    ensures SmoothPc(cfg, ctl, AfterPass(cfg, cont, pass, out))
  {
    EndIsSmooth(cfg, ctl, true, cont);
    EndIsSmooth(cfg, ctl, false, cont);
    if out.Events? { WalkIsSmooth(cfg, ctl, out.events, 0, cont); }
  }

  lemma MarkIsSmooth(cfg: Config, sh: Shared, job: Job, ch: Choice)
    requires Global(cfg, sh) && Local(cfg, sh, InJob(job, Mark(Acknowledged))) && SmoothJob(cfg, job, Mark(Acknowledged))
    ensures var (next, out) := Effect(cfg, sh, JobOp(cfg, job, Mark(Acknowledged)), ch);
            SmoothPc(cfg, next.ctl, AfterJob(cfg, job, Mark(Acknowledged), out))
  {
    hide Global, Shaped, NewCommand;
  }

  lemma JobIsSmooth(cfg: Config, sh: Shared, ctl: Ctl, job: Job, stage: JobStage, ch: Choice)
    requires Workable(cfg) && SmoothJob(cfg, job, stage) && SmoothChoice(ch) && !stage.Mark?
    ensures var out := Effect(cfg, sh, JobOp(cfg, job, stage), ch).1;
            SmoothPc(cfg, ctl, AfterJob(cfg, job, stage, out))
  {
    hide Goto, Scrub;
    GotoIsSmooth(cfg, ctl, Proceed(job));
    GotoIsSmooth(cfg, ctl, Fail(job));
  }

  lemma PickedIsOfTask(cfg: Config, ctl: Ctl, task: string, pick: string)
    requires CommandsOfPlan(cfg, ctl) && Pickable(cfg, ctl.commands, task, pick)
    ensures Checks(ctl, pick, task)
  {
    OfPlanIsKey(cfg, pick, ctl.commands[pick]);
    if pick == DispatchKey(cfg, task) { KeyNamesTask(cfg, task, ctl.commands[pick].task); }
  }

  lemma SettleIsSmooth(cfg: Config, sh: Shared, task: string, key: string, ch: Choice)
    requires Global(cfg, sh) && Local(cfg, sh, InCheck(task, Settle(key, Completed))) && Checks(sh.ctl, key, task)
    ensures var (next, out) := Effect(cfg, sh, CheckOp(Settle(key, Completed)), ch);
            SmoothPc(cfg, next.ctl, AfterCheck(cfg, task, Settle(key, Completed), out, ch.pick))
  {
    hide Do, Global;
    MoveYieldsCopy(cfg, sh, key, Completed, ch);
    EffectIsOnward(cfg, sh, CheckOp(Settle(key, Completed)), ch);
  }

  lemma LogSettleIsSmooth(cfg: Config, sh: Shared, task: string, moved: Option<Command>, ch: Choice)
    requires CommandsOfPlan(cfg, sh.ctl) && SmoothCheck(sh.ctl, task, LogSettle(Completed, moved)) && ch.appended
    ensures var (next, out) := Effect(cfg, sh, CheckOp(LogSettle(Completed, moved)), ch);
            SmoothPc(cfg, next.ctl, AfterCheck(cfg, task, LogSettle(Completed, moved), out, ch.pick))
  {
    OfPlanIsKey(cfg, moved.value.key, sh.ctl.commands[moved.value.key]);
  }

  lemma OtherCheckIsSmooth(cfg: Config, ctl: Ctl, next: Ctl, task: string, check: CheckStage, out: Outcome, ch: Choice)
    requires SmoothCheck(ctl, task, check) && !check.Settle? && !check.LogSettle? && SmoothChoice(ch)
    requires check.Polled? ==> out == Observed(ch.observed)
    requires check.Picking? && out.All? && Pickable(cfg, out.commands, task, ch.pick) ==> Checks(next, ch.pick, task)
    requires forall k | k in ctl.commands :: k in next.commands && next.commands[k].task == ctl.commands[k].task
    ensures SmoothPc(cfg, next, AfterCheck(cfg, task, check, out, ch.pick))
  {
  }

  lemma CheckIsSmooth(cfg: Config, sh: Shared, task: string, check: CheckStage, ch: Choice)
    requires Global(cfg, sh) && Local(cfg, sh, InCheck(task, check)) && CommandsOfPlan(cfg, sh.ctl)
    requires SmoothCheck(sh.ctl, task, check) && SmoothChoice(ch)
    ensures var (next, out) := Effect(cfg, sh, CheckOp(check), ch);
            SmoothPc(cfg, next.ctl, AfterCheck(cfg, task, check, out, ch.pick))
  {
    hide Do, Global, OwnedKey;
    if check.Settle? {
      SettleIsSmooth(cfg, sh, task, check.key, ch);
    } else if check.LogSettle? {
      LogSettleIsSmooth(cfg, sh, task, check.moved, ch);
    } else {
      var (next, out) := Effect(cfg, sh, CheckOp(check), ch);
      EffectIsOnward(cfg, sh, CheckOp(check), ch);
      if check.Picking? && Pickable(cfg, sh.ctl.commands, task, ch.pick) { PickedIsOfTask(cfg, sh.ctl, task, ch.pick); }
      OtherCheckIsSmooth(cfg, sh.ctl, next.ctl, task, check, out, ch);
    }
  }

  lemma {:induction false} LastRequestNamesTask(log: seq<Event>, d: Digest)
    requires SmoothLog(log)
    ensures LastRequest(log, d).Some? ==> LastRequest(log, d).value.ApprovalRequested? && LastRequest(log, d).value.task != ""
    decreases |log|
  {
    if log != [] {
      assert log[|log| - 1] in log;
      forall e | e in log[..|log| - 1] ensures e in log {}
      LastRequestNamesTask(log[..|log| - 1], d);
    }
  }

  lemma DecideIsSmooth(cfg: Config, sh: Shared, d: Digest, grant: bool, decide: DecideStage, ch: Choice)
    requires SmoothLog(sh.log) && SmoothChoice(ch) && SmoothPc(cfg, sh.ctl, InDecision(d, grant, decide))
    ensures var (next, out) := Effect(cfg, sh, DecideOp(d, grant, decide), ch);
            SmoothPc(cfg, next.ctl, AfterDecide(d, grant, decide, out, ch.now))
  {
    LastRequestNamesTask(sh.log, d);
  }

  lemma NotesAreSmooth(cfg: Config, ctl: Ctl, events: seq<Event>, next: Next, abort: Next, out: Outcome)
    requires Workable(cfg) && |events| == 1 && SmoothNext(next) && Succeeded(out)
    ensures SmoothPc(cfg, ctl, AfterNotes(cfg, events, next, abort, out))
  {
    GotoIsSmooth(cfg, ctl, next);
  }

  lemma PointIsSmooth(cfg: Config, s: State, r: nat, ch: Choice)
    requires Workable(cfg) && Inv(cfg, s) && SmoothInv(cfg, s) && r in s.reqs && SmoothChoice(ch)
    ensures var (next, pc') := Act(cfg, s.sh, s.reqs[r], ch);
            SmoothPc(cfg, next.ctl, pc')
  {
    hide Global;
    var (next, out) := Effect(cfg, s.sh, OpOf(cfg, s.reqs[r], ch.now), ch);
    assert Local(cfg, s.sh, s.reqs[r]);
    match s.reqs[r]
    case Done =>
    case Notes(events, n, abort) => NotesAreSmooth(cfg, next.ctl, events, n, abort, out);
    case InPass(cont, pass) => PassIsSmooth(cfg, next.ctl, cont, pass, out);
    case InJob(job, stage) =>
      if stage.Mark? { MarkIsSmooth(cfg, s.sh, job, ch); } else { JobIsSmooth(cfg, s.sh, next.ctl, job, stage, ch); }
    case InCheck(task, check) => CheckIsSmooth(cfg, s.sh, task, check, ch);
    case InDecision(d, grant, decide) => DecideIsSmooth(cfg, s.sh, d, grant, decide, ch);
    case InReconcile(_) =>
  }

  // ---- the shared part

  lemma CreateIsOfPlan(cfg: Config, sh: Shared, job: Job, ch: Choice)
    requires CommandsOfPlan(cfg, sh.ctl) && SmoothJob(cfg, job, Create)
    ensures CommandsOfPlan(cfg, Effect(cfg, sh, JobOp(cfg, job, Create), ch).0.ctl)
  {
    var next := Effect(cfg, sh, JobOp(cfg, job, Create), ch).0.ctl;
    forall k | k in next.commands ensures OfPlan(cfg, k, next.commands[k]) && SmoothState(next.commands[k].state) {
      if k !in sh.ctl.commands {
        assert k == KeyAt(cfg, job.i) && next.commands[k].task == cfg.plan[job.i].id;
      } else {
        assert OfPlan(cfg, k, sh.ctl.commands[k]);
      }
    }
  }

  /** Anything but a creation keeps keys and tasks. */
  lemma KeptTasksAreOfPlan(cfg: Config, ctl: Ctl, next: Ctl)
    requires CommandsOfPlan(cfg, ctl) && !next.stopped && next.commands.Keys == ctl.commands.Keys
    requires forall k | k in ctl.commands :: next.commands[k].task == ctl.commands[k].task && SmoothState(next.commands[k].state)
    ensures CommandsOfPlan(cfg, next)
  {
    forall k | k in next.commands ensures OfPlan(cfg, k, next.commands[k]) {
      var i: nat :| i < |cfg.plan| && k == KeyAt(cfg, i) && ctl.commands[k].task == cfg.plan[i].id;
    }
  }

  /** The transitions smooth requests make. */
  lemma SmoothMoves(cfg: Config, ctl: Ctl, pc: Pc, now: int)
    requires SmoothPc(cfg, ctl, pc)
    ensures var op := OpOf(cfg, pc, now);
            && (op.Move? ==> SmoothState(op.to))
            && !op.StopAll?
            && (op.CreateCommand? ==> pc.InJob? && pc.stage.Create?)
  {
  }

  lemma TasksAreKept(cfg: Config, sh: Shared, op: Op, ch: Choice)
    requires !op.CreateCommand? && !op.StopAll? && (op.Move? ==> SmoothState(op.to)) && !sh.ctl.stopped
    requires forall k | k in sh.ctl.commands :: SmoothState(sh.ctl.commands[k].state)
    ensures var next := Effect(cfg, sh, op, ch).0.ctl;
            && !next.stopped && next.commands.Keys == sh.ctl.commands.Keys
            && forall k | k in sh.ctl.commands ::
                 next.commands[k].task == sh.ctl.commands[k].task && SmoothState(next.commands[k].state)
  {
  }

  lemma SharedStaysOfPlan(cfg: Config, sh: Shared, pc: Pc, ch: Choice)
    requires CommandsOfPlan(cfg, sh.ctl) && SmoothPc(cfg, sh.ctl, pc)
    ensures CommandsOfPlan(cfg, Effect(cfg, sh, OpOf(cfg, pc, ch.now), ch).0.ctl)
  {
    var op := OpOf(cfg, pc, ch.now);
    SmoothMoves(cfg, sh.ctl, pc, ch.now);
    if op.CreateCommand? {
      CreateIsOfPlan(cfg, sh, pc.job, ch);
    } else {
      TasksAreKept(cfg, sh, op, ch);
      KeptTasksAreOfPlan(cfg, sh.ctl, Effect(cfg, sh, op, ch).0.ctl);
    }
  }

  lemma SmoothAppends(cfg: Config, sh: Shared, pc: Pc, now: int)
    requires Workable(cfg) && Shaped(cfg, pc) && SmoothPc(cfg, sh.ctl, pc)
    ensures var op := OpOf(cfg, pc, now);
            && (op.Append? && op.e.ApprovalRequested? ==> op.e.task != "" && Fixed(cfg, op.e.task))
            && (op.Append? && op.e.ApprovalDecided? ==> op.e.granted)
  {
    if pc.InPass? && pc.pass.Asking? { assert cfg.plan[pc.pass.i] in cfg.plan; }
  }

  lemma LogStaysSmooth(cfg: Config, sh: Shared, pc: Pc, ch: Choice)
    requires Workable(cfg) && Shaped(cfg, pc) && SmoothPc(cfg, sh.ctl, pc) && SmoothLog(sh.log)
    ensures SmoothLog(Effect(cfg, sh, OpOf(cfg, pc, ch.now), ch).0.log)
  {
    hide Do, OpOf;
    SmoothAppends(cfg, sh, pc, ch.now);
  }

  lemma AdvanceIsSmooth(cfg: Config, s: State, r: nat, ch: Choice)
    requires Workable(cfg) && Inv(cfg, s) && SmoothInv(cfg, s) && r in s.reqs && SmoothChoice(ch)
    ensures SmoothInv(cfg, Do(cfg, s, Advance(r, ch)))
  {
    hide Exec, After, OpOf, Reboot, Global, Shaped;
    var pc := s.reqs[r];
    var op := OpOf(cfg, pc, ch.now);
    var (next, pc') := Act(cfg, s.sh, pc, ch);
    assert Local(cfg, s.sh, pc);
    PointIsSmooth(cfg, s, r, ch);
    SharedStaysOfPlan(cfg, s.sh, pc, ch);
    LogStaysSmooth(cfg, s.sh, pc, ch);
    EffectIsOnward(cfg, s.sh, op, ch);
    forall q | q in s.reqs && q != r ensures SmoothPc(cfg, next.ctl, s.reqs[q]) {
      OnwardKeepsSmooth(cfg, s.sh, next, s.reqs[q]);
    }
    assert Do(cfg, s, Advance(r, ch)) == State(next, s.reqs[r := pc']);
  }

  lemma StepIsSmooth(cfg: Config, s: State, step: Step)
    requires Workable(cfg) && Inv(cfg, s) && SmoothInv(cfg, s) && Smooth(step)
    ensures SmoothInv(cfg, Do(cfg, s, step))
  {
    hide Inv;
    match step
    case Begin(r, request) => if Do(cfg, s, step) != s { assert SmoothPc(cfg, s.sh.ctl, Entry(request)); }
    case Advance(r, ch) => if r in s.reqs { AdvanceIsSmooth(cfg, s, r, ch); }
    case Restart(_) =>
  }

  lemma {:induction false} SmoothAlways(cfg: Config, steps: seq<Step>)
    requires Workable(cfg) && AllSmooth(steps)
    ensures Inv(cfg, Exec(cfg, steps)) && ScheduleInv(cfg, Exec(cfg, steps)) && SmoothInv(cfg, Exec(cfg, steps))
    decreases |steps|
  {
    hide Do, Inv;
    ScheduleInvAlways(cfg, steps);
    if steps != [] {
      var rest := steps[..|steps| - 1];
      assert forall n | 0 <= n < |rest| :: rest[n] == steps[n];
      SmoothAlways(cfg, rest);
      StepIsSmooth(cfg, Exec(cfg, rest), steps[|steps| - 1]);
    }
  }
}
