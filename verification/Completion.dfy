/** How far a run has come: each completion and each grant brings it closer to its end, each task is completed once, every
    request ends, and from every quiet moment the run can be brought to its end. */
module Completion {
  import opened Model
  import opened Control
  import opened Actions
  import opened Protocol
  import opened CommandSafety
  import opened ScheduleSafety
  import opened Progress
  import opened NotStuck
  import ApprovalSafety
  import Sequences

  // ---- each task is completed once

  ghost predicate CompletedOnce(log: seq<Event>) {
    forall i, j | 0 <= i < j < |log| && log[i].TaskCompleted? && log[j].TaskCompleted? :: log[i].task != log[j].task
  }

  /** A completed task's command has completed. */
  ghost predicate CompletionsKnown(cfg: Config, sh: Shared) {
    forall t | IsCompleted(sh.log, t) ::
      Checks(sh.ctl, DispatchKey(cfg, t), t) && sh.ctl.commands[DispatchKey(cfg, t)].state == Completed
  }

  /** The task whose completion the request will log. */
  function Concludes(pc: Pc): Option<string> {
    match pc
    case InCheck(task, LogSettle(_, _)) => Some(task)
    case Notes(events, _, _) => if |events| == 1 && events[0].TaskCompleted? then Some(events[0].task) else None
    case _ => None
  }

  ghost predicate ConcludesApart(a: Pc, b: Pc) {
    Concludes(a).Some? && Concludes(b).Some? ==> Concludes(a) != Concludes(b)
  }

  ghost predicate ConcludesNew(cfg: Config, sh: Shared, pc: Pc) {
    Concludes(pc).Some? ==>
      && !IsCompleted(sh.log, Concludes(pc).value)
      && Checks(sh.ctl, DispatchKey(cfg, Concludes(pc).value), Concludes(pc).value)
      && sh.ctl.commands[DispatchKey(cfg, Concludes(pc).value)].state == Completed
  }

  ghost predicate OnceInv(cfg: Config, s: State) {
    && CompletedOnce(s.sh.log) && CompletionsKnown(cfg, s.sh)
    && (forall r | r in s.reqs :: ConcludesNew(cfg, s.sh, s.reqs[r]))
    && (forall r, q | r in s.reqs && q in s.reqs && r != q :: ConcludesApart(s.reqs[r], s.reqs[q]))
  }

  lemma ScrubCompletion(cfg: Config, sh: Shared, task: string)
    requires CtlOk(cfg, sh.ctl) && Checks(sh.ctl, DispatchKey(cfg, task), task)
    ensures Scrub(cfg, TaskCompleted(task)) == TaskCompleted(task)
  {
    assert FixedCommand(cfg, DispatchKey(cfg, task), sh.ctl.commands[DispatchKey(cfg, task)]);
  }

  /** Completions come from the request that concludes the task. */
  lemma CompletionBacked(cfg: Config, sh: Shared, pc: Pc, now: int)
    requires SmoothPc(cfg, sh.ctl, pc)
    ensures var op := OpOf(cfg, pc, now);
            op.Append? && op.e.TaskCompleted? ==> pc.Notes? && Concludes(pc) == Some(op.e.task)
  {
    match pc
    case Notes(events, _, _) =>
    case _ =>
  }

  lemma AppendCompletedOnce(log: seq<Event>, e: Event)
    requires CompletedOnce(log) && (e.TaskCompleted? ==> !IsCompleted(log, e.task))
    ensures CompletedOnce(log + [e])
  {
    var all := log + [e];
    forall i, j | 0 <= i < j < |all| && all[i].TaskCompleted? && all[j].TaskCompleted? ensures all[i].task != all[j].task {
      if j == |log| {
        assert all[i] in log;
        assert all[i] == TaskCompleted(all[i].task);
      }
    }
  }

  lemma EffectKeepsOnce(cfg: Config, sh: Shared, pc: Pc, ch: Choice)
    requires Global(cfg, sh) && SmoothPc(cfg, sh.ctl, pc) && ConcludesNew(cfg, sh, pc) && SmoothChoice(ch)
    requires CompletedOnce(sh.log) && CompletionsKnown(cfg, sh)
    ensures var next := Effect(cfg, sh, OpOf(cfg, pc, ch.now), ch).0;
            CompletedOnce(next.log) && CompletionsKnown(cfg, next)
  {
    hide Do, OpOf, Latest, CtlOk;
    var op := OpOf(cfg, pc, ch.now);
    var next := Effect(cfg, sh, op, ch).0;
    CompletionBacked(cfg, sh, pc, ch.now);
    EffectIsOnward(cfg, sh, op, ch);
    if op.Append? {
      if op.e.TaskCompleted? { ScrubCompletion(cfg, sh, op.e.task); }
      AppendCompletedOnce(sh.log, Scrub(cfg, op.e));
    }
  }

  /** Another request's completion stays its own. */
  lemma EffectKeepsConcluding(cfg: Config, sh: Shared, pc: Pc, ch: Choice, other: Pc)
    requires CtlOk(cfg, sh.ctl) && SmoothPc(cfg, sh.ctl, pc) && ConcludesNew(cfg, sh, pc)
    requires ConcludesNew(cfg, sh, other) && ConcludesApart(pc, other)
    ensures ConcludesNew(cfg, Effect(cfg, sh, OpOf(cfg, pc, ch.now), ch).0, other)
  {
    hide OpOf, Latest, RequestOnce;
    var op := OpOf(cfg, pc, ch.now);
    CompletionBacked(cfg, sh, pc, ch.now);
    EffectIsOnward(cfg, sh, op, ch);
    if op.Append? && op.e.TaskCompleted? { ScrubCompletion(cfg, sh, op.e.task); }
  }

  // ---- where a conclusion comes from

  lemma WalkConcludesNothing(cfg: Config, seen: seq<Event>, i: nat, cont: Cont)
    ensures Concludes(Walk(cfg, seen, i, cont)).None?
  {
    WalkStops(cfg, seen, i, cont);
  }

  lemma GotoConcludesNothing(cfg: Config, next: Next)
    ensures Concludes(Goto(cfg, next)).None?
  {
    if next.ToWalk? { WalkConcludesNothing(cfg, next.seen, next.i, next.cont); }
  }

  lemma OthersConcludeNothing(cfg: Config, pc: Pc, out: Outcome, ch: Choice)
    requires pc.Done? || pc.InPass? || pc.InJob? || pc.InDecision? || (pc.Notes? && |pc.events| == 1)
    ensures Concludes(After(cfg, pc, out, ch)).None?
  {
    match pc
    case Notes(events, next, abort) =>
      GotoConcludesNothing(cfg, next);
      GotoConcludesNothing(cfg, abort);
    case InPass(cont, pass) => if out.Events? { WalkConcludesNothing(cfg, out.events, 0, cont); }
    case InJob(job, stage) => JobConcludesNothing(cfg, job, stage, out);
    case InDecision(d, grant, decide) => DecideConcludesNothing(d, grant, decide, out, ch.now);
    case Done =>
  }

  lemma JobConcludesNothing(cfg: Config, job: Job, stage: JobStage, out: Outcome)
    ensures Concludes(AfterJob(cfg, job, stage, out)).None?
  {
    GotoConcludesNothing(cfg, Proceed(job));
    GotoConcludesNothing(cfg, Fail(job));
  }

  lemma DecideConcludesNothing(d: Digest, grant: bool, decide: DecideStage, out: Outcome, now: int)
    ensures Concludes(AfterDecide(d, grant, decide, out, now)).None?
  {
  }

  /** A conclusion is new when its command leaves polling, which only one request does. */
  ghost predicate ConclusionIsOwn(cfg: Config, sh: Shared, pc: Pc, next: Shared, pc': Pc) {
    Concludes(pc').Some? ==>
      && ConcludesNew(cfg, next, pc')
      && (Concludes(pc') == Concludes(pc)
          || (var k := DispatchKey(cfg, Concludes(pc').value); k in sh.ctl.commands && sh.ctl.commands[k].state == Polling))
  }

  lemma SettleConcludes(cfg: Config, sh: Shared, task: string, key: string, ch: Choice)
    requires Global(cfg, sh) && CommandsOfPlan(cfg, sh.ctl) && CompletionsKnown(cfg, sh)
    requires Local(cfg, sh, InCheck(task, Settle(key, Completed))) && Checks(sh.ctl, key, task)
    ensures var (next, out) := Effect(cfg, sh, CheckOp(Settle(key, Completed)), ch);
            ConclusionIsOwn(cfg, sh, InCheck(task, Settle(key, Completed)), next,
                            AfterCheck(cfg, task, Settle(key, Completed), out, ch.pick))
  {
    hide Do, Global;
    OfPlanIsKey(cfg, key, sh.ctl.commands[key]);
    MoveYieldsCopy(cfg, sh, key, Completed, ch);
  }

  lemma LogSettleConcludes(cfg: Config, sh: Shared, task: string, moved: Option<Command>, ch: Choice)
    requires ConcludesNew(cfg, sh, InCheck(task, LogSettle(Completed, moved))) && ch.appended
    ensures var (next, out) := Effect(cfg, sh, CheckOp(LogSettle(Completed, moved)), ch);
            ConclusionIsOwn(cfg, sh, InCheck(task, LogSettle(Completed, moved)), next,
                            AfterCheck(cfg, task, LogSettle(Completed, moved), out, ch.pick))
  {
  }

  lemma OtherChecksConcludeNothing(cfg: Config, task: string, check: CheckStage, out: Outcome, pick: string)
    requires !check.Settle? && !check.LogSettle?
    ensures Concludes(AfterCheck(cfg, task, check, out, pick)).None?
  {
  }

  lemma CheckConcludes(cfg: Config, sh: Shared, task: string, check: CheckStage, ch: Choice)
    requires Global(cfg, sh) && Local(cfg, sh, InCheck(task, check)) && CommandsOfPlan(cfg, sh.ctl) && CompletionsKnown(cfg, sh)
    requires SmoothCheck(sh.ctl, task, check) && SmoothChoice(ch) && ConcludesNew(cfg, sh, InCheck(task, check))
    ensures var (next, out) := Effect(cfg, sh, CheckOp(check), ch);
            ConclusionIsOwn(cfg, sh, InCheck(task, check), next, AfterCheck(cfg, task, check, out, ch.pick))
  {
    if check.Settle? {
      SettleConcludes(cfg, sh, task, check.key, ch);
    } else if check.LogSettle? {
      LogSettleConcludes(cfg, sh, task, check.moved, ch);
    } else {
      OtherChecksConcludeNothing(cfg, task, check, Effect(cfg, sh, CheckOp(check), ch).1, ch.pick);
    }
  }

  lemma PointConcludes(cfg: Config, sh: Shared, pc: Pc, ch: Choice)
    requires Global(cfg, sh) && Local(cfg, sh, pc) && CommandsOfPlan(cfg, sh.ctl) && CompletionsKnown(cfg, sh)
    requires SmoothPc(cfg, sh.ctl, pc) && SmoothChoice(ch) && ConcludesNew(cfg, sh, pc)
    ensures var (next, pc') := Act(cfg, sh, pc, ch);
            ConclusionIsOwn(cfg, sh, pc, next, pc')
  {
    if pc.InCheck? {
      CheckConcludes(cfg, sh, pc.task, pc.check, ch);
    } else {
      OthersConcludeNothing(cfg, pc, Effect(cfg, sh, OpOf(cfg, pc, ch.now), ch).1, ch);
    }
  }

  lemma AdvanceKeepsOnce(cfg: Config, s: State, r: nat, ch: Choice)
    requires Workable(cfg) && Inv(cfg, s) && SmoothInv(cfg, s) && OnceInv(cfg, s) && r in s.reqs && SmoothChoice(ch)
    ensures OnceInv(cfg, Do(cfg, s, Advance(r, ch)))
  {
    hide Effect, After, OpOf, CtlOk, Reboot;
    var pc := s.reqs[r];
    var (next, pc') := Act(cfg, s.sh, pc, ch);
    var t := Do(cfg, s, Advance(r, ch));
    assert t == State(next, s.reqs[r := pc']);
    assert Local(cfg, s.sh, pc);
    EffectKeepsOnce(cfg, s.sh, pc, ch);
    PointConcludes(cfg, s.sh, pc, ch);
    forall q | q in s.reqs && q != r
      ensures ConcludesNew(cfg, next, s.reqs[q]) && ConcludesApart(pc', s.reqs[q])
    {
      EffectKeepsConcluding(cfg, s.sh, pc, ch, s.reqs[q]);
    }
    forall a, b | a in t.reqs && b in t.reqs && a != b ensures ConcludesApart(t.reqs[a], t.reqs[b]) {
      assert a != r && b != r ==> ConcludesApart(s.reqs[a], s.reqs[b]);
    }
  }

  lemma StepKeepsOnce(cfg: Config, s: State, step: Step)
    requires Workable(cfg) && Inv(cfg, s) && SmoothInv(cfg, s) && OnceInv(cfg, s) && Smooth(step)
    ensures OnceInv(cfg, Do(cfg, s, step))
  {
    hide Effect, Inv, NewCommand;
    match step
    case Begin(r, request) => if Do(cfg, s, step) != s { assert Concludes(Entry(request)).None?; }
    case Advance(r, ch) => if r in s.reqs { AdvanceKeepsOnce(cfg, s, r, ch); }
    case Restart(_) =>
  }

  lemma {:induction false} OnceAlways(cfg: Config, steps: seq<Step>)
    requires Workable(cfg) && AllSmooth(steps)
    ensures OnceInv(cfg, Exec(cfg, steps))
    decreases |steps|
  {
    hide Do, Inv;
    if steps != [] {
      var rest := steps[..|steps| - 1];
      assert forall n | 0 <= n < |rest| :: rest[n] == steps[n];
      OnceAlways(cfg, rest);
      SmoothAlways(cfg, rest);
      StepKeepsOnce(cfg, Exec(cfg, rest), steps[|steps| - 1]);
    }
  }

  /** Without failures, controls and restarts, the log holds one completion per task. */
  lemma TaskCompletedOnce(cfg: Config, steps: seq<Step>, i: nat, j: nat)
    requires Workable(cfg) && AllSmooth(steps)
    requires var log := Exec(cfg, steps).sh.log;
             i < |log| && j < |log| && log[i].TaskCompleted? && log[j].TaskCompleted? && log[i].task == log[j].task
    ensures i == j
  {
    OnceAlways(cfg, steps);
  }

  // ---- the distance to the end

  ghost function Incomplete(cfg: Config, log: seq<Event>): set<nat> {
    set i: nat | 0 <= i < |cfg.plan| && !IsCompleted(log, cfg.plan[i].id)
  }

  ghost function Ungranted(cfg: Config, log: seq<Event>): set<nat> {
    set i: nat | 0 <= i < |cfg.plan| && cfg.plan[i].guarded && !IsGranted(log, DigestAt(cfg, i))
  }

  /** Tasks to complete and grants to give. */
  ghost function Remaining(cfg: Config, log: seq<Event>): nat {
    |Incomplete(cfg, log)| + |Ungranted(cfg, log)|
  }

  /** Requests for approval are for planned guarded tasks, as planned. */
  ghost predicate AsPlanned(cfg: Config, e: Event) {
    e.ApprovalRequested? && exists i: nat | i < |cfg.plan| ::
      && cfg.plan[i].guarded && e.task == cfg.plan[i].id && e.action == cfg.plan[i].action && e.digest == DigestAt(cfg, i)
      && e.scope == cfg.redact(cfg.plan[i].action.scope) && e.actors == ["local-owner"]
  }

  ghost predicate RequestsAsPlanned(cfg: Config, log: seq<Event>) {
    forall e | e in log && e.ApprovalRequested? :: AsPlanned(cfg, e)
  }

  ghost predicate AsksForGuarded(cfg: Config, pc: Pc) {
    pc.InPass? && pc.pass.Asking? ==> pc.pass.i < |cfg.plan| && cfg.plan[pc.pass.i].guarded
  }

  ghost predicate AskInv(cfg: Config, s: State) {
    RequestsAsPlanned(cfg, s.sh.log) && forall r | r in s.reqs :: AsksForGuarded(cfg, s.reqs[r])
  }

  lemma AppendAsPlanned(cfg: Config, sh: Shared, pc: Pc, ch: Choice)
    requires Workable(cfg) && Shaped(cfg, pc) && RequestsAsPlanned(cfg, sh.log) && AsksForGuarded(cfg, pc)
    ensures RequestsAsPlanned(cfg, Effect(cfg, sh, OpOf(cfg, pc, ch.now), ch).0.log)
  {
    var op := OpOf(cfg, pc, ch.now);
    if op.Append? && op.e.ApprovalRequested? {
      OnlyAskingAsks(cfg, pc, ch.now);
      var i := pc.pass.i;
      assert cfg.plan[i] in cfg.plan;
      assert AsPlanned(cfg, Scrub(cfg, op.e));
    }
  }

  lemma OnlyAskingAsks(cfg: Config, pc: Pc, now: int)
    requires Shaped(cfg, pc)
    ensures var op := OpOf(cfg, pc, now); op.Append? && op.e.ApprovalRequested? ==> pc.InPass? && pc.pass.Asking?
  {
    if pc.Notes? { assert pc.events != [] ==> pc.events[0] in pc.events; }
  }

  lemma WalkAsksNothing(cfg: Config, seen: seq<Event>, i: nat, cont: Cont)
    ensures !(Walk(cfg, seen, i, cont).InPass? && Walk(cfg, seen, i, cont).pass.Asking?)
  {
    WalkStops(cfg, seen, i, cont);
  }

  lemma GotoAsksNothing(cfg: Config, next: Next)
    ensures !(Goto(cfg, next).InPass? && Goto(cfg, next).pass.Asking?)
  {
    if next.ToWalk? { WalkAsksNothing(cfg, next.seen, next.i, next.cont); }
  }

  lemma PassAsksForGuarded(cfg: Config, cont: Cont, pass: PassStage, out: Outcome)
    requires PassOk(cfg, pass)
    ensures AsksForGuarded(cfg, AfterPass(cfg, cont, pass, out))
  {
    if out.Events? { WalkAsksNothing(cfg, out.events, 0, cont); }
  }

  lemma JobAsksForGuarded(cfg: Config, job: Job, stage: JobStage, out: Outcome)
    ensures AsksForGuarded(cfg, AfterJob(cfg, job, stage, out))
  {
    GotoAsksNothing(cfg, Proceed(job));
    GotoAsksNothing(cfg, Fail(job));
  }

  lemma PointAsksForGuarded(cfg: Config, sh: Shared, pc: Pc, ch: Choice)
    requires Shaped(cfg, pc)
    ensures AsksForGuarded(cfg, Act(cfg, sh, pc, ch).1)
  {
    var out := Effect(cfg, sh, OpOf(cfg, pc, ch.now), ch).1;
    match pc
    case Notes(events, next, abort) =>
      GotoAsksNothing(cfg, next);
      GotoAsksNothing(cfg, abort);
    case InPass(cont, pass) => PassAsksForGuarded(cfg, cont, pass, out);
    case InJob(job, stage) => JobAsksForGuarded(cfg, job, stage, out);
    case InCheck(task, check) =>
    case InDecision(d, grant, decide) => DecideAsksNothing(cfg, d, grant, decide, out, ch.now);
    case InReconcile(reconcile) =>
    case Done =>
  }

  lemma DecideAsksNothing(cfg: Config, d: Digest, grant: bool, decide: DecideStage, out: Outcome, now: int)
    ensures AsksForGuarded(cfg, AfterDecide(d, grant, decide, out, now))
  {
  }

  lemma StepKeepsAsks(cfg: Config, s: State, step: Step)
    requires Workable(cfg) && Inv(cfg, s) && AskInv(cfg, s)
    ensures AskInv(cfg, Do(cfg, s, step))
  {
    hide Exec, After, Global, Shaped;
    match step
    case Begin(r, request) => if Do(cfg, s, step) != s { assert AsksForGuarded(cfg, Entry(request)); }
    case Advance(r, ch) =>
      if r in s.reqs {
        assert Local(cfg, s.sh, s.reqs[r]);
        AppendAsPlanned(cfg, s.sh, s.reqs[r], ch);
        PointAsksForGuarded(cfg, s.sh, s.reqs[r], ch);
      }
    case Restart(_) =>
  }

  lemma {:induction false} AsksAlways(cfg: Config, steps: seq<Step>)
    requires Workable(cfg)
    ensures AskInv(cfg, Exec(cfg, steps))
    decreases |steps|
  {
    hide Do, Inv, Local, OwnedKey, LogAgrees;
    if steps != [] {
      var rest := steps[..|steps| - 1];
      AsksAlways(cfg, rest);
      InvAlways(cfg, rest);
      StepKeepsAsks(cfg, Exec(cfg, rest), steps[|steps| - 1]);
    }
  }

  lemma StrictlyFewer(a: set<nat>, b: set<nat>, x: nat)
    requires a <= b && x in b && x !in a
    ensures |a| < |b|
  {
    Sequences.SubsetIsSmaller(a, b - {x});
  }

  lemma FewerLeft(cfg: Config, log: seq<Event>, more: seq<Event>)
    requires log <= more
    ensures Incomplete(cfg, more) <= Incomplete(cfg, log) && Ungranted(cfg, more) <= Ungranted(cfg, log)
    ensures |Incomplete(cfg, more)| <= |Incomplete(cfg, log)| && |Ungranted(cfg, more)| <= |Ungranted(cfg, log)|
  {
    forall i: nat | i in Incomplete(cfg, more) ensures i in Incomplete(cfg, log) {}
    forall i: nat | i in Ungranted(cfg, more) ensures i in Ungranted(cfg, log) {}
    Sequences.SubsetIsSmaller(Incomplete(cfg, more), Incomplete(cfg, log));
    Sequences.SubsetIsSmaller(Ungranted(cfg, more), Ungranted(cfg, log));
  }

  lemma CompletionCounts(cfg: Config, log: seq<Event>, i: nat)
    requires i < |cfg.plan| && !IsCompleted(log, cfg.plan[i].id)
    ensures Remaining(cfg, log + [TaskCompleted(cfg.plan[i].id)]) < Remaining(cfg, log)
  {
    var e := TaskCompleted(cfg.plan[i].id);
    FewerLeft(cfg, log, log + [e]);
    assert e in log + [e];
    StrictlyFewer(Incomplete(cfg, log + [e]), Incomplete(cfg, log), i);
  }

  lemma GrantCounts(cfg: Config, log: seq<Event>, i: nat)
    requires i < |cfg.plan| && cfg.plan[i].guarded && !IsGranted(log, DigestAt(cfg, i))
    ensures Remaining(cfg, log + [ApprovalDecided(DigestAt(cfg, i), true)]) < Remaining(cfg, log)
  {
    var e := ApprovalDecided(DigestAt(cfg, i), true);
    FewerLeft(cfg, log, log + [e]);
    assert e in log + [e];
    StrictlyFewer(Ungranted(cfg, log + [e]), Ungranted(cfg, log), i);
  }

  lemma CompletionIsPlanned(cfg: Config, sh: Shared, pc: Pc) returns (i: nat)
    requires CommandsOfPlan(cfg, sh.ctl) && ConcludesNew(cfg, sh, pc) && Concludes(pc).Some?
    ensures i < |cfg.plan| && cfg.plan[i].id == Concludes(pc).value && !IsCompleted(sh.log, cfg.plan[i].id)
  {
    var k := DispatchKey(cfg, Concludes(pc).value);
    assert OfPlan(cfg, k, sh.ctl.commands[k]);
    i :| i < |cfg.plan| && k == KeyAt(cfg, i) && sh.ctl.commands[k].task == cfg.plan[i].id;
  }

  lemma LoggedCompletionCounts(cfg: Config, sh: Shared, pc: Pc, ch: Choice)
    requires CtlOk(cfg, sh.ctl) && CommandsOfPlan(cfg, sh.ctl) && SmoothPc(cfg, sh.ctl, pc) && ConcludesNew(cfg, sh, pc)
    requires var op := OpOf(cfg, pc, ch.now); op.Append? && op.e.TaskCompleted? && ch.appended
    ensures Remaining(cfg, Effect(cfg, sh, OpOf(cfg, pc, ch.now), ch).0.log) < Remaining(cfg, sh.log)
  {
    hide OpOf, RequestOnce, CtlOk;
    var op := OpOf(cfg, pc, ch.now);
    CompletionBacked(cfg, sh, pc, ch.now);
    ScrubCompletion(cfg, sh, op.e.task);
    var i := CompletionIsPlanned(cfg, sh, pc);
    CompletionCounts(cfg, sh.log, i);
  }

  lemma GrantIsPlanned(cfg: Config, sh: Shared, d: Digest) returns (i: nat)
    requires RequestsAsPlanned(cfg, sh.log) && ApprovalSafety.Asked(sh.log, d)
    ensures i < |cfg.plan| && cfg.plan[i].guarded && DigestAt(cfg, i) == d
  {
    var n :| 0 <= n < |sh.log| && ApprovalSafety.Asks(sh.log[n], d);
    assert sh.log[n] in sh.log;
    i :| i < |cfg.plan| && cfg.plan[i].guarded && sh.log[n].digest == DigestAt(cfg, i);
  }

  lemma LoggedGrantCounts(cfg: Config, sh: Shared, pc: Pc, ch: Choice)
    requires RequestsAsPlanned(cfg, sh.log) && ApprovalSafety.DecisionLocal(sh, pc)
    requires Shaped(cfg, pc) && SmoothPc(cfg, sh.ctl, pc)
    requires var op := OpOf(cfg, pc, ch.now); op.Append? && op.e.ApprovalDecided? && ch.appended
    ensures Remaining(cfg, Effect(cfg, sh, OpOf(cfg, pc, ch.now), ch).0.log) < Remaining(cfg, sh.log)
  {
    var op := OpOf(cfg, pc, ch.now);
    ApprovalSafety.OpDecisionBacked(cfg, pc, ch.now);
    var i := GrantIsPlanned(cfg, sh, op.e.digest);
    assert op.e == ApprovalDecided(DigestAt(cfg, i), true);
    GrantCounts(cfg, sh.log, i);
  }

  /** Nothing is further away than before. */
  lemma StepRemaining(cfg: Config, s: State, r: nat, ch: Choice)
    requires Inv(cfg, s) && SmoothInv(cfg, s) && OnceInv(cfg, s) && ApprovalSafety.DecisionInv(cfg, s) && AskInv(cfg, s)
    requires r in s.reqs && SmoothChoice(ch)
    ensures var (op, next) := (OpOf(cfg, s.reqs[r], ch.now), Effect(cfg, s.sh, OpOf(cfg, s.reqs[r], ch.now), ch).0);
            && Remaining(cfg, next.log) <= Remaining(cfg, s.sh.log)
            && (op.Append? && Matters(op.e) ==> Remaining(cfg, next.log) < Remaining(cfg, s.sh.log))
  {
    var pc := s.reqs[r];
    var op := OpOf(cfg, pc, ch.now);
    assert Local(cfg, s.sh, pc) && ConcludesNew(cfg, s.sh, pc) && ApprovalSafety.DecisionLocal(s.sh, pc);
    EffectGrowsLog(cfg, s.sh, op, ch);
    FewerLeft(cfg, s.sh.log, Effect(cfg, s.sh, op, ch).0.log);
    if op.Append? && op.e.TaskCompleted? {
      LoggedCompletionCounts(cfg, s.sh, pc, ch);
    } else if op.Append? && op.e.ApprovalDecided? {
      LoggedGrantCounts(cfg, s.sh, pc, ch);
    }
  }

  ghost predicate FullInv(cfg: Config, s: State) {
    && Inv(cfg, s) && ScheduleInv(cfg, s) && SmoothInv(cfg, s) && LiveInv(cfg, s)
    && OnceInv(cfg, s) && ApprovalSafety.DecisionInv(cfg, s) && AskInv(cfg, s)
  }

  lemma FullInvAlways(cfg: Config, steps: seq<Step>)
    requires Workable(cfg) && AllSmooth(steps)
    ensures FullInv(cfg, Exec(cfg, steps))
  {
    hide Do, Inv;
    SmoothAlways(cfg, steps);
    LiveAlways(cfg, steps);
    OnceAlways(cfg, steps);
    AsksAlways(cfg, steps);
    ApprovalSafety.DecisionInvAlways(cfg, steps);
  }

  lemma LoggedEventMatters(cfg: Config, sh: Shared, op: Op, ch: Choice)
    ensures var next := Effect(cfg, sh, op, ch).0;
            next.log != sh.log && Matters(next.log[|next.log| - 1]) ==> op.Append? && Matters(op.e)
  {
  }

  /** `after` is no further from the end than `before`, and closer when what was logged last is a completion or a grant. */
  ghost predicate NoFurther(cfg: Config, before: seq<Event>, after: seq<Event>) {
    && Remaining(cfg, after) <= Remaining(cfg, before)
    && (after != before && after != [] && Matters(after[|after| - 1]) ==> Remaining(cfg, after) < Remaining(cfg, before))
  }

  lemma AdvanceIsNoFurther(cfg: Config, s: State, r: nat, ch: Choice)
    requires Inv(cfg, s) && SmoothInv(cfg, s) && OnceInv(cfg, s) && ApprovalSafety.DecisionInv(cfg, s) && AskInv(cfg, s)
    requires r in s.reqs && SmoothChoice(ch)
    ensures NoFurther(cfg, s.sh.log, Effect(cfg, s.sh, OpOf(cfg, s.reqs[r], ch.now), ch).0.log)
  {
    StepRemaining(cfg, s, r, ch);
    LoggedEventMatters(cfg, s.sh, OpOf(cfg, s.reqs[r], ch.now), ch);
  }

  lemma StepIsNoFurther(cfg: Config, s: State, step: Step)
    requires FullInv(cfg, s) && Smooth(step)
    ensures NoFurther(cfg, s.sh.log, Do(cfg, s, step).sh.log)
  {
    hide After, Reboot, Inv;
    match step
    case Begin(_, _) =>
    case Advance(r, ch) => if r in s.reqs { AdvanceIsNoFurther(cfg, s, r, ch); }
    case Restart(_) =>
  }

  /** Over every run in which nothing fails: a step that logs a completion or a grant brings the run strictly closer to its
      end, and no step takes it further away. */
  lemma EveryResultCounts(cfg: Config, steps: seq<Step>, step: Step)
    requires Workable(cfg) && AllSmooth(steps) && Smooth(step)
    ensures NoFurther(cfg, Exec(cfg, steps).sh.log, Do(cfg, Exec(cfg, steps), step).sh.log)
  {
    hide Do, Inv;
    FullInvAlways(cfg, steps);
    StepIsNoFurther(cfg, Exec(cfg, steps), step);
  }
}
