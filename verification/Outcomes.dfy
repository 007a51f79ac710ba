/** What becomes of answers: a command is moved to what the adapter said of it, whatever else goes on, and the lines that are
    due on what a request met stand in the log, in their order, when it is done and its appends went through. */
module Outcomes {
  import opened Model
  import opened Control
  import opened Actions
  import opened Protocol
  import opened Duties
  import opened DutyLaw
  import opened CommandSafety
  import opened Causes
  import opened CommandCauses
  import opened Traces

  // ---- lines stand in the log in the order in which they were written

  function LinesIn(ds: seq<Deed>): seq<Line> {
    if ds == [] then [] else LinesIn(ds[..|ds| - 1]) + if ds[|ds| - 1].Logs? then [ds[|ds| - 1].line] else []
  }

  /** `at` says where each line stands. */
  predicate Stand(at: seq<int>, lines: seq<Line>, log: seq<Event>) {
    && |at| == |lines|
    && (forall i | 0 <= i < |at| :: 0 <= at[i] < |log| && LineOf(log[at[i]]) == lines[i])
    && (forall i, j | 0 <= i < j < |at| :: at[i] < at[j])
  }

  ghost predicate InOrder(lines: seq<Line>, log: seq<Event>) {
    exists at :: Stand(at, lines, log)
  }

  lemma {:induction false} LinesInTwo(a: seq<Deed>, b: seq<Deed>)
    ensures LinesIn(a + b) == LinesIn(a) + LinesIn(b)
    decreases |b|
  {
    if b == [] {
      assert a + b == a;
    } else {
      LinesInTwo(a, b[..|b| - 1]);
      assert (a + b)[..|a + b| - 1] == a + b[..|b| - 1];
    }
  }

  lemma OneLine(d: Deed)
    ensures LinesIn([d]) == if d.Logs? then [d.line] else []
  {
    assert [d][..0] == [];
  }

  lemma InOrderAppend(lines: seq<Line>, log: seq<Event>, e: Event)
    requires InOrder(lines, log)
    ensures InOrder(lines, log + [e]) && InOrder(lines + [LineOf(e)], log + [e])
  {
    hide LineOf;
    var at :| Stand(at, lines, log);
    assert Stand(at, lines, log + [e]);
    assert Stand(at + [|log|], lines + [LineOf(e)], log + [e]);
  }

  lemma InOrderPart(a: seq<Line>, b: seq<Line>, c: seq<Line>, log: seq<Event>)
    requires InOrder(a + b + c, log)
    ensures InOrder(b, log)
  {
    hide LineOf;
    var at :| Stand(at, a + b + c, log);
    var part := at[|a|..|a| + |b|];
    forall i | 0 <= i < |part| ensures 0 <= part[i] < |log| && LineOf(log[part[i]]) == b[i] { assert part[i] == at[|a| + i]; }
    assert Stand(part, b, log);
  }

  ghost predicate WrittenInv(s: State, book: map<nat, Record>) {
    book.Keys == s.reqs.Keys && forall r | r in book :: InOrder(LinesIn(book[r].done), s.sh.log)
  }

  lemma NoLines(log: seq<Event>)
    ensures InOrder(LinesIn([]), log)
  {
    assert Stand([], [], log);
  }

  /** The line is the one that is added to the log, if one is. */
  ghost predicate Adds(log: seq<Event>, next: seq<Event>, ds: seq<Deed>) {
    || (next == log && LinesIn(ds) == [])
    || (|next| == |log| + 1 && next == log + [next[|log|]] && LinesIn(ds) == [LineOf(next[|log|])])
  }

  lemma OpAdds(cfg: Config, sh: Shared, op: Op, ch: Choice)
    ensures Adds(sh.log, Effect(cfg, sh, op, ch).0.log, DeedOf(cfg, op, ch.appended))
  {
    hide LineOf, Scrub, AfterReport, AfterRefusal, RequestOnce, Rotate, Transition, Commit, EmergencyStop;
    var ds := DeedOf(cfg, op, ch.appended);
    if ds != [] {
      assert ds == [ds[0]];
      OneLine(ds[0]);
    }
  }

  lemma StepAdds(cfg: Config, sh: Shared, pc: Pc, ch: Choice)
    ensures Adds(sh.log, Act(cfg, sh, pc, ch).0.log, Deeds(cfg, pc, ch))
  {
    hide After, DeedOf, JobOp, CheckOp, DecideOp, Scrub, AfterReport, AfterRefusal;
    OpAdds(cfg, sh, OpOf(cfg, pc, ch.now), ch);
    match pc
    case InPass(cont, Reading) => OneLine(Schedules(cont));
    case InReconcile(Survey(applied)) => OneLine(Surveys(applied));
    case Notes(events, next, _) =>
      var ds := DeedOf(cfg, OpOf(cfg, pc, ch.now), ch.appended);
      LinesInTwo(ds, Handing(next));
      LinesInTwo(ds, []);
      if next.ToWalk? { OneLine(Handing(next)[0]); }
    case _ =>
  }

  lemma AdvanceWrites(cfg: Config, s: State, r: nat, ch: Choice, book: map<nat, Record>)
    requires WrittenInv(s, book) && r in s.reqs
    ensures WrittenInv(Do(cfg, s, Advance(r, ch)), book[r := Recorded(cfg, s.sh, s.reqs[r], ch, book[r])])
  {
    hide Act, Deeds, Meets, Cut, InOrder, LineOf, LinesIn;
    var log, next := s.sh.log, Act(cfg, s.sh, s.reqs[r], ch).0.log;
    StepAdds(cfg, s.sh, s.reqs[r], ch);
    LinesInTwo(book[r].done, Deeds(cfg, s.reqs[r], ch));
    forall q | q in book ensures InOrder(LinesIn(book[q].done), next) {
      if next != log { InOrderAppend(LinesIn(book[q].done), log, next[|log|]); }
    }
    if next != log {
      InOrderAppend(LinesIn(book[r].done), log, next[|log|]);
    } else {
      assert LinesIn(book[r].done) + [] == LinesIn(book[r].done);
    }
  }

  lemma {:induction false} WrittenAlways(cfg: Config, steps: seq<Step>)
    ensures WrittenInv(Exec(cfg, steps), Book(cfg, steps))
    decreases |steps|
  {
    hide Act, Recorded, Entry, Due, Reboot, Admissible, InOrder;
    if steps == [] {
      NoLines([]);
    } else {
      var rest, last := steps[..|steps| - 1], steps[|steps| - 1];
      WrittenAlways(cfg, rest);
      var s := Exec(cfg, rest);
      match last
      case Begin(r, request) => NoLines(s.sh.log);
      case Advance(r, ch) => if r in s.reqs { AdvanceWrites(cfg, s, r, ch, Book(cfg, rest)); }
      case Restart(_) =>
    }
  }

  lemma {:induction false} DueIsPart(cfg: Config, met: seq<Fact>, i: nat) returns (before: seq<Deed>, after: seq<Deed>)
    requires i < |met|
    ensures AllDue(cfg, met) == before + Due(cfg, met[i]) + after
    decreases |met|
  {
    hide Due;
    if i == |met| - 1 {
      before, after := AllDue(cfg, met[..i]), [];
    } else {
      var rest := met[..|met| - 1];
      before, after := DueIsPart(cfg, rest, i);
      after := after + Due(cfg, met[|met| - 1]);
    }
  }

  /** A request that is done, and none of whose appends failed, has logged what was due on everything it met. */
  lemma DoneIsLogged(cfg: Config, steps: seq<Step>, r: nat, fact: Fact)
    requires r in Exec(cfg, steps).reqs && Exec(cfg, steps).reqs[r].Done?
    requires r in Book(cfg, steps) && Book(cfg, steps)[r].whole && fact in Book(cfg, steps)[r].met
    ensures InOrder(LinesIn(Due(cfg, fact)), Exec(cfg, steps).sh.log)
  {
    hide Due, Exec, Book, InOrder, AllDue;
    RequestsDoWhatIsDue(cfg, steps, r);
    WrittenAlways(cfg, steps);
    var record := Book(cfg, steps)[r];
    var i :| 0 <= i < |record.met| && record.met[i] == fact;
    var before, after := DueIsPart(cfg, record.met, i);
    LinesInTwo(before + Due(cfg, fact), after);
    LinesInTwo(before, Due(cfg, fact));
    InOrderPart(LinesIn(before), LinesIn(Due(cfg, fact)), LinesIn(after), Exec(cfg, steps).sh.log);
  }

  // ---- while appends work nothing is cut off

  predicate AppendsWork(steps: seq<Step>) {
    forall n | 0 <= n < |steps| && steps[n].Advance? :: steps[n].ch.appended
  }

  /** A command whose token is about to be issued is there, and of the task it was created for. */
  predicate Issuable(cfg: Config, ctl: Ctl, pc: Pc) {
    pc.InJob? && pc.stage.Rotating? ==>
      JobKey(cfg, pc.job) in ctl.commands && ctl.commands[JobKey(cfg, pc.job)].task == JobTask(cfg, pc.job)
  }

  ghost predicate WholeInv(cfg: Config, s: State, book: map<nat, Record>) {
    && book.Keys == s.reqs.Keys
    && forall r | r in s.reqs :: book[r].whole && Issuable(cfg, s.sh.ctl, s.reqs[r])
  }

  lemma JobIssues(cfg: Config, sh: Shared, job: Job, stage: JobStage, ch: Choice)
    ensures var (next, pc) := Act(cfg, sh, InJob(job, stage), ch);
            Issuable(cfg, next.ctl, pc)
  {
    hide Goto, Scrub, AfterReport, AfterRefusal;
    GotoIssuesNothing(cfg, Proceed(job));
    GotoIssuesNothing(cfg, Fail(job));
  }

  lemma GotoIssuesNothing(cfg: Config, next: Next)
    ensures Goto(cfg, next).InJob? ==> !Goto(cfg, next).stage.Rotating?
  {
    if next.ToWalk? { WalkStops(cfg, next.seen, next.i, next.cont); }
  }

  lemma OthersIssueNothing(cfg: Config, pc: Pc, out: Outcome, ch: Choice)
    requires !pc.InJob?
    ensures After(cfg, pc, out, ch).InJob? ==> !After(cfg, pc, out, ch).stage.Rotating?
  {
    match pc
    case Notes(events, next, abort) =>
      GotoIssuesNothing(cfg, next);
      GotoIssuesNothing(cfg, abort);
    case InPass(cont, pass) => if out.Events? { WalkStops(cfg, out.events, 0, cont); }
    case InDecision(d, grant, decide) => DecisionIssuesNothing(d, grant, decide, out, ch.now);
    case _ =>
  }

  lemma DecisionIssuesNothing(d: Digest, grant: bool, decide: DecideStage, out: Outcome, now: int)
    ensures !AfterDecide(d, grant, decide, out, now).InJob?
  {
  }

  lemma PointIssues(cfg: Config, sh: Shared, pc: Pc, ch: Choice)
    ensures var (next, pc') := Act(cfg, sh, pc, ch);
            Issuable(cfg, next.ctl, pc')
  {
    hide Effect, After, OpOf, Issuable;
    if pc.InJob? {
      JobIssues(cfg, sh, pc.job, pc.stage, ch);
    } else {
      OthersIssueNothing(cfg, pc, Effect(cfg, sh, OpOf(cfg, pc, ch.now), ch).1, ch);
      NothingToIssue(cfg, Act(cfg, sh, pc, ch).0.ctl, Act(cfg, sh, pc, ch).1);
    }
  }

  lemma NothingToIssue(cfg: Config, ctl: Ctl, pc: Pc)
    requires pc.InJob? ==> !pc.stage.Rotating?
    ensures Issuable(cfg, ctl, pc)
  {
  }

  lemma OthersStayIssuable(cfg: Config, sh: Shared, op: Op, ch: Choice, other: Pc)
    requires CtlOk(cfg, sh.ctl) && Issuable(cfg, sh.ctl, other)
    ensures Issuable(cfg, Effect(cfg, sh, op, ch).0.ctl, other)
  {
    hide Effect, JobKey, JobTask;
    if other.InJob? && other.stage.Rotating? {
      EffectKeepsCommands(cfg, sh, op, ch, JobKey(cfg, other.job));
      EffectChanges(cfg, sh, op, ch, JobKey(cfg, other.job));
    }
  }

  lemma EffectKeepsCommands(cfg: Config, sh: Shared, op: Op, ch: Choice, k: string)
    ensures k in sh.ctl.commands ==> k in Effect(cfg, sh, op, ch).0.ctl.commands
  {
    hide Scrub, AfterReport, AfterRefusal;
  }

  lemma AdvanceKeepsWhole(cfg: Config, s: State, r: nat, ch: Choice, book: map<nat, Record>)
    requires GoodConfig(cfg) && Inv(cfg, s) && WholeInv(cfg, s, book) && r in s.reqs && ch.appended
    ensures WholeInv(cfg, Do(cfg, s, Advance(r, ch)), book[r := Recorded(cfg, s.sh, s.reqs[r], ch, book[r])])
  {
    hide Effect, After, OpOf, Meets, Deeds, Local, Issuable;
    PointIssues(cfg, s.sh, s.reqs[r], ch);
    assert !Cut(cfg, s.sh, s.reqs[r], ch) by { IssuableIsNotCut(cfg, s.sh, s.reqs[r], ch); }
    forall q | q in s.reqs && q != r ensures Issuable(cfg, Act(cfg, s.sh, s.reqs[r], ch).0.ctl, s.reqs[q]) {
      OthersStayIssuable(cfg, s.sh, OpOf(cfg, s.reqs[r], ch.now), ch, s.reqs[q]);
    }
  }

  lemma IssuableIsNotCut(cfg: Config, sh: Shared, pc: Pc, ch: Choice)
    requires Issuable(cfg, sh.ctl, pc) && ch.appended
    ensures !Cut(cfg, sh, pc, ch)
  {
    hide JobKey, JobTask;
  }

  /** As long as every append goes through, no request leaves anything undone. */
  lemma {:induction false} WholeWhileAppendsWork(cfg: Config, steps: seq<Step>)
    requires GoodConfig(cfg) && AppendsWork(steps)
    ensures WholeInv(cfg, Exec(cfg, steps), Book(cfg, steps))
    decreases |steps|
  {
    hide Act, Recorded, Due, Reboot, Admissible, Inv;
    if steps != [] {
      var rest, last := steps[..|steps| - 1], steps[|steps| - 1];
      assert forall n | 0 <= n < |rest| :: rest[n] == steps[n];
      WholeWhileAppendsWork(cfg, rest);
      InvAlways(cfg, rest);
      var s := Exec(cfg, rest);
      match last
      case Begin(r, request) =>
      case Advance(r, ch) => if r in s.reqs { AdvanceKeepsWhole(cfg, s, r, ch, Book(cfg, rest)); }
      case Restart(_) =>
    }
  }

  // ---- what is logged of answers, replies and reconciliations

  lemma TwoLines(a: Deed, b: Deed)
    ensures LinesIn([a, b]) == (if a.Logs? then [a.line] else []) + (if b.Logs? then [b.line] else [])
  {
    LinesInTwo([a], [b]);
    OneLine(a);
    OneLine(b);
    assert [a, b] == [a] + [b];
  }

  ghost predicate SaysThen(log: seq<Event>, first: Event, second: Event) {
    exists i, j | 0 <= i < j < |log| :: log[i] == first && log[j] == second
  }

  lemma TwoInOrder(lines: seq<Line>, log: seq<Event>, i: nat, e: Event, f: Event)
    requires InOrder(lines, log) && i + 1 < |lines| && lines[i] == Says(e) && lines[i + 1] == Says(f)
    ensures SaysThen(log, e, f)
  {
    var at :| Stand(at, lines, log);
    assert log[at[i]] == e && log[at[i + 1]] == f && at[i] < at[i + 1];
  }

  lemma AnswerLines(cfg: Config, task: string, key: string, result: Observation)
    ensures var lines := LinesIn(AnswerDue(cfg, task, key, result));
            match result
            case ResultCompleted =>
              lines == [Report(ByCommand, Dispatch, Completed), Says(TaskCompleted(cfg.redact(task)))]
            case ResultFailed =>
              lines == [Report(ByCommand, Dispatch, Failed), Says(Note(TaskFailed, cfg.redact(task))),
                        Says(Note(DispatchFailed, cfg.redact("")))]
            case ResultCancelled =>
              lines == [Report(ByCommand, Dispatch, Cancelled), Says(Note(TaskCancelled, cfg.redact(task))),
                        Says(Note(DispatchCancelled, cfg.redact("")))]
            case NoResult => lines == []
  {
    hide LinesIn;
    var due := AnswerDue(cfg, task, key, result);
    if result.NoResult? {
      OneLine(due[0]);
    } else {
      TwoLines(due[0], due[1]);
      TwoLines(due[2], due[3]);
      LinesInTwo([due[0], due[1]], [due[2], due[3]]);
      assert due == [due[0], due[1]] + [due[2], due[3]];
    }
  }

  /** A result check that is done, and whose appends went through, has logged what it was told: the completion of the task; or
      its failure and then the run's; or its cancellation and then the run's. */
  lemma AnswersAreLogged(cfg: Config, steps: seq<Step>, r: nat, task: string, key: string, result: Observation)
    requires r in Exec(cfg, steps).reqs && Exec(cfg, steps).reqs[r].Done?
    requires r in Book(cfg, steps) && Book(cfg, steps)[r].whole && Answer(task, key, result) in Book(cfg, steps)[r].met
    ensures var log := Exec(cfg, steps).sh.log;
            match result
            case ResultCompleted => TaskCompleted(cfg.redact(task)) in log
            case ResultFailed => SaysThen(log, Note(TaskFailed, cfg.redact(task)), Note(DispatchFailed, cfg.redact("")))
            case ResultCancelled =>
              SaysThen(log, Note(TaskCancelled, cfg.redact(task)), Note(DispatchCancelled, cfg.redact("")))
            case NoResult => true
  {
    hide Exec, Book, LinesIn, AnswerDue;
    var log, fact := Exec(cfg, steps).sh.log, Answer(task, key, result);
    DoneIsLogged(cfg, steps, r, fact);
    AnswerLines(cfg, task, key, result);
    var lines := LinesIn(AnswerDue(cfg, task, key, result));
    assert InOrder(lines, log);
    match result
    case ResultCompleted =>
      var at :| Stand(at, lines, log);
      assert log[at[1]] == TaskCompleted(cfg.redact(task));
    case ResultFailed => TwoInOrder(lines, log, 1, lines[1].e, lines[2].e);
    case ResultCancelled => TwoInOrder(lines, log, 1, lines[1].e, lines[2].e);
    case NoResult =>
  }

  lemma ResolvedLines(cfg: Config, task: string, disposition: Disposition)
    ensures LinesIn(ResolvedDue(cfg, task, disposition)) ==
            [Says(Note(ReconciliationCompleted, cfg.redact(""))),
             Says(if disposition == Applied then TaskCompleted(cfg.redact(task)) else Note(RetryAllowed, cfg.redact(task)))]
  {
    var due := ResolvedDue(cfg, task, disposition);
    hide LinesIn;
    TwoLines(due[0], due[1]);
    OneLine(due[2]);
    LinesInTwo([due[0], due[1]], [due[2]]);
    assert due == [due[0], due[1]] + [due[2]];
  }

  /** A reconciliation that is done, and whose appends went through, has logged its completion and then, of its command's task,
      that it is completed if the effect was applied, and that it may be retried if not. */
  lemma ReconciliationsAreLogged(cfg: Config, steps: seq<Step>, r: nat, key: string, task: string, disposition: Disposition)
    requires r in Exec(cfg, steps).reqs && Exec(cfg, steps).reqs[r].Done?
    requires r in Book(cfg, steps) && Book(cfg, steps)[r].whole && Resolved(key, task, disposition) in Book(cfg, steps)[r].met
    ensures SaysThen(Exec(cfg, steps).sh.log, Note(ReconciliationCompleted, cfg.redact("")),
                     if disposition == Applied then TaskCompleted(cfg.redact(task)) else Note(RetryAllowed, cfg.redact(task)))
  {
    hide Exec, Book, LinesIn, ResolvedDue;
    DoneIsLogged(cfg, steps, r, Resolved(key, task, disposition));
    ResolvedLines(cfg, task, disposition);
    var lines := LinesIn(ResolvedDue(cfg, task, disposition));
    TwoInOrder(lines, Exec(cfg, steps).sh.log, 0, lines[0].e, lines[1].e);
  }

  /** The note that goes with the outcome of a dispatch. */
  function MarkNote(cfg: Config, job: Job, to: CommandState): Event {
    if to == Acknowledged then Note(TaskDelegated, cfg.redact(JobTask(cfg, job)))
    else Note(if to == Failed then DispatchFailed else DispatchInterrupted, cfg.redact(""))
  }

  function ReplyState(reply: Reply): CommandState {
    match reply
    case Accepted => Acknowledged
    case Refused => Failed
    case Unknown => OutcomeUnknown
  }

  lemma MarkLines(cfg: Config, job: Job, to: CommandState)
    requires job.DispatchJob? && (to == Acknowledged || to == Failed || to == OutcomeUnknown)
    ensures LinesIn(Marks(cfg, job, to)) == [Report(ByCommand, Dispatch, to), Says(MarkNote(cfg, job, to))]
  {
    hide LinesIn;
    var due := Marks(cfg, job, to);
    TwoLines(due[0], due[1]);
    TwoLines(due[2], due[3]);
    LinesInTwo([due[0], due[1]], [due[2], due[3]]);
    assert due == [due[0], due[1]] + [due[2], due[3]];
  }

  lemma ReplyLines(cfg: Config, job: Job, reply: Reply)
    requires job.DispatchJob?
    ensures LinesIn(ReplyDue(cfg, job, reply)) == 
            [Report(ByCommand, Dispatch, ReplyState(reply)), Says(MarkNote(cfg, job, ReplyState(reply)))]
  {
    hide Marks, LinesIn;
    MarkLines(cfg, job, ReplyState(reply));
    if reply == Unknown {
      LinesInTwo([Moves(JobKey(cfg, job), Acknowledged)], Marks(cfg, job, OutcomeUnknown));
      OneLine(Moves(JobKey(cfg, job), Acknowledged));
    }
  }

  /** A request that has asked an adapter to dispatch a task, is done, and whose appends went through, has logged the outcome
      and then, for a refusal, that the run failed, for a lost reply, that it is interrupted, and otherwise the delegation. */
  lemma RepliesAreLogged(cfg: Config, steps: seq<Step>, r: nat, job: Job, reply: Reply)
    requires r in Exec(cfg, steps).reqs && Exec(cfg, steps).reqs[r].Done?
    requires r in Book(cfg, steps) && Book(cfg, steps)[r].whole && ReplyTo(job, reply) in Book(cfg, steps)[r].met
    requires job.DispatchJob?
    ensures exists i, j | 0 <= i < j < |Exec(cfg, steps).sh.log| ::
              var log := Exec(cfg, steps).sh.log;
              LineOf(log[i]) == Report(ByCommand, Dispatch, ReplyState(reply)) && log[j] == MarkNote(cfg, job, ReplyState(reply))
  {
    hide Exec, Book, LinesIn, ReplyDue;
    var log := Exec(cfg, steps).sh.log;
    DoneIsLogged(cfg, steps, r, ReplyTo(job, reply));
    ReplyLines(cfg, job, reply);
    var at :| Stand(at, LinesIn(ReplyDue(cfg, job, reply)), log);
    assert LineOf(log[at[0]]) == Report(ByCommand, Dispatch, ReplyState(reply));
    assert log[at[1]] == MarkNote(cfg, job, ReplyState(reply));
  }

  // ---- what becomes of the command

  /** No step of the request, and no restart. */
  predicate Leaves(steps: seq<Step>, r: nat) {
    forall n | 0 <= n < |steps| :: !steps[n].Restart? && !(steps[n].Advance? && steps[n].r == r)
  }

  predicate NoRestart(steps: seq<Step>) {
    forall n | 0 <= n < |steps| :: !steps[n].Restart?
  }

  lemma {:induction false} PcStays(cfg: Config, steps: seq<Step>, others: seq<Step>, r: nat)
    requires r in Exec(cfg, steps).reqs && !Exec(cfg, steps).reqs[r].Done? && Leaves(others, r)
    ensures r in Exec(cfg, steps + others).reqs && Exec(cfg, steps + others).reqs[r] == Exec(cfg, steps).reqs[r]
    decreases |others|
  {
    hide Exec, Act, Entry, Admissible;
    if others == [] {
      assert steps + others == steps;
    } else {
      var rest, last := others[..|others| - 1], others[|others| - 1];
      assert forall n | 0 <= n < |rest| :: rest[n] == others[n];
      PcStays(cfg, steps, rest, r);
      ExecAfter(cfg, steps + rest, last);
      assert steps + others == steps + rest + [last];
    }
  }

  predicate Terminal(state: CommandState) {
    state == Completed || state == Failed || state == Cancelled || state == Reconciled
  }

  lemma EffectKeepsTerminal(cfg: Config, sh: Shared, op: Op, ch: Choice, k: string, state: CommandState)
    requires InState(sh.ctl, k, state) && Terminal(state)
    ensures InState(Effect(cfg, sh, op, ch).0.ctl, k, state)
  {
    hide Scrub, AfterReport, AfterRefusal;
  }

  lemma {:induction false} TerminalStays(cfg: Config, steps: seq<Step>, more: seq<Step>, k: string, state: CommandState)
    requires InState(Exec(cfg, steps).sh.ctl, k, state) && Terminal(state) && NoRestart(more)
    ensures InState(Exec(cfg, steps + more).sh.ctl, k, state)
    decreases |more|
  {
    hide Exec, Effect, After, OpOf, Entry, Admissible, InState, Terminal;
    if more == [] {
      assert steps + more == steps;
    } else {
      var rest, last := more[..|more| - 1], more[|more| - 1];
      assert forall n | 0 <= n < |rest| :: rest[n] == more[n];
      TerminalStays(cfg, steps, rest, k, state);
      ExecAfter(cfg, steps + rest, last);
      assert steps + more == steps + rest + [last];
      var s := Exec(cfg, steps + rest);
      if last.Advance? && last.r in s.reqs {
        EffectKeepsTerminal(cfg, s.sh, OpOf(cfg, s.reqs[last.r], last.ch.now), last.ch, k, state);
      }
    }
  }

  function AnswerState(result: Observation): CommandState {
    match result
    case ResultCompleted => Completed
    case ResultFailed => Failed
    case ResultCancelled => Cancelled
    case NoResult => Acknowledged
  }

  /** The request that holds a polled command moves it on its next step, wherever the others are by then. */
  lemma PolledMoves(cfg: Config, sh: Shared, task: string, key: string, ch: Choice)
    ensures var (next, pc) := Act(cfg, sh, InCheck(task, Polled(key)), ch);
            && next == sh && pc.InCheck? && OwnedKey(cfg, pc) == Some(key)
            && CheckOp(pc.check) == Move(key, AnswerState(ch.observed))
  {
  }

  lemma HolderMoves(cfg: Config, sh: Shared, pc: Pc, key: string, to: CommandState, ch: Choice)
    requires Local(cfg, sh, pc) && pc.InCheck? && OwnedKey(cfg, pc) == Some(key) && CheckOp(pc.check) == Move(key, to)
    requires Terminal(to) || to == Acknowledged
    requires to != Reconciled
    ensures InState(Act(cfg, sh, pc, ch).0.ctl, key, to)
  {
    hide After, AfterRefusal;
  }

  /** Whatever other requests do in between, the next step of a result check moves its command to what it was told: completed,
      failed, cancelled, or acknowledged again; and the first three the command then stays until the server restarts. */
  lemma AnswersSettleCommands(
    cfg: Config, steps: seq<Step>, r: nat, task: string, key: string, ch: Choice, others: seq<Step>, next: Choice, more: seq<Step>)
    requires GoodConfig(cfg) && Leaves(others, r) && NoRestart(more)
    requires var reqs := Exec(cfg, steps).reqs; r in reqs && reqs[r] == InCheck(task, Polled(key))
    ensures var settled := steps + [Advance(r, ch)] + others + [Advance(r, next)];
            && InState(Exec(cfg, settled).sh.ctl, key, AnswerState(ch.observed))
            && (ch.observed != NoResult ==> InState(Exec(cfg, settled + more).sh.ctl, key, AnswerState(ch.observed)))
  {
    hide Exec, Act, Inv, InState, OwnedKey, CheckOp;
    var told := steps + [Advance(r, ch)];
    var settled := told + others + [Advance(r, next)];
    PolledMoves(cfg, Exec(cfg, steps).sh, task, key, ch);
    AdvanceMoves(cfg, steps, r, ch);
    PcStays(cfg, told, others, r);
    InvAlways(cfg, told + others);
    var s := Exec(cfg, told + others);
    assert Local(cfg, s.sh, s.reqs[r]) by { RequestIsLocal(cfg, s, r); }
    HolderMoves(cfg, s.sh, s.reqs[r], key, AnswerState(ch.observed), next);
    AdvanceMoves(cfg, told + others, r, next);
    if ch.observed != NoResult { TerminalStays(cfg, settled, more, key, AnswerState(ch.observed)); }
  }

  lemma RequestIsLocal(cfg: Config, s: State, r: nat)
    requires Inv(cfg, s) && r in s.reqs
    ensures Local(cfg, s.sh, s.reqs[r])
  {
  }

  /** The state a reply leads to at once. */
  function RepliedState(reply: Reply): CommandState {
    if reply == Reply.Refused then Failed else Acknowledged
  }

  lemma CalledMoves(cfg: Config, sh: Shared, job: Job, ch: Choice)
    ensures var (next, pc) := Act(cfg, sh, InJob(job, CallOut), ch);
            && pc.InJob? && OwnedKey(cfg, pc) == Some(JobKey(cfg, job))
            && JobOp(cfg, pc.job, pc.stage) == Move(JobKey(cfg, job), RepliedState(ch.reply))
  {
  }

  lemma CallerMoves(cfg: Config, sh: Shared, pc: Pc, key: string, to: CommandState, ch: Choice)
    requires Local(cfg, sh, pc) && pc.InJob? && OwnedKey(cfg, pc) == Some(key) && JobOp(cfg, pc.job, pc.stage) == Move(key, to)
    requires to == Failed || to == Acknowledged
    ensures InState(Act(cfg, sh, pc, ch).0.ctl, key, to)
  {
    hide After, AfterRefusal;
  }

  /** Whatever other requests do in between, the next step of a request that has called the adapter moves its command: to
      failed when the call was refused, where it stays until the server restarts, and to acknowledged otherwise. */
  lemma RepliesMarkCommands(
    cfg: Config, steps: seq<Step>, r: nat, job: Job, ch: Choice, others: seq<Step>, next: Choice, more: seq<Step>)
    requires GoodConfig(cfg) && Leaves(others, r) && NoRestart(more)
    requires var reqs := Exec(cfg, steps).reqs; r in reqs && reqs[r] == InJob(job, CallOut)
    ensures var marked := steps + [Advance(r, ch)] + others + [Advance(r, next)];
            && InState(Exec(cfg, marked).sh.ctl, JobKey(cfg, job), RepliedState(ch.reply))
            && (ch.reply == Reply.Refused ==> InState(Exec(cfg, marked + more).sh.ctl, JobKey(cfg, job), Failed))
  {
    hide Exec, Act, Inv, InState, OwnedKey, JobOp, JobKey;
    var called := steps + [Advance(r, ch)];
    var marked := called + others + [Advance(r, next)];
    CalledMoves(cfg, Exec(cfg, steps).sh, job, ch);
    AdvanceMoves(cfg, steps, r, ch);
    PcStays(cfg, called, others, r);
    InvAlways(cfg, called + others);
    var s := Exec(cfg, called + others);
    assert Local(cfg, s.sh, s.reqs[r]) by { RequestIsLocal(cfg, s, r); }
    CallerMoves(cfg, s.sh, s.reqs[r], JobKey(cfg, job), RepliedState(ch.reply), next);
    AdvanceMoves(cfg, called + others, r, next);
    if ch.reply == Reply.Refused { TerminalStays(cfg, marked, more, JobKey(cfg, job), Failed); }
  }

  lemma StillUnknownLooks(cfg: Config, sh: Shared, pc: Pc, ch: Choice, key: string)
    requires Suits(sh.log, Began(Reconcile(key, StillUnknown)), pc)
    ensures Act(cfg, sh, pc, ch).0.ctl == sh.ctl
  {
    hide After, Scrub, AfterReport;
  }

  /** No step of a reconciliation as still unknown changes any command, fence or lease. */
  lemma StillUnknownChangesNothing(cfg: Config, steps: seq<Step>, r: nat, ch: Choice, key: string)
    requires r in Exec(cfg, steps).reqs && r in Book(cfg, steps)
    requires Origin(Book(cfg, steps)[r]) == Began(Reconcile(key, StillUnknown))
    ensures Exec(cfg, steps + [Advance(r, ch)]).sh.ctl == Exec(cfg, steps).sh.ctl
  {
    hide Exec, Book, Act, Suits, DutyInv, LineInv, FactInv, IsDue;
    CausesAlways(cfg, steps);
    var s := Exec(cfg, steps);
    assert RecordInv(cfg, s.sh.log, s.reqs[r], Book(cfg, steps)[r], Facts(cfg, steps));
    StillUnknownLooks(cfg, s.sh, s.reqs[r], ch, key);
    AdvanceMoves(cfg, steps, r, ch);
  }
}
