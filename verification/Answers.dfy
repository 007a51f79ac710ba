/** What the log and the commands say is what operators asked for and adapters answered: nothing is completed, failed,
    cancelled, decided or stopped that nobody said so of. */
module Answers {
  import opened Model
  import opened Control
  import opened Actions
  import opened Protocol
  import opened Duties
  import opened DutyLaw
  import opened CommandSafety
  import opened Causes
  import opened CommandCauses
  import ScheduleSafety

  // ---- what came from outside

  predicate Asked(steps: seq<Step>, request: Request) {
    exists n | 0 <= n < |steps| :: steps[n].Begin? && steps[n].request == request
  }

  /** At this step a result check of the task, holding the command, is given the answer. */
  ghost predicate SaidAt(cfg: Config, steps: seq<Step>, n: nat, task: string, key: string, result: Observation) {
    && n < |steps| && steps[n].Advance? && steps[n].ch.observed == result
    && var reqs := Exec(cfg, steps[..n]).reqs;
       steps[n].r in reqs && reqs[steps[n].r] == InCheck(task, Polled(key))
  }

  ghost predicate Said(cfg: Config, steps: seq<Step>, task: string, key: string, result: Observation) {
    exists n: nat :: SaidAt(cfg, steps, n, task, key, result)
  }

  /** At this step the adapter, called for the command, replies. */
  ghost predicate RepliedAt(cfg: Config, steps: seq<Step>, n: nat, job: Job, reply: Reply) {
    && n < |steps| && steps[n].Advance? && steps[n].ch.reply == reply
    && var reqs := Exec(cfg, steps[..n]).reqs;
       steps[n].r in reqs && reqs[steps[n].r] == InJob(job, CallOut)
  }

  ghost predicate Replied(cfg: Config, steps: seq<Step>, key: string, reply: Reply) {
    exists n: nat, job :: RepliedAt(cfg, steps, n, job, reply) && JobKey(cfg, job) == key
  }

  /** At some moment the command had an unknown outcome and was one of the task. */
  ghost predicate WasUnknown(cfg: Config, steps: seq<Step>, key: string, task: string) {
    exists n: nat :: UnknownAt(cfg, steps, n, key, task)
  }

  ghost predicate UnknownAt(cfg: Config, steps: seq<Step>, n: nat, key: string, task: string) {
    n < |steps| && var ctl := Exec(cfg, steps[..n]).sh.ctl;
                   key in ctl.commands && ctl.commands[key].state == OutcomeUnknown && ctl.commands[key].task == task
  }

  /** At some moment the token was the task's current one and no stop was in force. */
  ghost predicate WasCurrent(cfg: Config, steps: seq<Step>, task: string, token: nat) {
    exists n: nat :: CurrentAt(cfg, steps, n, task, token)
  }

  ghost predicate CurrentAt(cfg: Config, steps: seq<Step>, n: nat, task: string, token: nat) {
    n < |steps| && var ctl := Exec(cfg, steps[..n]).sh.ctl;
                   !ctl.stopped && token != 0 && Fence(ctl, task) == token
  }

  // ---- facts happened

  ghost predicate MetWhen(cfg: Config, steps: seq<Step>, n: nat, fact: Fact) {
    && n < |steps| && steps[n].Advance?
    && var s := Exec(cfg, steps[..n]);
       steps[n].r in s.reqs && Meets(cfg, s.sh, s.reqs[steps[n].r], steps[n].ch) == Some(fact)
  }

  lemma {:induction false} FactHappened(cfg: Config, steps: seq<Step>, p: (Fact, Fact)) returns (n: nat)
    requires p in Facts(cfg, steps)
    ensures p.1.Started? || (p.1.Began? && Asked(steps, p.1.request)) || MetWhen(cfg, steps, n, p.1)
    decreases |steps|
  {
    hide Exec, Book, Meets, Admissible;
    n := 0;
    if steps != [] {
      var rest, last := steps[..|steps| - 1], steps[|steps| - 1];
      if p in Facts(cfg, rest) {
        n := FactHappened(cfg, rest, p);
        if n < |rest| { assert rest[..n] == steps[..n]; }
        if p.1.Began? && Asked(rest, p.1.request) {
          var m :| 0 <= m < |rest| && rest[m].Begin? && rest[m].request == p.1.request;
          assert steps[m] == rest[m];
        }
      } else {
        n := |rest|;
        assert steps[n] == last && steps[..n] == rest;
      }
    }
  }

  /** A request for which something was met was asked for. */
  lemma OriginWasAsked(cfg: Config, steps: seq<Step>, origin: Fact, request: Request)
    requires (origin, origin) in Facts(cfg, steps) && origin == Began(request)
    ensures Asked(steps, request)
  {
    hide Meets, Exec, Book;
    var n := FactHappened(cfg, steps, (origin, origin));
    if MetWhen(cfg, steps, n, origin) {
      var s := Exec(cfg, steps[..n]);
      NobodyMeetsABeginning(cfg, s.sh, s.reqs[steps[n].r], steps[n].ch);
    }
  }

  lemma NobodyMeetsABeginning(cfg: Config, sh: Shared, pc: Pc, ch: Choice)
    ensures Meets(cfg, sh, pc, ch).Some? ==> !Meets(cfg, sh, pc, ch).value.Began? && !Meets(cfg, sh, pc, ch).value.Started?
  {
    hide NextTask, LastRequest, MayDecide, RequestOnce, Rotate;
  }

  /** Where each of these facts is met. */
  lemma MeetingPoint(cfg: Config, sh: Shared, pc: Pc, ch: Choice, fact: Fact)
    requires Meets(cfg, sh, pc, ch) == Some(fact)
    ensures fact.Answer? ==> pc == InCheck(fact.task, Polled(fact.key)) && ch.observed == fact.result
    ensures fact.ReplyTo? ==> pc == InJob(fact.job, CallOut) && ch.reply == fact.reply
    ensures fact.Resolved? ==>
              InState(sh.ctl, fact.key, OutcomeUnknown) && sh.ctl.commands[fact.key].task == fact.task
    ensures fact.Current? ==>
              !sh.ctl.stopped && JobToken(fact.job) != 0 && JobToken(fact.job) == Fence(sh.ctl, JobTask(cfg, fact.job))
  {
    hide NextTask, LastRequest, MayDecide, RequestOnce, Rotate;
  }

  lemma FactFromOutside(cfg: Config, steps: seq<Step>, p: (Fact, Fact))
    requires p in Facts(cfg, steps)
    ensures p.1.Answer? ==> Said(cfg, steps, p.1.task, p.1.key, p.1.result)
    ensures p.1.ReplyTo? ==> Replied(cfg, steps, JobKey(cfg, p.1.job), p.1.reply)
    ensures p.1.Resolved? ==> WasUnknown(cfg, steps, p.1.key, p.1.task)
    ensures p.1.Current? ==> WasCurrent(cfg, steps, JobTask(cfg, p.1.job), JobToken(p.1.job))
  {
    hide Exec, Book, Meets, JobKey, JobTask, Facts;
    var n := FactHappened(cfg, steps, p);
    if MetWhen(cfg, steps, n, p.1) {
      var s := Exec(cfg, steps[..n]);
      MeetingPoint(cfg, s.sh, s.reqs[steps[n].r], steps[n].ch, p.1);
      if p.1.Answer? { assert SaidAt(cfg, steps, n, p.1.task, p.1.key, p.1.result); }
      if p.1.ReplyTo? { assert RepliedAt(cfg, steps, n, p.1.job, p.1.reply); }
      if p.1.Resolved? { assert UnknownAt(cfg, steps, n, p.1.key, p.1.task); }
      if p.1.Current? { assert CurrentAt(cfg, steps, n, JobTask(cfg, p.1.job), JobToken(p.1.job)); }
    }
  }

  // ---- lines that speak of tasks

  /** The line tells how a task ended, or that it may be retried. */
  predicate TellsTask(d: Deed) {
    && d.Logs? && d.line.Says?
    && (d.line.e.TaskCompleted?
        || (d.line.e.Note? && (d.line.e.what == TaskFailed || d.line.e.what == TaskCancelled || d.line.e.what == RetryAllowed)))
  }

  /** The line asks for an approval or decides on one. */
  predicate TellsDecision(d: Deed) {
    d.Logs? && ((d.line.Says? && d.line.e.ApprovalDecided?) || d.line.Asks?)
  }

  predicate Routine(ds: seq<Deed>) {
    forall d | d in ds :: !TellsTask(d) && !TellsDecision(d)
  }

  lemma {:induction false} CountingReads(cfg: Config, i: nat)
    ensures forall d | d in Counting(cfg, i) :: d == Reads
    decreases |cfg.plan| - i
  {
    if i < |cfg.plan| { CountingReads(cfg, i + 1); }
  }

  lemma EndIsRoutine(cfg: Config, ok: bool, cont: Cont)
    ensures Routine(EndDue(cfg, ok, cont))
  {
    CountingReads(cfg, 0);
  }

  lemma MarksAreRoutine(cfg: Config, job: Job, to: CommandState)
    ensures Routine(Marks(cfg, job, to))
  {
    assert Routine(Aftermath(cfg, job, to));
    assert Routine(Duties.Reports(cfg, job, to));
  }

  lemma MadeIsRoutine(cfg: Config, job: Job)
    ensures Routine(MadeDue(cfg, job))
  {
    hide Marks;
    MarksAreRoutine(cfg, job, Acknowledged);
    assert Routine(AskedDue(cfg, job));
    assert Routine(RequestDue(cfg, job));
  }

  lemma ReplyIsRoutine(cfg: Config, job: Job, reply: Reply)
    ensures Routine(ReplyDue(cfg, job, reply))
  {
    hide Marks;
    MarksAreRoutine(cfg, job, Acknowledged);
    MarksAreRoutine(cfg, job, Failed);
    MarksAreRoutine(cfg, job, OutcomeUnknown);
  }

  lemma OthersAreRoutine(cfg: Config, fact: Fact)
    requires !fact.Answer? && !fact.Resolved? && !fact.Won? && !fact.Unasked?
    ensures Routine(Due(cfg, fact))
  {
    hide EndDue, MadeDue, ReplyDue;
    match fact
    case Goes(cont, next) =>
      EndIsRoutine(cfg, true, cont);
      EndIsRoutine(cfg, false, cont);
    case Broke(cont) => EndIsRoutine(cfg, false, cont);
    case Made(job) => MadeIsRoutine(cfg, job);
    case ReplyTo(job, reply) => ReplyIsRoutine(cfg, job, reply);
    case _ =>
  }

  /** Only an answer or a reconciliation makes a line due that tells of a task, and each its own. */
  lemma LineNeeds(cfg: Config, fact: Fact, e: Event)
    requires Logs(LineOf(e)) in Due(cfg, fact)
    ensures e.TaskCompleted? ==>
              || (fact.Answer? && fact.result == ResultCompleted && e.task == cfg.redact(fact.task))
              || (fact.Resolved? && fact.disposition == Applied && e.task == cfg.redact(fact.task))
    ensures e.Note? && e.what == TaskFailed ==>
              fact.Answer? && fact.result == ResultFailed && e.task == cfg.redact(fact.task)
    ensures e.Note? && e.what == TaskCancelled ==>
              fact.Answer? && fact.result == ResultCancelled && e.task == cfg.redact(fact.task)
    ensures e.Note? && e.what == RetryAllowed ==>
              fact.Resolved? && fact.disposition != Applied && e.task == cfg.redact(fact.task)
  {
    if !fact.Answer? && !fact.Resolved? && !fact.Won? && !fact.Unasked? {
      hide Due;
      OthersAreRoutine(cfg, fact);
      assert !TellsTask(Logs(LineOf(e)));
    }
  }

  /** Only a claimed decision makes its own line due, and requests for approval list the local owner. */
  lemma DecisionNeeds(cfg: Config, fact: Fact, e: Event)
    requires Logs(LineOf(e)) in Due(cfg, fact)
    ensures e.ApprovalDecided? ==> fact.Won? && fact.d == e.digest && fact.grant == e.granted
    ensures e.ApprovalRequested? ==> e.actors == ["local-owner"]
  {
    if !fact.Answer? && !fact.Resolved? && !fact.Won? && !fact.Unasked? {
      hide Due;
      OthersAreRoutine(cfg, fact);
      assert !TellsDecision(Logs(LineOf(e)));
    }
  }

  // ---- how tasks end

  /** A completed answer to a check of the task, or an applied reconciliation of a command of the task that had an unknown
      outcome. */
  ghost predicate EarnedBy(cfg: Config, steps: seq<Step>, task: string, key: string) {
    || (Asked(steps, CheckResult(task)) && Said(cfg, steps, task, key, ResultCompleted))
    || (Asked(steps, Reconcile(key, Applied)) && WasUnknown(cfg, steps, key, task))
  }

  /** A task is logged as completed only when an adapter said so, or an operator did of a command whose outcome was unknown;
      and that before the line was written, since it holds of every run that has got so far. */
  lemma CompletionWasSaid(cfg: Config, steps: seq<Step>, logged: string) returns (task: string, key: string)
    requires TaskCompleted(logged) in Exec(cfg, steps).sh.log
    ensures cfg.redact(task) == logged && EarnedBy(cfg, steps, task, key)
  {
    hide Exec, Due, Facts, Said, WasUnknown;
    var e := TaskCompleted(logged);
    var p := EveryLineIsDue(cfg, steps, e);
    LineNeeds(cfg, p.1, e);
    FactFromOutside(cfg, steps, p);
    task, key := p.1.task, p.1.key;
    OriginWasAsked(cfg, steps, p.0, p.0.request);
  }

  /** While no adapter says that a task is completed and nobody reconciles a command as applied, nothing is completed. */
  lemma NothingCompletesByItself(cfg: Config, steps: seq<Step>, task: string)
    requires forall n | 0 <= n < |steps| && steps[n].Advance? :: steps[n].ch.observed != ResultCompleted
    requires forall n | 0 <= n < |steps| && steps[n].Begin? && steps[n].request.Reconcile? ::
               steps[n].request.disposition != Applied
    ensures TaskCompleted(task) !in Exec(cfg, steps).sh.log
  {
    hide Exec;
    if TaskCompleted(task) in Exec(cfg, steps).sh.log { var named, key := CompletionWasSaid(cfg, steps, task); }
  }

  /** A task is logged as failed or as cancelled only when a check of it was told just that, and a retry is allowed only when
      a command of the task was reconciled as not applied. */
  lemma EndingsWereSaid(cfg: Config, steps: seq<Step>, what: NoteKind, logged: string) returns (task: string, key: string)
    requires Note(what, logged) in Exec(cfg, steps).sh.log
    requires what == TaskFailed || what == TaskCancelled || what == RetryAllowed
    ensures cfg.redact(task) == logged
    ensures what == TaskFailed ==> Asked(steps, CheckResult(task)) && Said(cfg, steps, task, key, ResultFailed)
    ensures what == TaskCancelled ==> Asked(steps, CheckResult(task)) && Said(cfg, steps, task, key, ResultCancelled)
    ensures what == RetryAllowed ==> Asked(steps, Reconcile(key, NotApplied)) && WasUnknown(cfg, steps, key, task)
  {
    hide Exec, Due, Facts, Said, WasUnknown;
    var e := Note(what, logged);
    var p := EveryLineIsDue(cfg, steps, e);
    LineNeeds(cfg, p.1, e);
    FactFromOutside(cfg, steps, p);
    task, key := p.1.task, p.1.key;
    OriginWasAsked(cfg, steps, p.0, p.0.request);
  }

  // ---- decisions

  /** A decision was asked for, as it was taken, by an actor whom a logged request for that approval lists. */
  lemma DecisionsAreAuthorized(cfg: Config, steps: seq<Step>, d: Digest, grant: bool) returns (actor: string)
    requires ApprovalDecided(d, grant) in Exec(cfg, steps).sh.log
    ensures Asked(steps, Decide(d, grant, actor)) && Authorized(Exec(cfg, steps).sh.log, d, actor)
  {
    hide Exec, Due, Facts, Authorized;
    var e := ApprovalDecided(d, grant);
    var p := EveryLineIsDue(cfg, steps, e);
    DecisionNeeds(cfg, p.1, e);
    actor := p.0.request.actor;
    OriginWasAsked(cfg, steps, p.0, p.0.request);
  }

  /** The scheduler lets nobody but the local owner decide. */
  lemma OnlyOwnersAreListed(cfg: Config, steps: seq<Step>, e: Event)
    requires e in Exec(cfg, steps).sh.log && e.ApprovalRequested?
    ensures e.actors == ["local-owner"]
  {
    hide Exec, Due, Facts;
    var p := EveryLineIsDue(cfg, steps, e);
    DecisionNeeds(cfg, p.1, e);
  }

  /** Approvals that others than the local owner try to decide stay undecided. */
  lemma OthersDecideNothing(cfg: Config, steps: seq<Step>, d: Digest)
    requires forall n | 0 <= n < |steps| && steps[n].Begin? && steps[n].request.Decide? && steps[n].request.digest == d ::
               steps[n].request.actor != "" && steps[n].request.actor != "local-owner"
    ensures !IsDecided(Exec(cfg, steps).sh.log, d)
  {
    hide Exec;
    var log := Exec(cfg, steps).sh.log;
    forall grant ensures ApprovalDecided(d, grant) !in log {
      if ApprovalDecided(d, grant) in log {
        var actor := DecisionsAreAuthorized(cfg, steps, d, grant);
        var e :| e in log && Lists(e, d, actor);
        OnlyOwnersAreListed(cfg, steps, e);
      }
    }
  }

  /** So a guarded task is never requested on the word of anybody else. */
  lemma GuardedTasksNeedTheOwner(cfg: Config, steps: seq<Step>, i: nat, j: nat)
    requires GoodConfig(cfg) && ScheduleSafety.PlanDistinct(cfg) && i < |cfg.plan| && cfg.plan[i].guarded
    requires forall n | 0 <= n < |steps| && steps[n].Begin? && steps[n].request.Decide?
                        && steps[n].request.digest == DigestOf(cfg.plan[i].action) ::
               steps[n].request.actor != "" && steps[n].request.actor != "local-owner"
    requires var log := Exec(cfg, steps).sh.log; j < |log| && ScheduleSafety.IsDispatchRequest(log[j])
    ensures Exec(cfg, steps).sh.log[j].cmd.value.task != cfg.plan[i].id
  {
    hide Exec;
    OthersDecideNothing(cfg, steps, DigestOf(cfg.plan[i].action));
    var log := Exec(cfg, steps).sh.log;
    assert forall e | e in log[..j] :: e in log;
    if log[j].cmd.value.task == cfg.plan[i].id { ScheduleSafety.RequestFollowsClearance(cfg, steps, j, i); }
  }

  // ---- states

  lemma EndMovesNone(cfg: Config, ok: bool, cont: Cont)
    ensures forall d | d in EndDue(cfg, ok, cont) :: !d.Moves? && !d.Creates?
  {
    CountingReads(cfg, 0);
  }

  /** A command's way moves its own command, to the states its facts give. */
  lemma MarksMove(cfg: Config, job: Job, to: CommandState)
    ensures forall d | d in Marks(cfg, job, to) && d.Moves? :: d == Moves(JobKey(cfg, job), to)
  {
    assert forall d | d in Aftermath(cfg, job, to) :: !d.Moves?;
    assert forall d | d in Reports(cfg, job, to) :: !d.Moves?;
  }

  lemma MadeMoves(cfg: Config, job: Job)
    ensures forall d | d in MadeDue(cfg, job) && d.Moves? ::
              d == Moves(JobKey(cfg, job), Acknowledged) && (job.RetryJob? || (job.ControlJob? && job.kind == Halt))
  {
    hide Marks;
    MarksMove(cfg, job, Acknowledged);
    assert forall d | d in AskedDue(cfg, job) && d.Moves? :: d == Moves(JobKey(cfg, job), Acknowledged) && !job.DispatchJob?;
    assert forall d | d in RequestDue(cfg, job) && d.Moves? :: d in AskedDue(cfg, job);
  }

  lemma ReplyMoves(cfg: Config, job: Job, reply: Reply)
    ensures forall d | d in ReplyDue(cfg, job, reply) && d.Moves? ::
              && d.key == JobKey(cfg, job)
              && (d.to == Acknowledged ==> reply != Reply.Refused) && (d.to == Failed ==> reply == Reply.Refused)
              && (d.to == OutcomeUnknown ==> reply == Unknown)
              && (d.to == Acknowledged || d.to == Failed || d.to == OutcomeUnknown)
  {
    hide Marks;
    MarksMove(cfg, job, Acknowledged);
    MarksMove(cfg, job, Failed);
    MarksMove(cfg, job, OutcomeUnknown);
  }

  /** Which facts make the move of a command to a state due. */
  ghost predicate MoveNeeds(cfg: Config, fact: Fact, key: string, to: CommandState) {
    match to
    case Completed => fact.Answer? && fact.key == key && fact.result == ResultCompleted
    case Cancelled => fact.Answer? && fact.key == key && fact.result == ResultCancelled
    case Failed =>
      || (fact.Answer? && fact.key == key && fact.result == ResultFailed)
      || (fact.ReplyTo? && JobKey(cfg, fact.job) == key && fact.reply == Reply.Refused)
    case OutcomeUnknown => fact.ReplyTo? && JobKey(cfg, fact.job) == key && fact.reply == Unknown
    case Reconciled => fact.Unsettled? && fact.key == key && fact.disposition != StillUnknown
    case _ => true
  }

  lemma AnswerMoves(cfg: Config, task: string, k: string, result: Observation, key: string, to: CommandState)
    requires Moves(key, to) in AnswerDue(cfg, task, k, result)
    ensures MoveNeeds(cfg, Answer(task, k, result), key, to)
  {
  }

  lemma MoveIsDueOn(cfg: Config, fact: Fact, key: string, to: CommandState)
    requires Moves(key, to) in Due(cfg, fact)
    ensures MoveNeeds(cfg, fact, key, to)
  {
    hide EndDue, MadeDue, ReplyDue, JobKey, Counting, NewCommand, DigestOf;
    match fact
    case Goes(cont, next) =>
      EndMovesNone(cfg, true, cont);
      EndMovesNone(cfg, false, cont);
    case Broke(cont) => EndMovesNone(cfg, false, cont);
    case Made(job) => MadeMoves(cfg, job);
    case ReplyTo(job, reply) => ReplyMoves(cfg, job, reply);
    case Answer(task, k, result) => AnswerMoves(cfg, task, k, result, key, to);
    case _ =>
  }

  /** A command is completed, cancelled or failed only when an adapter answered or replied so for this command, its outcome is
      unknown only when the reply was, and it is reconciled only when an operator asked for that: whatever interleaved, and
      however often the state has been read back from the log. */
  lemma StatesWereSaid(cfg: Config, steps: seq<Step>, k: string)
    requires GoodConfig(cfg) && k in Exec(cfg, steps).sh.ctl.commands
    ensures match Exec(cfg, steps).sh.ctl.commands[k].state
            case Completed => exists task :: Said(cfg, steps, task, k, ResultCompleted)
            case Cancelled => exists task :: Said(cfg, steps, task, k, ResultCancelled)
            case Failed => (exists task :: Said(cfg, steps, task, k, ResultFailed)) || Replied(cfg, steps, k, Reply.Refused)
            case OutcomeUnknown => Replied(cfg, steps, k, Unknown)
            case Reconciled => Asked(steps, Reconcile(k, Applied)) || Asked(steps, Reconcile(k, NotApplied))
            case _ => true
  {
    hide Exec, Due, Facts, Said, Replied, Asked;
    var state, facts := Exec(cfg, steps).sh.ctl.commands[k].state, Facts(cfg, steps);
    EveryStateIsDue(cfg, steps, k);
    if state != Requested {
      var p :| p in facts && Moves(k, state) in Due(cfg, p.1);
      MoveIsDueOn(cfg, p.1, k, state);
      FactFromOutside(cfg, steps, p);
      CausesAlways(cfg, steps);
      assert FactSuits(Exec(cfg, steps).sh.log, p.0, p.1) && (p.0, p.0) in facts;
      if state == Reconciled { OriginWasAsked(cfg, steps, p.0, Reconcile(k, p.1.disposition)); }
    }
  }
}
