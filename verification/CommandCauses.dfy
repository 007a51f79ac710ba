/** Why commands are what they are: every command was created, and is in the state it is in, because of something a request
    met, however often the server has restarted since. */
module CommandCauses {
  import opened Model
  import opened Control
  import opened Actions
  import opened Protocol
  import opened Duties
  import opened DutyLaw
  import opened CommandSafety
  import opened Causes

  /** The creation of the command was due, and so was its move to the state it is in. */
  ghost predicate Explained(cfg: Config, facts: set<(Fact, Fact)>, c: Logged) {
    && (exists cmd: Command :: IsDue(cfg, facts, Creates(cmd)) && cmd.key == c.key && cmd.task == c.task)
    && (c.state == Requested || IsDue(cfg, facts, Moves(c.key, c.state)))
  }

  ghost predicate EventExplained(cfg: Config, facts: set<(Fact, Fact)>, e: Event) {
    e.CommandEvent? && e.cmd.Some? ==> Explained(cfg, facts, e.cmd.value)
  }

  ghost predicate CopyExplained(cfg: Config, facts: set<(Fact, Fact)>, pc: Pc) {
    InHand(pc).Some? ==> Explained(cfg, facts, LoggedOf(InHand(pc).value))
  }

  ghost predicate AllExplained(cfg: Config, facts: set<(Fact, Fact)>, commands: map<string, Command>) {
    forall k | k in commands :: Explained(cfg, facts, LoggedOf(commands[k]))
  }

  ghost predicate LogExplained(cfg: Config, facts: set<(Fact, Fact)>, log: seq<Event>) {
    forall e | e in log :: EventExplained(cfg, facts, e)
  }

  ghost predicate ExplainInv(cfg: Config, s: State, facts: set<(Fact, Fact)>) {
    && AllExplained(cfg, facts, s.sh.ctl.commands) && LogExplained(cfg, facts, s.sh.log)
    && forall r | r in s.reqs :: CopyExplained(cfg, facts, s.reqs[r])
  }

  lemma ExplainedGrows(cfg: Config, facts: set<(Fact, Fact)>, more: set<(Fact, Fact)>, c: Logged)
    requires facts <= more && Explained(cfg, facts, c)
    ensures Explained(cfg, more, c)
  {
    hide IsDue;
    var cmd: Command :| IsDue(cfg, facts, Creates(cmd)) && cmd.key == c.key && cmd.task == c.task;
    DueGrows(cfg, facts, more, Creates(cmd));
    if c.state != Requested { DueGrows(cfg, facts, more, Moves(c.key, c.state)); }
  }

  lemma InvGrows(cfg: Config, s: State, facts: set<(Fact, Fact)>, more: set<(Fact, Fact)>)
    requires ExplainInv(cfg, s, facts) && facts <= more
    ensures ExplainInv(cfg, s, more)
  {
    hide Explained;
    forall k | k in s.sh.ctl.commands ensures Explained(cfg, more, LoggedOf(s.sh.ctl.commands[k])) {
      ExplainedGrows(cfg, facts, more, LoggedOf(s.sh.ctl.commands[k]));
    }
    forall e | e in s.sh.log && e.CommandEvent? && e.cmd.Some? ensures Explained(cfg, more, e.cmd.value) {
      assert EventExplained(cfg, facts, e);
      ExplainedGrows(cfg, facts, more, e.cmd.value);
    }
    forall r | r in s.reqs && InHand(s.reqs[r]).Some? ensures Explained(cfg, more, LoggedOf(InHand(s.reqs[r]).value)) {
      ExplainedGrows(cfg, facts, more, LoggedOf(InHand(s.reqs[r]).value));
    }
  }

  /** The effect leaves task and state of a command alone, or it is the creation or the move that was due. */
  ghost predicate Changes(sh: Shared, op: Op, next: Shared, k: string)
    requires k in next.ctl.commands
  {
    && (k !in sh.ctl.commands ==> op.CreateCommand? && op.cmd.key == k
                                  && next.ctl.commands[k].task == op.cmd.task && next.ctl.commands[k].state == Requested)
    && (k in sh.ctl.commands ==>
          && next.ctl.commands[k].task == sh.ctl.commands[k].task
          && (next.ctl.commands[k].state == sh.ctl.commands[k].state
              || (op.Move? && op.key == k && next.ctl.commands[k].state == op.to)))
    && next.ctl.commands[k].key == k
  }

  lemma EffectChanges(cfg: Config, sh: Shared, op: Op, ch: Choice, k: string)
    requires CtlOk(cfg, sh.ctl) && k in Effect(cfg, sh, op, ch).0.ctl.commands
    ensures Changes(sh, op, Effect(cfg, sh, op, ch).0, k)
  {
    hide Scrub, AfterReport, AfterRefusal, EmergencyStop, Fixed, Commit, Allowed;
    if k in sh.ctl.commands { assert FixedCommand(cfg, k, sh.ctl.commands[k]); }
    if op.StopAll? { StopKeepsCommands(sh.ctl); }
  }

  lemma StopKeepsCommands(c: Ctl)
    ensures EmergencyStop(c, "").commands == c.commands
  {
  }

  lemma EffectExplained(cfg: Config, sh: Shared, op: Op, ch: Choice, facts: set<(Fact, Fact)>)
    requires CtlOk(cfg, sh.ctl) && AllExplained(cfg, facts, sh.ctl.commands)
    requires op.CreateCommand? ==> IsDue(cfg, facts, Creates(op.cmd))
    requires op.Move? ==> IsDue(cfg, facts, Moves(op.key, op.to))
    ensures AllExplained(cfg, facts, Effect(cfg, sh, op, ch).0.ctl.commands)
  {
    hide IsDue, Effect;
    var commands := Effect(cfg, sh, op, ch).0.ctl.commands;
    forall k | k in commands ensures Explained(cfg, facts, LoggedOf(commands[k])) {
      EffectChanges(cfg, sh, op, ch, k);
      if k in sh.ctl.commands {
        assert FixedCommand(cfg, k, sh.ctl.commands[k]);
        assert Explained(cfg, facts, LoggedOf(sh.ctl.commands[k]));
      }
    }
  }

  /** A copy is taken of a command as the controller has it. */
  ghost predicate CopyTaken(next: Shared, pc: Pc, pc': Pc) {
    InHand(pc').Some? ==>
      InHand(pc') == InHand(pc)
      || (InHand(pc').value.key in next.ctl.commands && next.ctl.commands[InHand(pc').value.key] == InHand(pc').value)
  }

  lemma GotoTakesNoCopy(cfg: Config, next: Next)
    ensures InHand(Goto(cfg, next)) == None
  {
    if next.ToWalk? { WalkStops(cfg, next.seen, next.i, next.cont); }
  }

  lemma MarkNotesTakeNoCopy(cfg: Config, job: Job, to: CommandState)
    ensures InHand(MarkNotes(cfg, job, to)) == None
  {
  }

  lemma JobTakesCopy(cfg: Config, sh: Shared, job: Job, stage: JobStage, ch: Choice)
    requires CtlOk(cfg, sh.ctl)
    ensures var (next, out) := Effect(cfg, sh, JobOp(cfg, job, stage), ch);
            CopyTaken(next, InJob(job, stage), AfterJob(cfg, job, stage, out))
  {
    hide Effect, CopyTaken, JobOp, CtlOk;
    var (next, out) := Effect(cfg, sh, JobOp(cfg, job, stage), ch);
    match stage
    case Create => CreateTakesCopy(cfg, sh, job, ch);
    case Rotating => RotatingTakesCopy(cfg, sh, job, ch);
    case Mark(to) => MarkTakesCopy(cfg, sh, job, to, ch);
    case _ => PlainTakesNoCopy(cfg, next, job, stage, out);
  }

  lemma CreateTakesCopy(cfg: Config, sh: Shared, job: Job, ch: Choice)
    ensures var (next, out) := Effect(cfg, sh, JobOp(cfg, job, Create), ch);
            CopyTaken(next, InJob(job, Create), AfterJob(cfg, job, Create, out))
  {
    hide Goto;
    GotoTakesNoCopy(cfg, Proceed(job));
    GotoTakesNoCopy(cfg, Fail(job));
  }

  lemma RotatingTakesCopy(cfg: Config, sh: Shared, job: Job, ch: Choice)
    requires CtlOk(cfg, sh.ctl)
    ensures var (next, out) := Effect(cfg, sh, JobOp(cfg, job, Rotating), ch);
            CopyTaken(next, InJob(job, Rotating), AfterJob(cfg, job, Rotating, out))
  {
    hide Goto, JobKey, JobTask;
    GotoTakesNoCopy(cfg, Fail(job));
    if JobKey(cfg, job) in sh.ctl.commands { assert FixedCommand(cfg, JobKey(cfg, job), sh.ctl.commands[JobKey(cfg, job)]); }
  }

  lemma MarkTakesCopy(cfg: Config, sh: Shared, job: Job, to: CommandState, ch: Choice)
    requires CtlOk(cfg, sh.ctl)
    ensures var (next, out) := Effect(cfg, sh, JobOp(cfg, job, Mark(to)), ch);
            CopyTaken(next, InJob(job, Mark(to)), AfterJob(cfg, job, Mark(to), out))
  {
    hide JobKey, AfterRefusal;
    if JobKey(cfg, job) in sh.ctl.commands { assert FixedCommand(cfg, JobKey(cfg, job), sh.ctl.commands[JobKey(cfg, job)]); }
  }

  lemma PlainTakesNoCopy(cfg: Config, next: Shared, job: Job, stage: JobStage, out: Outcome)
    requires !stage.Create? && !stage.Rotating? && !stage.Mark?
    ensures CopyTaken(next, InJob(job, stage), AfterJob(cfg, job, stage, out))
  {
    hide Goto, MarkNotes;
    GotoTakesNoCopy(cfg, Proceed(job));
    GotoTakesNoCopy(cfg, Fail(job));
    if stage.LogMark? { MarkNotesTakeNoCopy(cfg, job, stage.logTo); }
  }

  lemma CheckTakesCopy(cfg: Config, sh: Shared, task: string, check: CheckStage, ch: Choice)
    requires CtlOk(cfg, sh.ctl)
    ensures var (next, out) := Effect(cfg, sh, CheckOp(check), ch);
            CopyTaken(next, InCheck(task, check), AfterCheck(cfg, task, check, out, ch.pick))
  {
    hide Scrub, AfterReport, AfterRefusal;
    if check.Settle? && check.key in sh.ctl.commands { assert FixedCommand(cfg, check.key, sh.ctl.commands[check.key]); }
  }

  lemma OthersTakeNoCopy(cfg: Config, pc: Pc, out: Outcome, ch: Choice)
    requires !pc.InJob? && !pc.InCheck?
    ensures InHand(After(cfg, pc, out, ch)) == None
  {
    match pc
    case Notes(events, next, abort) =>
      GotoTakesNoCopy(cfg, next);
      GotoTakesNoCopy(cfg, abort);
    case InPass(cont, pass) => if out.Events? { WalkStops(cfg, out.events, 0, cont); }
    case InDecision(d, grant, decide) => DecisionTakesNoCopy(d, grant, decide, out, ch.now);
    case InReconcile(reconcile) => ReconcileTakesNoCopy(cfg, reconcile, out);
    case Done =>
  }

  lemma DecisionTakesNoCopy(d: Digest, grant: bool, decide: DecideStage, out: Outcome, now: int)
    ensures InHand(AfterDecide(d, grant, decide, out, now)) == None
  {
  }

  lemma ReconcileTakesNoCopy(cfg: Config, reconcile: ReconcileStage, out: Outcome)
    ensures InHand(AfterReconcile(cfg, reconcile, out)) == None
  {
  }

  lemma PointTakesCopy(cfg: Config, sh: Shared, pc: Pc, ch: Choice)
    requires CtlOk(cfg, sh.ctl)
    ensures var (next, pc') := Act(cfg, sh, pc, ch);
            CopyTaken(next, pc, pc')
  {
    hide Effect, AfterJob, AfterCheck, AfterPass, AfterDecide, AfterReconcile, AfterNotes, JobOp, CheckOp, PassOp, CopyTaken;
    if pc.InJob? {
      JobTakesCopy(cfg, sh, pc.job, pc.stage, ch);
    } else if pc.InCheck? {
      CheckTakesCopy(cfg, sh, pc.task, pc.check, ch);
    } else {
      OthersTakeNoCopy(cfg, pc, Effect(cfg, sh, OpOf(cfg, pc, ch.now), ch).1, ch);
      NoCopy(Act(cfg, sh, pc, ch).0, pc, Act(cfg, sh, pc, ch).1);
    }
  }

  lemma NoCopy(next: Shared, pc: Pc, pc': Pc)
    requires InHand(pc') == None
    ensures CopyTaken(next, pc, pc')
  {
  }

  lemma LogStaysExplained(cfg: Config, sh: Shared, pc: Pc, ch: Choice, facts: set<(Fact, Fact)>)
    requires GoodConfig(cfg) && Global(cfg, sh) && Local(cfg, sh, pc)
    requires LogExplained(cfg, facts, sh.log) && CopyExplained(cfg, facts, pc)
    ensures LogExplained(cfg, facts, Act(cfg, sh, pc, ch).0.log)
  {
    hide Explained, After, Global, Local, OpBacked, AfterReport, AfterRefusal;
    var op := OpOf(cfg, pc, ch.now);
    if op.Append? && ch.appended {
      OpIsBacked(cfg, sh, pc, ch.now);
      AppendIsExplained(cfg, sh, pc, op.e, facts);
      assert Act(cfg, sh, pc, ch).0.log == sh.log + [Scrub(cfg, op.e)];
    }
  }

  lemma AppendIsExplained(cfg: Config, sh: Shared, pc: Pc, e: Event, facts: set<(Fact, Fact)>)
    requires Global(cfg, sh) && Local(cfg, sh, pc) && OpBacked(cfg, sh, pc, Append(e)) && CopyExplained(cfg, facts, pc)
    ensures EventExplained(cfg, facts, Scrub(cfg, e))
  {
    hide Explained;
    ScrubHeld(cfg, sh, pc, e);
  }

  lemma OpIsDue(cfg: Config, sh: Shared, pc: Pc, ch: Choice, record: Record, facts: set<(Fact, Fact)>, deed: Deed)
    requires Dutiful(cfg, pc, record) && RecordInv(cfg, sh.log, pc, record, facts) && deed in Deeds(cfg, pc, ch)
    ensures IsDue(cfg, Moved(facts, record, Meets(cfg, sh, pc, ch)), deed)
  {
    hide Due, Meets, Deeds, Dutiful, IsDue, Suits;
    var fact := Meets(cfg, sh, pc, ch);
    DeedsAreDue(cfg, sh, pc, ch, record, deed);
    if deed in record.due { DueGrows(cfg, facts, Moved(facts, record, fact), deed); }
    else { MetIsDue(cfg, Moved(facts, record, fact), Origin(record), fact, deed); }
  }

  /** Creations and moves are deeds. */
  lemma OpIsDeed(cfg: Config, pc: Pc, ch: Choice)
    ensures var op := OpOf(cfg, pc, ch.now);
            && (op.CreateCommand? ==> Creates(op.cmd) in Deeds(cfg, pc, ch))
            && (op.Move? ==> Moves(op.key, op.to) in Deeds(cfg, pc, ch))
  {
    hide JobOp, CheckOp, NewCommand;
  }

  lemma CopyIsExplained(cfg: Config, next: Shared, pc: Pc, pc': Pc, facts: set<(Fact, Fact)>)
    requires CopyTaken(next, pc, pc') && CopyExplained(cfg, facts, pc) && AllExplained(cfg, facts, next.ctl.commands)
    ensures CopyExplained(cfg, facts, pc')
  {
    hide Explained;
  }

  lemma PointExplained(cfg: Config, sh: Shared, pc: Pc, ch: Choice, record: Record, facts: set<(Fact, Fact)>)
    requires GoodConfig(cfg) && Global(cfg, sh) && Local(cfg, sh, pc)
    requires Dutiful(cfg, pc, record) && RecordInv(cfg, sh.log, pc, record, facts)
    requires var more := Moved(facts, record, Meets(cfg, sh, pc, ch));
             AllExplained(cfg, more, sh.ctl.commands) && LogExplained(cfg, more, sh.log) && CopyExplained(cfg, more, pc)
    ensures var more := Moved(facts, record, Meets(cfg, sh, pc, ch));
            var (next, pc') := Act(cfg, sh, pc, ch);
            AllExplained(cfg, more, next.ctl.commands) && LogExplained(cfg, more, next.log) && CopyExplained(cfg, more, pc')
  {
    hide Effect, After, OpOf, Local, Explained, IsDue, Meets, Due, RecordInv, Deeds, Dutiful, AllExplained, CopyTaken;
    var op, more := OpOf(cfg, pc, ch.now), Moved(facts, record, Meets(cfg, sh, pc, ch));
    OpIsDeed(cfg, pc, ch);
    if op.CreateCommand? { OpIsDue(cfg, sh, pc, ch, record, facts, Creates(op.cmd)); }
    if op.Move? { OpIsDue(cfg, sh, pc, ch, record, facts, Moves(op.key, op.to)); }
    EffectExplained(cfg, sh, op, ch, more);
    LogStaysExplained(cfg, sh, pc, ch, more);
    PointTakesCopy(cfg, sh, pc, ch);
    CopyIsExplained(cfg, Act(cfg, sh, pc, ch).0, pc, Act(cfg, sh, pc, ch).1, more);
  }

  lemma AdvanceExplained(cfg: Config, s: State, r: nat, ch: Choice, book: map<nat, Record>, facts: set<(Fact, Fact)>)
    requires GoodConfig(cfg) && Inv(cfg, s) && CauseInv(cfg, s, book, facts) && ExplainInv(cfg, s, facts) && r in s.reqs
    ensures ExplainInv(cfg, Do(cfg, s, Advance(r, ch)), Moved(facts, book[r], Meets(cfg, s.sh, s.reqs[r], ch)))
  {
    hide Act, Global, Local, AllExplained, LogExplained, CopyExplained, Meets, RecordInv, LineInv, FactInv, Dutiful;
    InvGrows(cfg, s, facts, Moved(facts, book[r], Meets(cfg, s.sh, s.reqs[r], ch)));
    PointExplained(cfg, s.sh, s.reqs[r], ch, book[r], facts);
  }

  // ---- restarts

  lemma {:induction false} LatestIsLogged(log: seq<Event>, k: string)
    requires k in Latest(log)
    ensures exists e | e in log :: e.CommandEvent? && e.cmd == Some(LoggedOf(Latest(log)[k]))
    decreases |log|
  {
    var rest, last := log[..|log| - 1], log[|log| - 1];
    if !(last.CommandEvent? && last.cmd == Some(LoggedOf(Latest(log)[k]))) {
      LatestIsLogged(rest, k);
      assert log == rest + [last];
    }
  }

  lemma RestartExplained(cfg: Config, s: State, appended: bool, facts: set<(Fact, Fact)>)
    requires GoodConfig(cfg) && Inv(cfg, s) && ExplainInv(cfg, s, facts)
    ensures ExplainInv(cfg, Do(cfg, s, Restart(appended)), facts)
  {
    hide Explained, Latest, Recover, Local, Global;
    RecoveryNeverFails(cfg, s.sh);
    var commands := Latest(s.sh.log);
    forall k | k in commands ensures Explained(cfg, facts, LoggedOf(commands[k])) {
      LatestIsLogged(s.sh.log, k);
      var e :| e in s.sh.log && e.CommandEvent? && e.cmd == Some(LoggedOf(commands[k]));
      assert EventExplained(cfg, facts, e);
    }
  }

  lemma StepExplained(cfg: Config, steps: seq<Step>)
    requires steps != [] && GoodConfig(cfg)
    requires var rest := steps[..|steps| - 1];
             var s := Exec(cfg, rest);
             Inv(cfg, s) && CauseInv(cfg, s, Book(cfg, rest), Facts(cfg, rest)) && ExplainInv(cfg, s, Facts(cfg, rest))
    ensures ExplainInv(cfg, Exec(cfg, steps), Facts(cfg, steps))
  {
    hide Inv, Act, Reboot, CopyExplained, AllExplained, LogExplained, Meets, RecordInv, LineInv, FactInv, Dutiful, Admissible;
    var rest, last := steps[..|steps| - 1], steps[|steps| - 1];
    var s, book, facts := Exec(cfg, rest), Book(cfg, rest), Facts(cfg, rest);
    InvGrows(cfg, s, facts, Facts(cfg, steps));
    match last
    case Begin(r, request) => EntryTakesNoCopy(cfg, Facts(cfg, steps), request);
    case Advance(r, ch) =>
      if r in s.reqs {
        AdvanceExplained(cfg, s, r, ch, book, facts);
        assert Facts(cfg, steps) == Moved(facts, book[r], Meets(cfg, s.sh, s.reqs[r], ch));
      }
    case Restart(appended) => RestartExplained(cfg, s, appended, Facts(cfg, steps));
  }

  lemma EntryTakesNoCopy(cfg: Config, facts: set<(Fact, Fact)>, request: Request)
    ensures CopyExplained(cfg, facts, Entry(request))
  {
  }

  lemma {:induction false} ExplainedAlways(cfg: Config, steps: seq<Step>)
    requires GoodConfig(cfg)
    ensures ExplainInv(cfg, Exec(cfg, steps), Facts(cfg, steps))
    decreases |steps|
  {
    hide Inv, CauseInv, Exec, Explained, Facts;
    if steps == [] {
      StartExplained(cfg);
    } else {
      ExplainedAlways(cfg, steps[..|steps| - 1]);
      InvAlways(cfg, steps[..|steps| - 1]);
      CausesAlways(cfg, steps[..|steps| - 1]);
      StepExplained(cfg, steps);
    }
  }

  lemma StartExplained(cfg: Config)
    ensures ExplainInv(cfg, Exec(cfg, []), Facts(cfg, []))
  {
  }

  /** Every command was created because that was due on something a request met, and so was every move to the state a command
      is in; a restart adds no command and no state of its own. */
  lemma EveryStateIsDue(cfg: Config, steps: seq<Step>, k: string)
    requires GoodConfig(cfg) && k in Exec(cfg, steps).sh.ctl.commands
    ensures var c, facts := Exec(cfg, steps).sh.ctl.commands[k], Facts(cfg, steps);
            && (exists cmd: Command :: IsDue(cfg, facts, Creates(cmd)) && cmd.key == k && cmd.task == c.task)
            && (c.state != Requested ==> IsDue(cfg, facts, Moves(k, c.state)))
  {
    hide Inv, Exec, Facts;
    ExplainedAlways(cfg, steps);
    InvAlways(cfg, steps);
    KeyOfCommand(cfg, Exec(cfg, steps), k);
  }

  lemma KeyOfCommand(cfg: Config, s: State, k: string)
    requires Inv(cfg, s) && k in s.sh.ctl.commands
    ensures s.sh.ctl.commands[k].key == k
  {
    assert FixedCommand(cfg, k, s.sh.ctl.commands[k]);
  }
}
