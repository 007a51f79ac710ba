/** Two runs in which nothing fails and every request ends, and a report has gone wrong all the same: recovery brings back
    an earlier state than the one in memory. */
module Races {
  import opened Model
  import opened Control
  import opened Actions
  import opened Protocol
  import opened CommandSafety
  import Traces

  /** One task without dependencies and without side effects, and a redaction that changes nothing. */
  const NO_ACTION := Action("", "", map[], map[], map[], "", "")
  const ONE_TASK := Config("r", [Planned("a", [], Some("x"), false, NO_ACTION)], true, 10, (s: string) => s)
  const KEY := DispatchKey(ONE_TASK, "a")

  /** Every request is done and no append failed. */
  predicate AtRest(s: State) {
    !s.sh.fatal && AllDone(s)
  }

  lemma OneTaskIsGood()
    ensures GoodConfig(ONE_TASK)
  {
  }

  // ---- the pieces of both runs

  function Cmd(state: CommandState): Command {
    Command(KEY, KEY, "a", state, 1, "", "", 0, 0)
  }

  function CtlIn(state: CommandState, results: map<string, string>): Ctl {
    Ctl(results, map["a" := 1], map[], map[KEY := Cmd(state)], false, "", 10, 1)
  }

  function Logs(suffix: CommandState): Event {
    CommandEvent(ByCommand, Dispatch, suffix, Some(LoggedOf(Cmd(suffix))))
  }

  const STARTED := Note(DispatchStarted, "")
  const ROUTED := Note(RoutingDecided, "a")
  const SENT := [Call(Dispatch, KEY, "a")]
  const JOB := DispatchJob([STARTED], 0, FromStart)

  /** After the adapter was asked. */
  function Asked(reply: Reply): (Shared, Pc) {
    (Shared([STARTED, ROUTED, Logs(Requested)], CtlIn(Requested, map[]), {}, false, SENT, {KEY}, {}),
     if reply == Accepted then InJob(JOB, Mark(Acknowledged)) else InJob(JOB, Unsure))
  }

  const CREATED := Ctl(map[], map[], map[], map[KEY := Cmd(Requested).(fence := 0)], false, "", 10, 1)

  const BEFORE := Shared([STARTED, ROUTED], NewCtl(10), {}, false, [], {}, {})

  /** The request that starts the run comes to create the task's command. */
  lemma StartToCreate(ch: Choice)
    requires ch.appended
    ensures Traces.Solo(ONE_TASK, Init(ONE_TASK).sh, Init(ONE_TASK).reqs[0], ch, 4) == (BEFORE, InJob(JOB, Create))
  {
    hide AfterCheck, MarkNotes;
    var s := Init(ONE_TASK);
    var sh1 := s.sh.(log := [STARTED]);
    assert [] + [STARTED] == [STARTED] && [STARTED] + [ROUTED] == [STARTED, ROUTED];
    Traces.SoloStep(ONE_TASK, s.sh, s.reqs[0], ch, sh1, InPass(FromStart, Reading), 3);
    assert !IsCompleted([STARTED], "a") && !IsActive([STARTED], "a");
    assert Walk(ONE_TASK, [STARTED], 0, FromStart) == InPass(FromStart, Routing([STARTED], 0));
    Traces.SoloStep(ONE_TASK, sh1, InPass(FromStart, Reading), ch, sh1, InPass(FromStart, Routing([STARTED], 0)), 2);
    Traces.SoloStep(ONE_TASK, sh1, InPass(FromStart, Routing([STARTED], 0)), ch, BEFORE, InJob(JOB, Probe), 1);
    Traces.SoloStep(ONE_TASK, BEFORE, InJob(JOB, Probe), ch, BEFORE, InJob(JOB, Create), 0);
  }

  lemma CreatedRotates(ch: Choice)
    requires ch.now == 0
    ensures Act(ONE_TASK, BEFORE.(ctl := CREATED), InJob(JOB, Rotating), ch)
         == (BEFORE.(ctl := CtlIn(Requested, map[]), rotated := {KEY}), InJob(JOB, LogRequest(Cmd(Requested))))
  {
    assert CREATED.commands[KEY := Cmd(Requested)] == map[KEY := Cmd(Requested)];
    assert CREATED.fences["a" := 1] == map["a" := 1];
    assert Rotate(CREATED, KEY, "a", 0) == (CtlIn(Requested, map[]), Some(Cmd(Requested)));
    assert {} + {KEY} == {KEY};
    assert JobTask(ONE_TASK, JOB) == "a" && JobKey(ONE_TASK, JOB) == KEY;
  }

  lemma RotatedCalls(ch: Choice)
    requires ch.appended && (ch.reply == Accepted || ch.reply == Unknown)
    ensures Traces.Solo(ONE_TASK, BEFORE.(ctl := CtlIn(Requested, map[]), rotated := {KEY}),
                        InJob(JOB, LogRequest(Cmd(Requested))), ch, 2) == Asked(ch.reply)
  {
    hide AfterPass, RequestOnce, Rotate;
    var rotated := BEFORE.(ctl := CtlIn(Requested, map[]), rotated := {KEY});
    var logged := rotated.(log := [STARTED, ROUTED, Logs(Requested)]);
    assert [STARTED, ROUTED] + [Logs(Requested)] == logged.log;
    assert JobTask(ONE_TASK, JOB) == "a" && JobKey(ONE_TASK, JOB) == KEY;
    assert {} - {KEY} == {};
    Traces.SoloStep(ONE_TASK, rotated, InJob(JOB, LogRequest(Cmd(Requested))), ch, logged, InJob(JOB, CallOut), 1);
    assert [] + SENT == SENT;
    Traces.SoloStep(ONE_TASK, logged, InJob(JOB, CallOut), ch, Asked(ch.reply).0, Asked(ch.reply).1, 0);
  }

  lemma BeforeCreates(ch: Choice)
    requires ch.now == 0
    ensures Act(ONE_TASK, BEFORE, InJob(JOB, Create), ch) == (BEFORE.(ctl := CREATED), InJob(JOB, Rotating))
  {
    hide AfterPass;
  }

  lemma CreateToAsked(ch: Choice)
    requires ch.appended && ch.now == 0 && (ch.reply == Accepted || ch.reply == Unknown)
    ensures Traces.Solo(ONE_TASK, BEFORE, InJob(JOB, Create), ch, 4) == Asked(ch.reply)
  {
    hide Act;
    var created := BEFORE.(ctl := CREATED);
    var rotated := BEFORE.(ctl := CtlIn(Requested, map[]), rotated := {KEY});
    BeforeCreates(ch);
    CreatedRotates(ch);
    RotatedCalls(ch);
    Traces.SoloStep(ONE_TASK, BEFORE, InJob(JOB, Create), ch, created, InJob(JOB, Rotating), 3);
    Traces.SoloStep(ONE_TASK, created, InJob(JOB, Rotating), ch, rotated, InJob(JOB, LogRequest(Cmd(Requested))), 2);
  }

  lemma StartToAsked(ch: Choice)
    requires ch.appended && ch.now == 0 && (ch.reply == Accepted || ch.reply == Unknown)
    ensures Traces.Solo(ONE_TASK, Init(ONE_TASK).sh, Init(ONE_TASK).reqs[0], ch, 8) == Asked(ch.reply)
  {
    Traces.SoloChain(ONE_TASK, Init(ONE_TASK).sh, Init(ONE_TASK).reqs[0], ch, 4, 4);
    StartToCreate(ch);
    CreateToAsked(ch);
  }

  // ---- a result that overtakes the acknowledgement

  function Snapshot(log: seq<Event>, state: CommandState, skewed: set<string>): Shared {
    var results := if state == Completed then map[KEY := ""] else map[];
    Shared(log, CtlIn(state, results), {}, false, SENT, {KEY}, skewed)
  }

  const ASKED_LOG := [STARTED, ROUTED, Logs(Requested)]
  const DONE_LOG := ASKED_LOG + [Logs(Completed), TaskCompleted("a"), Note(DispatchCompleted, "")]
  const LATE_LOG := DONE_LOG + [Logs(Acknowledged), Note(TaskDelegated, "a")]

  lemma MoveIn(from: CommandState, to: CommandState, now: int)
    requires Allowed(from, to) && now == 0
    ensures Transition(CtlIn(from, map[]), KEY, to, "", "", now)
         == (CtlIn(to, if to == Completed || to == Reconciled then map[KEY := ""] else map[]), Some(Cmd(to)))
  {
    assert map[KEY := Cmd(from)][KEY := Cmd(to)] == map[KEY := Cmd(to)];
  }

  lemma LatestAsked()
    ensures KEY in Latest(ASKED_LOG) && Latest(ASKED_LOG)[KEY].state == Requested
  {
    assert ASKED_LOG[..2] == [STARTED, ROUTED];
    assert KEY != "";
  }

  /** The acknowledgement is taken and not logged yet. */
  lemma TakeAcknowledgement(ch: Choice)
    requires ch.appended && ch.now == 0 && ch.reply == Accepted
    ensures Traces.Solo(ONE_TASK, Asked(Accepted).0, Asked(Accepted).1, ch, 1)
         == (Snapshot(ASKED_LOG, Acknowledged, {}), InJob(JOB, LogMark(Acknowledged, Some(Cmd(Acknowledged)))))
  {
    MoveIn(Requested, Acknowledged, 0);
    Traces.SoloStep(ONE_TASK, Asked(Accepted).0, Asked(Accepted).1, ch, Snapshot(ASKED_LOG, Acknowledged, {}),
             InJob(JOB, LogMark(Acknowledged, Some(Cmd(Acknowledged)))), 0);
  }

  lemma PollTakes(ch: Choice)
    requires ch.now == 0
    ensures Act(ONE_TASK, Snapshot(ASKED_LOG, Acknowledged, {}), InCheck("a", Poll(KEY)), ch)
         == (Snapshot(ASKED_LOG, Polling, {}), InCheck("a", Polled(KEY)))
  {
    MoveIn(Acknowledged, Polling, 0);
  }

  /** A result check picks the command up meanwhile and finds it completed. */
  lemma PollToSettle(ch: Choice)
    requires ch.appended && ch.now == 0 && ch.pick == KEY && ch.observed == ResultCompleted
    ensures Traces.Solo(ONE_TASK, Snapshot(ASKED_LOG, Acknowledged, {}), InCheck("a", Picking), ch, 4)
         == (Snapshot(ASKED_LOG, Completed, {}), InCheck("a", LogSettle(Completed, Some(Cmd(Completed)))))
  {
    hide JobOp, AfterDecide, AfterPass, Latest, Transition;
    var sh := Snapshot(ASKED_LOG, Acknowledged, {});
    var polling := Snapshot(ASKED_LOG, Polling, {});
    PollTakes(ch);
    MoveIn(Polling, Completed, 0);
    Traces.SoloStep(ONE_TASK, sh, InCheck("a", Picking), ch, sh, InCheck("a", Poll(KEY)), 3);
    Traces.SoloStep(ONE_TASK, sh, InCheck("a", Poll(KEY)), ch, polling, InCheck("a", Polled(KEY)), 2);
    Traces.SoloStep(ONE_TASK, polling, InCheck("a", Polled(KEY)), ch, polling, InCheck("a", Settle(KEY, Completed)), 1);
    Traces.SoloStep(ONE_TASK, polling, InCheck("a", Settle(KEY, Completed)), ch, Snapshot(ASKED_LOG, Completed, {}),
             InCheck("a", LogSettle(Completed, Some(Cmd(Completed)))), 0);
  }

  const SETTLED_LOG := ASKED_LOG + [Logs(Completed), TaskCompleted("a")]

  lemma SettleToPass(ch: Choice)
    requires ch.appended
    ensures Traces.Solo(ONE_TASK, Snapshot(ASKED_LOG, Completed, {}),
                        InCheck("a", LogSettle(Completed, Some(Cmd(Completed)))), ch, 2)
         == (Snapshot(SETTLED_LOG, Completed, {}), InPass(FromResult, Reading))
  {
    hide AfterJob, AfterReconcile;
    var asked, one := Snapshot(ASKED_LOG, Completed, {}), Snapshot(ASKED_LOG + [Logs(Completed)], Completed, {});
    var note := Notes([TaskCompleted("a")], ToSchedule(FromResult), Finish);
    assert one.log + [TaskCompleted("a")] == SETTLED_LOG && {} - {KEY} == {};
    Traces.SoloStep(ONE_TASK, asked, InCheck("a", LogSettle(Completed, Some(Cmd(Completed)))), ch, one, note, 1);
    Traces.SoloStep(ONE_TASK, one, note, ch, Snapshot(SETTLED_LOG, Completed, {}), InPass(FromResult, Reading), 0);
  }

  /** The task is completed, so the pass walks over it and the check of all tasks ends the run. */
  lemma PassToDone(ch: Choice)
    requires ch.appended
    ensures Traces.Solo(ONE_TASK, Snapshot(SETTLED_LOG, Completed, {}), InPass(FromResult, Reading), ch, 4)
         == (Snapshot(DONE_LOG, Completed, {}), Done)
  {
    hide AfterJob, AfterReconcile;
    var sh := Snapshot(SETTLED_LOG, Completed, {});
    var note := Notes([Note(DispatchCompleted, "")], Finish, Finish);
    assert SETTLED_LOG[|SETTLED_LOG| - 1] == TaskCompleted("a");
    assert IsCompleted(SETTLED_LOG, "a");
    assert Walk(ONE_TASK, SETTLED_LOG, 0, FromResult) == Walk(ONE_TASK, SETTLED_LOG, 1, FromResult)
        == InCheck("", CheckAll(0, true));
    assert SETTLED_LOG + [Note(DispatchCompleted, "")] == DONE_LOG;
    Traces.SoloStep(ONE_TASK, sh, InPass(FromResult, Reading), ch, sh, InCheck("", CheckAll(0, true)), 3);
    Traces.SoloStep(ONE_TASK, sh, InCheck("", CheckAll(0, true)), ch, sh, InCheck("", CheckAll(1, true)), 2);
    Traces.SoloStep(ONE_TASK, sh, InCheck("", CheckAll(1, true)), ch, sh, note, 1);
    Traces.SoloStep(ONE_TASK, sh, note, ch, Snapshot(DONE_LOG, Completed, {}), Done, 0);
  }

  lemma SettleToDone(ch: Choice)
    requires ch.appended
    ensures Traces.Solo(ONE_TASK, Snapshot(ASKED_LOG, Completed, {}),
                        InCheck("a", LogSettle(Completed, Some(Cmd(Completed)))), ch, 6)
         == (Snapshot(DONE_LOG, Completed, {}), Done)
  {
    hide Act;
    var pc := InCheck("a", LogSettle(Completed, Some(Cmd(Completed))));
    Traces.SoloChain(ONE_TASK, Snapshot(ASKED_LOG, Completed, {}), pc, ch, 2, 4);
    SettleToPass(ch);
    PassToDone(ch);
  }

  lemma LogLate(ch: Choice)
    requires ch.appended
    ensures Traces.Solo(ONE_TASK, Snapshot(DONE_LOG, Completed, {}),
                        InJob(JOB, LogMark(Acknowledged, Some(Cmd(Acknowledged)))), ch, 2)
         == (Snapshot(LATE_LOG, Completed, {KEY}), Done)
  {
    hide AfterReconcile, RequestOnce;
    var mid := DONE_LOG + [Logs(Acknowledged)];
    var note := Notes([Note(TaskDelegated, "a")], Proceed(JOB), Fail(JOB));
    assert mid + [Note(TaskDelegated, "a")] == LATE_LOG && {} + {KEY} == {KEY};
    assert JobTask(ONE_TASK, JOB) == "a";
    Traces.SoloStep(ONE_TASK, Snapshot(DONE_LOG, Completed, {}),
             InJob(JOB, LogMark(Acknowledged, Some(Cmd(Acknowledged)))), ch,
             Snapshot(mid, Completed, {KEY}), note, 1);
    Traces.SoloStep(ONE_TASK, Snapshot(mid, Completed, {KEY}), note, ch, Snapshot(LATE_LOG, Completed, {KEY}), Done, 0);
  }

  const GOOD_CH := Choice(true, Accepted, ResultCompleted, 0, KEY)

  /** The start is left just before its append; a check of the task runs through; then the start goes on. */
  function LateRun(): seq<Step> {
    Traces.Many(0, GOOD_CH, 9) + [Begin(1, CheckResult("a"))] + Traces.Many(1, GOOD_CH, 10) + Traces.Many(0, GOOD_CH, 2)
  }

  lemma LateRunStart()
    ensures Exec(ONE_TASK, Traces.Many(0, GOOD_CH, 9))
         == State(Snapshot(ASKED_LOG, Acknowledged, {}), map[0 := InJob(JOB, LogMark(Acknowledged, Some(Cmd(Acknowledged))))])
  {
    hide Do, Act;
    var ch := GOOD_CH;
    Traces.SoloChain(ONE_TASK, Init(ONE_TASK).sh, Init(ONE_TASK).reqs[0], ch, 8, 1);
    StartToAsked(ch);
    TakeAcknowledgement(ch);
    Traces.SoloRuns(ONE_TASK, [], 0, ch, 9);
    assert [] + Traces.Many(0, ch, 9) == Traces.Many(0, ch, 9);
    var pc := InJob(JOB, LogMark(Acknowledged, Some(Cmd(Acknowledged))));
    assert Init(ONE_TASK).reqs[0 := pc] == map[0 := pc];
  }

  lemma LateRunCheck()
    ensures Exec(ONE_TASK, Traces.Many(0, GOOD_CH, 9) + [Begin(1, CheckResult("a"))] + Traces.Many(1, GOOD_CH, 10))
         == State(Snapshot(DONE_LOG, Completed, {}),
                  map[0 := InJob(JOB, LogMark(Acknowledged, Some(Cmd(Acknowledged)))), 1 := Done])
  {
    hide Act, Exec, Reboot;
    var ch := GOOD_CH;
    var start := Traces.Many(0, ch, 9);
    LateRunStart();
    Traces.ExecAfter(ONE_TASK, start, Begin(1, CheckResult("a")));
    var s := Exec(ONE_TASK, start + [Begin(1, CheckResult("a"))]);
    var pc := InJob(JOB, LogMark(Acknowledged, Some(Cmd(Acknowledged))));
    assert s == State(Snapshot(ASKED_LOG, Acknowledged, {}), map[0 := pc, 1 := InCheck("a", Picking)]);
    Traces.SoloChain(ONE_TASK, s.sh, s.reqs[1], ch, 4, 6);
    PollToSettle(ch);
    SettleToDone(ch);
    Traces.SoloRuns(ONE_TASK, start + [Begin(1, CheckResult("a"))], 1, ch, 10);
    assert s.reqs[1 := Done] == map[0 := pc, 1 := Done];
  }

  lemma LatestLate()
    ensures KEY in Latest(LATE_LOG) && Latest(LATE_LOG)[KEY].state == Acknowledged
  {
    var mid := DONE_LOG + [Logs(Acknowledged)];
    assert LATE_LOG == mid + [Note(TaskDelegated, "a")];
    assert LATE_LOG[..|LATE_LOG| - 1] == mid && mid[..|mid| - 1] == DONE_LOG;
    assert mid[|mid| - 1] == Logs(Acknowledged);
    assert KEY != "";
  }

  lemma LateRunEnds()
    ensures Exec(ONE_TASK, LateRun()) == State(Snapshot(LATE_LOG, Completed, {KEY}), map[0 := Done, 1 := Done])
  {
    hide Do, Act, Exec;
    var ch := GOOD_CH;
    var checked := Traces.Many(0, ch, 9) + [Begin(1, CheckResult("a"))] + Traces.Many(1, ch, 10);
    LateRunCheck();
    LogLate(ch);
    Traces.SoloRuns(ONE_TASK, checked, 0, ch, 2);
    var pc := InJob(JOB, LogMark(Acknowledged, Some(Cmd(Acknowledged))));
    assert map[0 := pc, 1 := Done][0 := Done] == map[0 := Done, 1 := Done];
  }

  /** What a restart makes of a log in which the key's last event is known. */
  lemma RestartReads(steps: seq<Step>, state: CommandState)
    requires KEY in Latest(Exec(ONE_TASK, steps).sh.log) && Latest(Exec(ONE_TASK, steps).sh.log)[KEY].state == state
    ensures var back := Recover(ONE_TASK, Exec(ONE_TASK, steps).sh.log);
            KEY in back.commands && back.commands[KEY].state == state
  {
    OneTaskIsGood();
    InvAlways(ONE_TASK, steps);
    RecoveryNeverFails(ONE_TASK, Exec(ONE_TASK, steps).sh);
  }

  /** All requests are done and every append succeeded, the task is completed and logged as completed, and a restart
      would bring its command back as merely acknowledged: ready to be polled and completed once more. */
  lemma LateAcknowledgementWins()
    ensures GoodConfig(ONE_TASK) && AtRest(Exec(ONE_TASK, LateRun()))
    ensures var sh := Exec(ONE_TASK, LateRun()).sh;
            && KEY in sh.skewed
            && KEY in sh.ctl.commands && sh.ctl.commands[KEY].state == Completed
            && TaskCompleted("a") in sh.log
            && KEY in Recover(ONE_TASK, sh.log).commands && Recover(ONE_TASK, sh.log).commands[KEY].state == Acknowledged
  {
    OneTaskIsGood();
    LateRunEnds();
    LatestLate();
    RestartReads(LateRun(), Acknowledged);
    assert DONE_LOG[4] == TaskCompleted("a") && LATE_LOG[4] == DONE_LOG[4];
  }

  // ---- a poll that swallows an unknown outcome

  const UNSURE_CH := Choice(true, Unknown, NoResult, 0, KEY)
  const NAMELESS := CommandEvent(ByCommand, Dispatch, OutcomeUnknown, None)
  const LOST_LOG := ASKED_LOG + [NAMELESS, Note(DispatchInterrupted, "")]

  /** The start is left between the two transitions of an unknown outcome; a check polls the command; the second
      transition is refused, its event carries no command, and the check hands the command back. */
  function LostRun(): seq<Step> {
    Traces.Many(0, UNSURE_CH, 9) + [Begin(1, CheckResult("a"))] + Traces.Many(1, UNSURE_CH, 2) + Traces.Many(0, UNSURE_CH, 3)
    + Traces.Many(1, UNSURE_CH, 2)
  }

  lemma TakeUnsure(ch: Choice)
    requires ch.now == 0
    ensures Traces.Solo(ONE_TASK, Asked(Unknown).0, Asked(Unknown).1, ch, 1)
         == (Snapshot(ASKED_LOG, Acknowledged, {}), InJob(JOB, Mark(OutcomeUnknown)))
  {
    MoveIn(Requested, Acknowledged, 0);
    Traces.SoloStep(ONE_TASK, Asked(Unknown).0, Asked(Unknown).1, ch, Snapshot(ASKED_LOG, Acknowledged, {}),
             InJob(JOB, Mark(OutcomeUnknown)), 0);
  }

  lemma LostRunStart()
    ensures Exec(ONE_TASK, Traces.Many(0, UNSURE_CH, 9))
         == State(Snapshot(ASKED_LOG, Acknowledged, {}), map[0 := InJob(JOB, Mark(OutcomeUnknown))])
  {
    hide Do, Act;
    var ch := UNSURE_CH;
    var pc := InJob(JOB, Mark(OutcomeUnknown));
    Traces.SoloChain(ONE_TASK, Init(ONE_TASK).sh, Init(ONE_TASK).reqs[0], ch, 8, 1);
    StartToAsked(ch);
    TakeUnsure(ch);
    Traces.SoloRuns(ONE_TASK, [], 0, ch, 9);
    assert [] + Traces.Many(0, ch, 9) == Traces.Many(0, ch, 9);
    assert Init(ONE_TASK).reqs[0 := pc] == map[0 := pc];
  }

  lemma LostRunPoll()
    ensures Exec(ONE_TASK, Traces.Many(0, UNSURE_CH, 9) + [Begin(1, CheckResult("a"))] + Traces.Many(1, UNSURE_CH, 2))
         == State(Snapshot(ASKED_LOG, Polling, {}),
                  map[0 := InJob(JOB, Mark(OutcomeUnknown)), 1 := InCheck("a", Polled(KEY))])
  {
    hide Exec, AfterJob, Reboot;
    var ch := UNSURE_CH;
    var start := Traces.Many(0, ch, 9);
    var pc := InJob(JOB, Mark(OutcomeUnknown));
    LostRunStart();
    Traces.ExecAfter(ONE_TASK, start, Begin(1, CheckResult("a")));
    var sh := Snapshot(ASKED_LOG, Acknowledged, {});
    assert Exec(ONE_TASK, start + [Begin(1, CheckResult("a"))]) == State(sh, map[0 := pc, 1 := InCheck("a", Picking)]);
    PollTakes(ch);
    Traces.SoloStep(ONE_TASK, sh, InCheck("a", Picking), ch, sh, InCheck("a", Poll(KEY)), 1);
    Traces.SoloStep(ONE_TASK, sh, InCheck("a", Poll(KEY)), ch, Snapshot(ASKED_LOG, Polling, {}), InCheck("a", Polled(KEY)), 0);
    Traces.SoloRuns(ONE_TASK, start + [Begin(1, CheckResult("a"))], 1, ch, 2);
    assert map[0 := pc, 1 := InCheck("a", Picking)][1 := InCheck("a", Polled(KEY))]
        == map[0 := pc, 1 := InCheck("a", Polled(KEY))];
  }

  lemma MarkRefused(ch: Choice)
    ensures Act(ONE_TASK, Snapshot(ASKED_LOG, Polling, {}), InJob(JOB, Mark(OutcomeUnknown)), ch)
         == (Snapshot(ASKED_LOG, Polling, {KEY}), InJob(JOB, LogMark(OutcomeUnknown, None)))
  {
    hide CheckOp, AfterPass, Latest;
    assert {} + {KEY} == {KEY};
  }

  lemma LogNameless(ch: Choice)
    requires ch.appended
    ensures Traces.Solo(ONE_TASK, Snapshot(ASKED_LOG, Polling, {KEY}), InJob(JOB, LogMark(OutcomeUnknown, None)), ch, 2)
         == (Snapshot(LOST_LOG, Polling, {KEY}), Done)
  {
    hide CheckOp, AfterPass, AfterReconcile, RequestOnce, Rotate, Transition;
    var sh, mid := Snapshot(ASKED_LOG, Polling, {KEY}), Snapshot(ASKED_LOG + [NAMELESS], Polling, {KEY});
    var note := Notes([Note(DispatchInterrupted, "")], Proceed(JOB), Fail(JOB));
    assert ASKED_LOG + [NAMELESS] + [Note(DispatchInterrupted, "")] == LOST_LOG;
    assert Walk(ONE_TASK, [STARTED], 1, FromStart) == Done;
    Traces.SoloStep(ONE_TASK, sh, InJob(JOB, LogMark(OutcomeUnknown, None)), ch, mid, note, 1);
    Traces.SoloStep(ONE_TASK, mid, note, ch, Snapshot(LOST_LOG, Polling, {KEY}), Done, 0);
  }

  lemma LoseUnknown(ch: Choice)
    requires ch.appended
    ensures Traces.Solo(ONE_TASK, Snapshot(ASKED_LOG, Polling, {}), InJob(JOB, Mark(OutcomeUnknown)), ch, 3)
         == (Snapshot(LOST_LOG, Polling, {KEY}), Done)
  {
    hide Act;
    var sh := Snapshot(ASKED_LOG, Polling, {});
    MarkRefused(ch);
    LogNameless(ch);
    Traces.SoloStep(ONE_TASK, sh, InJob(JOB, Mark(OutcomeUnknown)), ch, Snapshot(ASKED_LOG, Polling, {KEY}),
             InJob(JOB, LogMark(OutcomeUnknown, None)), 2);
  }

  lemma HandBack(ch: Choice)
    requires ch.observed == NoResult && ch.now == 0
    ensures Traces.Solo(ONE_TASK, Snapshot(LOST_LOG, Polling, {KEY}), InCheck("a", Polled(KEY)), ch, 2)
         == (Snapshot(LOST_LOG, Acknowledged, {KEY}), Done)
  {
    hide AfterReconcile, AfterDecide;
    var sh := Snapshot(LOST_LOG, Polling, {KEY});
    MoveIn(Polling, Acknowledged, 0);
    Traces.SoloStep(ONE_TASK, sh, InCheck("a", Polled(KEY)), ch, sh, InCheck("a", Unpoll(KEY)), 1);
    Traces.SoloStep(ONE_TASK, sh, InCheck("a", Unpoll(KEY)), ch, Snapshot(LOST_LOG, Acknowledged, {KEY}), Done, 0);
  }

  lemma LostRunEnds()
    ensures Exec(ONE_TASK, LostRun()) == State(Snapshot(LOST_LOG, Acknowledged, {KEY}), map[0 := Done, 1 := Done])
  {
    hide Do, Act, Exec;
    var ch := UNSURE_CH;
    var polled := Traces.Many(0, ch, 9) + [Begin(1, CheckResult("a"))] + Traces.Many(1, ch, 2);
    var pc, check := InJob(JOB, Mark(OutcomeUnknown)), InCheck("a", Polled(KEY));
    LostRunPoll();
    LoseUnknown(ch);
    Traces.SoloRuns(ONE_TASK, polled, 0, ch, 3);
    assert map[0 := pc, 1 := check][0 := Done] == map[0 := Done, 1 := check];
    HandBack(ch);
    Traces.SoloRuns(ONE_TASK, polled + Traces.Many(0, ch, 3), 1, ch, 2);
    assert map[0 := Done, 1 := check][1 := Done] == map[0 := Done, 1 := Done];
  }

  lemma LatestLost()
    ensures KEY in Latest(LOST_LOG) && Latest(LOST_LOG)[KEY].state == Requested
  {
    LatestAsked();
    var mid := ASKED_LOG + [NAMELESS];
    assert LOST_LOG[..|LOST_LOG| - 1] == mid && mid[..|mid| - 1] == ASKED_LOG;
  }

  /** All requests are done and every append succeeded; the command counts as acknowledged in memory and, after a restart,
      as requested: a state nothing moves it out of, since results are asked of acknowledged commands and reconciliation
      of unknown ones. */
  lemma UnknownOutcomeIsLost()
    ensures GoodConfig(ONE_TASK) && AtRest(Exec(ONE_TASK, LostRun()))
    ensures var sh := Exec(ONE_TASK, LostRun()).sh;
            && KEY in sh.skewed
            && KEY in sh.ctl.commands && sh.ctl.commands[KEY].state == Acknowledged
            && KEY in Recover(ONE_TASK, sh.log).commands && Recover(ONE_TASK, sh.log).commands[KEY].state == Requested
  {
    OneTaskIsGood();
    LostRunEnds();
    LatestLost();
    RestartReads(LostRun(), Requested);
  }
}
