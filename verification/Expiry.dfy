/** Approvals expire, and an expired request is never put again: a guarded task whose request was not answered in time is
    never sent. */
module Expiry {
  import opened Model
  import opened Control
  import opened Actions
  import opened Protocol
  import opened CommandSafety
  import opened ScheduleSafety
  import ApprovalSafety
  import Traces

  // ---- a clock that never runs backwards

  ghost predicate Ticks(steps: seq<Step>) {
    forall i, j | 0 <= i < j < |steps| && steps[i].Advance? && steps[j].Advance? :: steps[i].ch.now <= steps[j].ch.now
  }

  ghost predicate NotBefore(steps: seq<Step>, now: int) {
    forall n | 0 <= n < |steps| && steps[n].Advance? :: now <= steps[n].ch.now
  }

  ghost predicate NotAfter(steps: seq<Step>, now: int) {
    forall n | 0 <= n < |steps| && steps[n].Advance? :: steps[n].ch.now <= now
  }

  lemma TicksOn(steps: seq<Step>, more: seq<Step>, now: int)
    requires Ticks(steps) && NotAfter(steps, now) && Ticks(more) && NotBefore(more, now)
    ensures Ticks(steps + more)
  {
  }

  // ---- requests for approval

  /** Asked for and not decided. */
  ghost predicate Open(log: seq<Event>, d: Digest) {
    IsRequested(log, d) && !IsDecided(log, d)
  }

  ghost predicate ExpiredBy(log: seq<Event>, d: Digest, now: int) {
    var e := LastRequest(log, d);
    e.Some? && e.value.ApprovalRequested? && e.value.expires <= now
  }

  lemma LastRequestAppend(log: seq<Event>, e: Event, d: Digest)
    ensures LastRequest(log + [e], d) == if e.ApprovalRequested? && e.digest == d then Some(e) else LastRequest(log, d)
  {
    assert (log + [e])[..|log|] == log;
  }

  lemma {:induction false} LastRequestExists(log: seq<Event>, d: Digest)
    requires IsRequested(log, d)
    ensures LastRequest(log, d).Some?
    decreases |log|
  {
    var e := log[|log| - 1];
    if !(e.ApprovalRequested? && e.digest == d) {
      var x :| x in log && x.ApprovalRequested? && x.digest == d;
      assert log == log[..|log| - 1] + [e];
      assert x in log[..|log| - 1];
      LastRequestExists(log[..|log| - 1], d);
    }
  }

  /** A request for approval can be answered for a quarter of an hour, less what is cut off of the second. */
  lemma RequestsLastAQuarter(cfg: Config, steps: seq<Step>, r: nat, ch: Choice)
    requires GoodConfig(cfg) && r in Exec(cfg, steps).reqs
    ensures var before, after := Exec(cfg, steps).sh.log, Exec(cfg, steps + [Advance(r, ch)]).sh.log;
            after == before
            || (|after| == |before| + 1 && before == after[..|before|]
                && (after[|before|].ApprovalRequested? ==>
                      ch.now + 899_000_000_000 < after[|before|].expires <= ch.now + 900_000_000_000))
  {
    hide Exec, After, OpOf, RequestOnce, Rotate, Transition, Commit, AfterReport, AfterRefusal, Global, ExpiryAt;
    Traces.ExecAfter(cfg, steps, Advance(r, ch));
    InvAlways(cfg, steps);
    var s := Exec(cfg, steps);
    assert Local(cfg, s.sh, s.reqs[r]);
    RequestExpires(cfg, s.reqs[r], ch);
  }

  lemma RequestExpires(cfg: Config, pc: Pc, ch: Choice)
    requires Shaped(cfg, pc)
    ensures var op := OpOf(cfg, pc, ch.now);
            op.Append? && op.e.ApprovalRequested? ==>
              ch.now + 899_000_000_000 < op.e.expires <= ch.now + 900_000_000_000
  {
    CutToSecond(ch.now + 900_000_000_000);
    if pc.Notes? && pc.events != [] { assert pc.events[0] in pc.events; }
  }

  lemma CutToSecond(t: int)
    ensures t - 1_000_000_000 < t / 1_000_000_000 * 1_000_000_000 <= t
  {
  }

  /** A request made now has not expired now. */
  lemma FreshIsUnexpired(now: int)
    ensures now < ExpiryAt(now)
  {
  }

  lemma OpenAppend(log: seq<Event>, e: Event, d: Digest)
    requires Open(log, d) && !(e.ApprovalDecided? && e.digest == d)
    ensures Open(log + [e], d)
  {
    var x :| x in log && x.ApprovalRequested? && x.digest == d;
    assert x in log + [e];
    ApprovalSafety.DecidedAppend(log, e, d);
  }

  // ---- nobody asks again and nobody decides

  ghost predicate NextKnows(next: Next, d: Digest) {
    match next
    case ToWalk(seen, _, _) => IsRequested(seen, d)
    case ToCreate(job) => job.DispatchJob? ==> IsRequested(job.seen, d)
    case _ => true
  }

  /** Whoever works from an earlier look at the log has seen the request, nobody is about to put it again, and nobody has
      passed the review of a decision on it. */
  ghost predicate Knows(cfg: Config, pc: Pc, d: Digest) {
    match pc
    case Notes(events, next, abort) =>
      && NextKnows(next, d) && NextKnows(abort, d)
      && forall e | e in events :: !e.ApprovalRequested? && !e.ApprovalDecided?
    case InPass(_, Routing(seen, _)) => IsRequested(seen, d)
    case InPass(_, Asking(_, i)) => DigestAt(cfg, i) != d
    case InJob(job, _) => job.DispatchJob? ==> IsRequested(job.seen, d)
    case InDecision(x, _, decide) => x == d ==> decide.ReadRequest? || decide.Answered? || decide.Releasing?
    case _ => true
  }

  ghost predicate Lapsed(cfg: Config, s: State, d: Digest, now: int) {
    Open(s.sh.log, d) && ExpiredBy(s.sh.log, d, now) && forall r | r in s.reqs :: Knows(cfg, s.reqs[r], d)
  }

  lemma WalkKnows(cfg: Config, seen: seq<Event>, i: nat, cont: Cont, d: Digest)
    requires IsRequested(seen, d)
    ensures Knows(cfg, Walk(cfg, seen, i, cont), d)
  {
    WalkStops(cfg, seen, i, cont);
  }

  lemma GotoKnows(cfg: Config, next: Next, d: Digest)
    requires NextKnows(next, d)
    ensures Knows(cfg, Goto(cfg, next), d)
  {
    if next.ToWalk? { WalkKnows(cfg, next.seen, next.i, next.cont, d); }
  }

  lemma JobKnows(cfg: Config, job: Job, stage: JobStage, out: Outcome, d: Digest)
    requires Knows(cfg, InJob(job, stage), d)
    ensures Knows(cfg, AfterJob(cfg, job, stage, out), d)
  {
    hide Goto, IsRequested;
    GotoKnows(cfg, Proceed(job), d);
    GotoKnows(cfg, Fail(job), d);
  }

  lemma PassKnows(cfg: Config, cont: Cont, pass: PassStage, out: Outcome, d: Digest)
    requires Knows(cfg, InPass(cont, pass), d) && (out.Events? ==> IsRequested(out.events, d))
    ensures Knows(cfg, AfterPass(cfg, cont, pass, out), d)
  {
    hide Walk;
    if out.Events? { WalkKnows(cfg, out.events, 0, cont, d); }
  }

  /** A review of the expired request lets no decision through. */
  lemma DecideKnows(cfg: Config, log: seq<Event>, x: Digest, grant: bool, decide: DecideStage, out: Outcome, now: int, d: Digest)
    requires Knows(cfg, InDecision(x, grant, decide), d) && ExpiredBy(log, d, now) && (out.Events? ==> out.events == log)
    ensures Knows(cfg, AfterDecide(x, grant, decide, out, now), d)
  {
    hide LastRequest, IsRequested;
  }

  lemma OthersKnow(cfg: Config, pc: Pc, out: Outcome, ch: Choice, d: Digest)
    requires Knows(cfg, pc, d) && (pc.Notes? || pc.InCheck? || pc.InReconcile? || pc.Done?)
    ensures Knows(cfg, After(cfg, pc, out, ch), d)
  {
    hide Goto, IsRequested;
    if pc.Notes? {
      GotoKnows(cfg, pc.next, d);
      GotoKnows(cfg, pc.abort, d);
    }
  }

  lemma PointKnows(cfg: Config, sh: Shared, pc: Pc, ch: Choice, d: Digest)
    requires Knows(cfg, pc, d) && IsRequested(sh.log, d) && ExpiredBy(sh.log, d, ch.now)
    ensures Knows(cfg, Act(cfg, sh, pc, ch).1, d)
  {
    hide AfterJob, AfterPass, AfterDecide, AfterCheck, AfterNotes, AfterReconcile, Knows, ExpiredBy, IsRequested, JobOp, CheckOp;
    var out := Effect(cfg, sh, OpOf(cfg, pc, ch.now), ch).1;
    match pc
    case InJob(job, stage) => JobKnows(cfg, job, stage, out, d);
    case InPass(cont, pass) => PassKnows(cfg, cont, pass, out, d);
    case InDecision(x, grant, decide) => DecideKnows(cfg, sh.log, x, grant, decide, out, ch.now, d);
    case _ => OthersKnow(cfg, pc, out, ch, d);
  }

  /** Nothing a request appends asks for the approval again or decides it. */
  lemma NothingAsked(cfg: Config, pc: Pc, now: int, d: Digest)
    requires Knows(cfg, pc, d)
    ensures var op := OpOf(cfg, pc, now);
            op.Append? ==>
              !(op.e.ApprovalRequested? && op.e.digest == d) && !(op.e.ApprovalDecided? && op.e.digest == d)
  {
    hide IsRequested;
    if pc.Notes? { assert pc.events != [] ==> pc.events[0] in pc.events; }
  }

  lemma AppendLapses(cfg: Config, sh: Shared, pc: Pc, ch: Choice, d: Digest, now: int)
    requires Knows(cfg, pc, d) && Open(sh.log, d) && ExpiredBy(sh.log, d, now)
    ensures var next := Act(cfg, sh, pc, ch).0; Open(next.log, d) && ExpiredBy(next.log, d, now)
  {
    hide After, OpOf, Knows, Open, LastRequest;
    var op := OpOf(cfg, pc, ch.now);
    NothingAsked(cfg, pc, ch.now, d);
    if op.Append? && ch.appended {
      OpenAppend(sh.log, Scrub(cfg, op.e), d);
      LastRequestAppend(sh.log, Scrub(cfg, op.e), d);
    }
  }

  lemma StepLapses(cfg: Config, s: State, step: Step, d: Digest, now: int)
    requires Lapsed(cfg, s, d, now) && (step.Advance? ==> now <= step.ch.now)
    ensures Lapsed(cfg, Do(cfg, s, step), d, now)
  {
    hide Act, Recover, LastRequest, Open, IsRequested;
    match step
    case Begin(r, request) => if Do(cfg, s, step) != s { assert Knows(cfg, Entry(request), d); }
    case Advance(r, ch) =>
      if r in s.reqs {
        AppendLapses(cfg, s.sh, s.reqs[r], ch, d, now);
        assert IsRequested(s.sh.log, d) by { OpenIsRequested(s.sh.log, d); }
        PointKnows(cfg, s.sh, s.reqs[r], ch, d);
      }
    case Restart(appended) =>
      OpenAppend(s.sh.log, Note(DispatchInterrupted, ""), d);
      LastRequestAppend(s.sh.log, Note(DispatchInterrupted, ""), d);
  }

  lemma OpenIsRequested(log: seq<Event>, d: Digest)
    requires Open(log, d)
    ensures IsRequested(log, d)
  {
  }

  lemma {:induction false} LapsedThroughout(cfg: Config, steps: seq<Step>, more: seq<Step>, d: Digest, now: int)
    requires Lapsed(cfg, Exec(cfg, steps), d, now) && NotBefore(more, now)
    ensures Lapsed(cfg, Exec(cfg, steps + more), d, now)
    decreases |more|
  {
    hide Do, Exec, Lapsed;
    if more == [] {
      assert steps + more == steps;
    } else {
      var rest, last := more[..|more| - 1], more[|more| - 1];
      assert forall n | 0 <= n < |rest| :: rest[n] == more[n];
      LapsedThroughout(cfg, steps, rest, d, now);
      StepLapses(cfg, Exec(cfg, steps + rest), last, d, now);
      Traces.ExecAfter(cfg, steps + rest, last);
      assert steps + more == steps + rest + [last];
    }
  }

  // ---- what follows

  /** A request for approval that is open at a moment of rest and has expired by then is open for good: no run that goes on
      from there on a clock that goes on decides it, or puts it again to expire later, restarts included. */
  lemma ExpiredIsForever(cfg: Config, steps: seq<Step>, more: seq<Step>, d: Digest, now: int)
    requires AllDone(Exec(cfg, steps)) && Open(Exec(cfg, steps).sh.log, d) && ExpiredBy(Exec(cfg, steps).sh.log, d, now)
    requires NotBefore(more, now)
    ensures Open(Exec(cfg, steps + more).sh.log, d) && ExpiredBy(Exec(cfg, steps + more).sh.log, d, now)
  {
    hide Do, Exec, Open, ExpiredBy;
    LapsedThroughout(cfg, steps, more, d, now);
  }

  /** The guarded task it was for is never requested, before or after. */
  lemma ExpiredTaskIsNeverRequested(cfg: Config, steps: seq<Step>, more: seq<Step>, i: nat, now: int, j: nat)
    requires GoodConfig(cfg) && PlanDistinct(cfg) && i < |cfg.plan| && cfg.plan[i].guarded
    requires var s := Exec(cfg, steps);
             AllDone(s) && Open(s.sh.log, DigestAt(cfg, i)) && ExpiredBy(s.sh.log, DigestAt(cfg, i), now)
    requires NotBefore(more, now)
    requires j < |Exec(cfg, steps + more).sh.log| && IsDispatchRequest(Exec(cfg, steps + more).sh.log[j])
    ensures Exec(cfg, steps + more).sh.log[j].cmd.value.task != cfg.plan[i].id
  {
    hide Do, Exec;
    ExpiredIsForever(cfg, steps, more, DigestAt(cfg, i), now);
    var log := Exec(cfg, steps + more).sh.log;
    assert forall e | e in log[..j] :: e in log;
    if log[j].cmd.value.task == cfg.plan[i].id { RequestFollowsClearance(cfg, steps + more, j, i); }
  }

  // ---- a run that gets there

  const PUBLISH := Action("publish", "a", map[], map[], map[], "capability/v1", "dispatch:a")
  const ONE_GUARDED := Config("r", [Planned("a", [], Some("x"), true, PUBLISH)], true, 10, (s: string) => s)
  const ZERO := Choice(true, Accepted, ResultCompleted, 0, "")

  /** The run starts and asks for the approval, and nobody answers. */
  const UNANSWERED := Traces.Many(0, ZERO, 4)

  /** The run's log after `n` of its first three events. */
  ghost function Logged(n: nat): Shared
    requires n <= 3
  {
    Init(ONE_GUARDED).sh.(log := [
      Note(DispatchStarted, ""), Note(RoutingDecided, "a"),
      ApprovalRequested("a", PUBLISH, DigestOf(PUBLISH), "dispatch:a", ExpiryAt(0), ["local-owner"])][..n])
  }

  lemma RoutingAsks()
    ensures Act(ONE_GUARDED, Logged(1), InPass(FromStart, Routing(Logged(1).log, 0)), ZERO)
         == (Logged(2), InPass(FromStart, Asking(Logged(1).log, 0)))
  {
    hide AfterJob, AfterCheck, AfterReconcile, AfterDecide, Exec;
    var started := Logged(1).log;
    assert started == [Note(DispatchStarted, "")];
    assert started + [Note(RoutingDecided, "a")] == Logged(2).log;
    assert !IsGranted(started, DigestOf(PUBLISH)) && !IsRequested(started, DigestOf(PUBLISH));
    assert DigestAt(ONE_GUARDED, 0) == DigestOf(PUBLISH);
  }

  lemma StartRoutes()
    ensures Traces.Solo(ONE_GUARDED, Init(ONE_GUARDED).sh, Init(ONE_GUARDED).reqs[0], ZERO, 2)
         == (Logged(1), InPass(FromStart, Routing(Logged(1).log, 0)))
  {
    hide AfterJob, AfterCheck, AfterReconcile, AfterDecide, Exec;
    var cfg, init, started := ONE_GUARDED, Init(ONE_GUARDED), Logged(1).log;
    assert started == [] + [Note(DispatchStarted, "")];
    assert !IsCompleted(started, "a") && !IsActive(started, "a");
    assert Walk(cfg, started, 0, FromStart) == InPass(FromStart, Routing(started, 0));
    Traces.SoloStep(cfg, init.sh, init.reqs[0], ZERO, Logged(1), InPass(FromStart, Reading), 1);
    Traces.SoloStep(cfg, Logged(1), InPass(FromStart, Reading), ZERO, Logged(1), InPass(FromStart, Routing(started, 0)), 0);
  }

  lemma AskingEnds(seen: seq<Event>)
    ensures Act(ONE_GUARDED, Logged(2), InPass(FromStart, Asking(seen, 0)), ZERO) == (Logged(3), Done)
  {
    hide AfterJob, AfterCheck, AfterReconcile, AfterDecide, Exec;
    assert DigestAt(ONE_GUARDED, 0) == DigestOf(PUBLISH);
    assert Logged(2).log + [Logged(3).log[2]] == Logged(3).log;
  }

  lemma LoggedIsOpen()
    ensures Open(Logged(3).log, DigestOf(PUBLISH))
    ensures LastRequest(Logged(3).log, DigestOf(PUBLISH)) == Some(Logged(3).log[2])
  {
    assert Logged(2).log + [Logged(3).log[2]] == Logged(3).log;
    LastRequestAppend(Logged(2).log, Logged(3).log[2], DigestOf(PUBLISH));
    assert Logged(3).log[2] in Logged(3).log;
  }

  lemma UnansweredAsks()
    ensures var s := Exec(ONE_GUARDED, UNANSWERED);
            && AllDone(s) && !s.sh.fatal && Open(s.sh.log, DigestOf(PUBLISH))
            && ExpiredBy(s.sh.log, DigestOf(PUBLISH), ExpiryAt(0)) && !ExpiredBy(s.sh.log, DigestOf(PUBLISH), ExpiryAt(0) - 1)
  {
    hide Act, Open, LastRequest;
    var cfg, init, routing := ONE_GUARDED, Init(ONE_GUARDED), InPass(FromStart, Routing(Logged(1).log, 0));
    StartRoutes();
    RoutingAsks();
    AskingEnds(Logged(1).log);
    LoggedIsOpen();
    Traces.SoloChain(cfg, init.sh, init.reqs[0], ZERO, 2, 2);
    Traces.SoloStep(cfg, Logged(1), routing, ZERO, Logged(2), InPass(FromStart, Asking(Logged(1).log, 0)), 1);
    Traces.SoloStep(cfg, Logged(2), InPass(FromStart, Asking(Logged(1).log, 0)), ZERO, Logged(3), Done, 0);
    Traces.SoloRuns(cfg, [], 0, ZERO, 4);
    assert [] + UNANSWERED == UNANSWERED;
  }

  /** A quarter of an hour later the task is lost: whatever is asked for and whenever the server restarts, no task of this run
      is ever sent. */
  lemma UnansweredIsLost(more: seq<Step>)
    requires NotBefore(more, ExpiryAt(0))
    ensures forall e | e in Exec(ONE_GUARDED, UNANSWERED + more).sh.log :: !IsDispatchRequest(e)
  {
    hide Exec, Do;
    UnansweredAsks();
    var log := Exec(ONE_GUARDED, UNANSWERED + more).sh.log;
    forall j | 0 <= j < |log| ensures !IsDispatchRequest(log[j]) {
      if IsDispatchRequest(log[j]) {
        var i := RequestsArePlanned(ONE_GUARDED, UNANSWERED + more, j);
        ExpiredTaskIsNeverRequested(ONE_GUARDED, UNANSWERED, more, i, ExpiryAt(0), j);
      }
    }
  }
}
