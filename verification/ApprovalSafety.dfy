/** Approvals over whole runs: one decision per digest, however requests interleave, appends fail or the server restarts;
    and every decision answers a logged request for exactly the action the digest names. */
module ApprovalSafety {
  import opened Model
  import opened Control
  import opened Actions
  import opened Protocol
  import opened CommandSafety

  ghost predicate OneDecision(log: seq<Event>) {
    forall i, j | 0 <= i < j < |log| && log[i].ApprovalDecided? && log[j].ApprovalDecided? :: log[i].digest != log[j].digest
  }

  ghost predicate Asks(e: Event, d: Digest) {
    e.ApprovalRequested? && e.digest == d && DigestOf(e.action) == d
  }

  /** Some request in the log carries an action whose digest is `d`. */
  ghost predicate Asked(log: seq<Event>, d: Digest) {
    exists i | 0 <= i < |log| :: Asks(log[i], d)
  }

  ghost predicate DecisionsAsked(log: seq<Event>) {
    forall j | 0 <= j < |log| && log[j].ApprovalDecided? :: Asked(log[..j], log[j].digest)
  }

  /** The digest whose claim this request holds. */
  function ClaimHeld(pc: Pc): Option<Digest> {
    if pc.InDecision? && (pc.decide.LogDecision? || pc.decide.Releasing?) then Some(pc.digest) else None
  }

  ghost predicate DecisionLocal(sh: Shared, pc: Pc) {
    match pc
    case InDecision(d, _, decide) =>
      (match decide
       case ReadRequest(_) => true
       case Answered(granted) => ApprovalDecided(d, granted) in sh.log
       case Claiming(_) => Asked(sh.log, d) && (IsDecided(sh.log, d) ==> d in sh.claims)
       case LogDecision(_) => Asked(sh.log, d) && !IsDecided(sh.log, d) && d in sh.claims
       case Releasing => !IsDecided(sh.log, d) && d in sh.claims)
    case _ => true
  }

  ghost predicate ClaimsApart(a: Pc, b: Pc) {
    ClaimHeld(a).Some? && ClaimHeld(b).Some? ==> ClaimHeld(a) != ClaimHeld(b)
  }

  ghost predicate DecisionInv(cfg: Config, s: State) {
    && OneDecision(s.sh.log) && DecisionsAsked(s.sh.log)
    && (forall r | r in s.reqs :: Shaped(cfg, s.reqs[r]) && DecisionLocal(s.sh, s.reqs[r]))
    && (forall r, q | r in s.reqs && q in s.reqs && r != q :: ClaimsApart(s.reqs[r], s.reqs[q]))
  }

  // ---- growth of the log

  lemma DecidedAppend(log: seq<Event>, e: Event, d: Digest)
    ensures IsDecided(log + [e], d) <==> IsDecided(log, d) || (e.ApprovalDecided? && e.digest == d)
  {
    assert forall x :: x in log + [e] <==> x in log || x == e;
    assert e.ApprovalDecided? ==> e == ApprovalDecided(e.digest, true) || e == ApprovalDecided(e.digest, false);
  }

  lemma AskedGrows(log: seq<Event>, more: seq<Event>, d: Digest)
    ensures Asked(log, d) ==> Asked(log + more, d)
  {
    if Asked(log, d) {
      var i :| 0 <= i < |log| && Asks(log[i], d);
      assert (log + more)[i] == log[i];
    }
  }

  lemma AppendKeepsDecisions(log: seq<Event>, e: Event)
    requires OneDecision(log) && DecisionsAsked(log)
    requires e.ApprovalDecided? ==> !IsDecided(log, e.digest) && Asked(log, e.digest)
    ensures OneDecision(log + [e]) && DecisionsAsked(log + [e])
  {
    var all := log + [e];
    forall i, j | 0 <= i < j < |all| && all[i].ApprovalDecided? && all[j].ApprovalDecided?
      ensures all[i].digest != all[j].digest
    {
      if j == |log| {
        assert all[i] in log;
        assert all[i] == ApprovalDecided(all[i].digest, true) || all[i] == ApprovalDecided(all[i].digest, false);
      }
    }
    forall j | 0 <= j < |all| && all[j].ApprovalDecided? ensures Asked(all[..j], all[j].digest) {
      if j < |log| { assert all[..j] == log[..j]; } else { assert all[..j] == log; }
    }
  }

  // ---- one step

  /** Decisions, claims and releases come from the request that holds the claim. */
  ghost predicate DecisionBacked(pc: Pc, op: Op) {
    match op
    case Append(e) => e.ApprovalDecided? ==> pc.InDecision? && pc.decide.LogDecision? && pc.digest == e.digest
    case Claim(d) => pc.InDecision? && pc.decide.Claiming? && pc.digest == d
    case Release(d) => pc.InDecision? && pc.decide.Releasing? && pc.digest == d
    case _ => true
  }

  lemma OpDecisionBacked(cfg: Config, pc: Pc, now: int)
    requires Shaped(cfg, pc)
    ensures DecisionBacked(pc, OpOf(cfg, pc, now))
  {
    match pc
    case Notes(events, _, _) => assert events != [] ==> events[0] in events;
    case _ =>
  }

  lemma ScrubKind(cfg: Config, e: Event)
    ensures Scrub(cfg, e).ApprovalDecided? <==> e.ApprovalDecided?
    ensures e.ApprovalDecided? ==> Scrub(cfg, e) == e
  {
  }

  lemma EffectKeepsDecisions(cfg: Config, sh: Shared, pc: Pc, op: Op, ch: Choice)
    requires OneDecision(sh.log) && DecisionsAsked(sh.log) && DecisionLocal(sh, pc) && DecisionBacked(pc, op)
    ensures var next := Effect(cfg, sh, op, ch).0;
            OneDecision(next.log) && DecisionsAsked(next.log)
  {
    if op.Append? && ch.appended {
      ScrubKind(cfg, op.e);
      AppendKeepsDecisions(sh.log, Scrub(cfg, op.e));
    }
  }

  lemma EffectKeepsOtherDecision(cfg: Config, sh: Shared, pc: Pc, op: Op, ch: Choice, other: Pc)
    requires DecisionLocal(sh, pc) && DecisionBacked(pc, op) && DecisionLocal(sh, other) && ClaimsApart(pc, other)
    ensures DecisionLocal(Effect(cfg, sh, op, ch).0, other)
  {
    if other.InDecision? && op.Append? && ch.appended {
      ScrubKind(cfg, op.e);
      DecidedAppend(sh.log, Scrub(cfg, op.e), other.digest);
      AskedGrows(sh.log, [Scrub(cfg, op.e)], other.digest);
    }
  }

  lemma {:induction false} LastRequestIsLogged(log: seq<Event>, d: Digest)
    ensures LastRequest(log, d).Some? ==>
              LastRequest(log, d).value in log && LastRequest(log, d).value.ApprovalRequested?
              && LastRequest(log, d).value.digest == d
    decreases |log|
  {
    if log != [] { LastRequestIsLogged(log[..|log| - 1], d); }
  }

  lemma ReviewIsAsked(sh: Shared, d: Digest, grant: bool, actor: string, now: int)
    ensures DecisionLocal(sh, Review(sh.log, d, grant, actor, now))
    ensures ClaimHeld(Review(sh.log, d, grant, actor, now)).None?
  {
    LastRequestIsLogged(sh.log, d);
    if Review(sh.log, d, grant, actor, now).InDecision? {
      var e := LastRequest(sh.log, d).value;
      var i :| 0 <= i < |sh.log| && sh.log[i] == e;
      assert Asks(sh.log[i], d);
    }
  }

  lemma DecideLands(cfg: Config, sh: Shared, d: Digest, grant: bool, decide: DecideStage, ch: Choice)
    requires DecisionLocal(sh, InDecision(d, grant, decide))
    ensures var (next, out) := Effect(cfg, sh, DecideOp(d, grant, decide), ch);
            var pc' := AfterDecide(d, grant, decide, out, ch.now);
            && DecisionLocal(next, pc')
            && (ClaimHeld(pc').Some? ==>
                  ClaimHeld(pc') == ClaimHeld(InDecision(d, grant, decide)) || (ClaimHeld(pc') == Some(d) && d !in sh.claims))
  {
    if decide.ReadRequest? { ReviewIsAsked(sh, d, grant, decide.actor, ch.now); }
  }

  /** Everywhere else a step ends at a point that holds no claim and waits for none. */
  lemma OthersHoldNoClaim(cfg: Config, pc: Pc, out: Outcome, ch: Choice)
    requires !pc.InDecision?
    ensures !After(cfg, pc, out, ch).InDecision?
  {
    match pc
    case Done =>
    case Notes(events, next, abort) =>
      GotoHoldsNoClaim(cfg, next);
      GotoHoldsNoClaim(cfg, abort);
    case InPass(cont, pass) => PassHoldsNoClaim(cfg, cont, pass, out);
    case InJob(job, stage) => JobHoldsNoClaim(cfg, job, stage, out);
    case InCheck(task, check) =>
    case InReconcile(reconcile) =>
  }

  lemma WalkHoldsNoClaim(cfg: Config, seen: seq<Event>, i: nat, cont: Cont)
    ensures !Walk(cfg, seen, i, cont).InDecision?
  {
    WalkStops(cfg, seen, i, cont);
  }

  lemma GotoHoldsNoClaim(cfg: Config, next: Next)
    ensures !Goto(cfg, next).InDecision?
  {
    if next.ToWalk? { WalkHoldsNoClaim(cfg, next.seen, next.i, next.cont); }
  }

  lemma PassHoldsNoClaim(cfg: Config, cont: Cont, pass: PassStage, out: Outcome)
    ensures !AfterPass(cfg, cont, pass, out).InDecision?
  {
    if out.Events? { WalkHoldsNoClaim(cfg, out.events, 0, cont); }
  }

  lemma JobHoldsNoClaim(cfg: Config, job: Job, stage: JobStage, out: Outcome)
    ensures !AfterJob(cfg, job, stage, out).InDecision?
  {
    GotoHoldsNoClaim(cfg, Proceed(job));
    GotoHoldsNoClaim(cfg, Fail(job));
  }

  /** A claim is kept from the point before, or taken while nobody holds it. */
  ghost predicate TakesClaim(sh: Shared, pc: Pc, pc': Pc) {
    ClaimHeld(pc').Some? ==> ClaimHeld(pc') == ClaimHeld(pc) || ClaimHeld(pc').value !in sh.claims
  }

  lemma PointDecides(cfg: Config, sh: Shared, pc: Pc, ch: Choice)
    requires DecisionLocal(sh, pc)
    ensures var (next, pc') := Act(cfg, sh, pc, ch);
            DecisionLocal(next, pc') && TakesClaim(sh, pc, pc')
  {
    hide Effect, AfterDecide, AfterJob, AfterPass, AfterCheck, AfterNotes, AfterReconcile, JobOp, CheckOp, PassOp;
    if pc.InDecision? {
      DecideLands(cfg, sh, pc.digest, pc.grant, pc.decide, ch);
    } else {
      OthersHoldNoClaim(cfg, pc, Effect(cfg, sh, OpOf(cfg, pc, ch.now), ch).1, ch);
    }
  }

  lemma ClaimsStayApart(sh: Shared, pc: Pc, pc': Pc, other: Pc)
    requires TakesClaim(sh, pc, pc') && ClaimsApart(pc, other) && DecisionLocal(sh, other)
    ensures ClaimsApart(pc', other) && ClaimsApart(other, pc')
  {
  }

  lemma AdvanceKeepsDecisions(cfg: Config, s: State, r: nat, ch: Choice)
    requires GoodConfig(cfg) && Inv(cfg, s) && DecisionInv(cfg, s) && r in s.reqs
    ensures DecisionInv(cfg, Do(cfg, s, Advance(r, ch)))
  {
    hide Effect, After, OpOf, Global, Shaped, DecisionLocal, ClaimHeld, TakesClaim, ClaimsApart;
    var pc := s.reqs[r];
    var op := OpOf(cfg, pc, ch.now);
    var (next, pc') := Act(cfg, s.sh, pc, ch);
    var after := Do(cfg, s, Advance(r, ch));
    assert after == State(next, s.reqs[r := pc']);
    AdvanceKeeps(cfg, s, r, ch);
    assert Local(cfg, next, after.reqs[r]);
    OpDecisionBacked(cfg, pc, ch.now);
    EffectKeepsDecisions(cfg, s.sh, pc, op, ch);
    PointDecides(cfg, s.sh, pc, ch);
    forall q | q in s.reqs && q != r
      ensures DecisionLocal(next, s.reqs[q]) && ClaimsApart(pc', s.reqs[q]) && ClaimsApart(s.reqs[q], pc')
    {
      EffectKeepsOtherDecision(cfg, s.sh, pc, op, ch, s.reqs[q]);
      ClaimsStayApart(s.sh, pc, pc', s.reqs[q]);
    }
    forall a, b | a in after.reqs && b in after.reqs && a != b ensures ClaimsApart(after.reqs[a], after.reqs[b]) {
      assert a != r && b != r ==> ClaimsApart(s.reqs[a], s.reqs[b]);
    }
  }

  lemma StepKeepsDecisions(cfg: Config, s: State, step: Step)
    requires GoodConfig(cfg) && Inv(cfg, s) && DecisionInv(cfg, s)
    ensures DecisionInv(cfg, Do(cfg, s, step))
  {
    hide Act, Recover, Inv;
    match step
    case Begin(r, request) =>
      if Do(cfg, s, step) != s {
        BeginKeeps(cfg, s, r, request);
        assert Local(cfg, s.sh, Do(cfg, s, step).reqs[r]);
      }
    case Advance(r, ch) => if r in s.reqs { AdvanceKeepsDecisions(cfg, s, r, ch); }
    case Restart(appended) => AppendKeepsDecisions(s.sh.log, Note(DispatchInterrupted, ""));
  }

  lemma {:induction false} DecisionInvAlways(cfg: Config, steps: seq<Step>)
    requires GoodConfig(cfg)
    ensures Inv(cfg, Exec(cfg, steps)) && DecisionInv(cfg, Exec(cfg, steps))
    decreases |steps|
  {
    hide Do, Inv, Global, Local, OwnedKey;
    InvAlways(cfg, steps);
    if steps == [] {
      assert Local(cfg, Init(cfg).sh, Init(cfg).reqs[0]);
    } else {
      DecisionInvAlways(cfg, steps[..|steps| - 1]);
      StepKeepsDecisions(cfg, Exec(cfg, steps[..|steps| - 1]), steps[|steps| - 1]);
    }
  }

  /** Over every run the log holds at most one decision for a digest. */
  lemma OneDecisionPerApproval(cfg: Config, steps: seq<Step>, i: nat, j: nat)
    requires GoodConfig(cfg)
    requires var log := Exec(cfg, steps).sh.log; i < |log| && j < |log| && log[i].ApprovalDecided? && log[j].ApprovalDecided?
    requires Exec(cfg, steps).sh.log[i].digest == Exec(cfg, steps).sh.log[j].digest
    ensures i == j
  {
    DecisionInvAlways(cfg, steps);
  }

  /** A request that comes after the decision is answered with it: the one decision the log holds. */
  lemma LateRequestIsToldTheDecision(cfg: Config, steps: seq<Step>, r: nat, d: Digest, grant: bool, told: bool)
    requires GoodConfig(cfg)
    requires var s := Exec(cfg, steps); r in s.reqs && s.reqs[r] == InDecision(d, grant, Answered(told))
    ensures var log := Exec(cfg, steps).sh.log;
            && ApprovalDecided(d, told) in log
            && forall j | 0 <= j < |log| && log[j].ApprovalDecided? && log[j].digest == d :: log[j].granted == told
  {
    hide Do, Inv, Shaped;
    DecisionInvAlways(cfg, steps);
    var s := Exec(cfg, steps);
    assert DecisionLocal(s.sh, s.reqs[r]);
    var i :| 0 <= i < |s.sh.log| && s.sh.log[i] == ApprovalDecided(d, told);
    forall j | 0 <= j < |s.sh.log| && s.sh.log[j].ApprovalDecided? && s.sh.log[j].digest == d
      ensures s.sh.log[j].granted == told
    {
      OneDecisionPerApproval(cfg, steps, i, j);
    }
  }

  /** A decision is preceded by a request for an action with that digest, and all such requests name the same action. */
  lemma DecisionAnswersARequest(cfg: Config, steps: seq<Step>, j: nat) returns (i: nat)
    requires GoodConfig(cfg)
    requires var log := Exec(cfg, steps).sh.log; j < |log| && log[j].ApprovalDecided?
    ensures var log := Exec(cfg, steps).sh.log;
            && i < j && log[i].ApprovalRequested? && log[i].digest == log[j].digest
            && (forall a | DigestOf(a) == log[j].digest :: a == log[i].action)
  {
    hide Do, Inv, Shaped;
    DecisionInvAlways(cfg, steps);
    var log := Exec(cfg, steps).sh.log;
    assert Asked(log[..j], log[j].digest);
    i :| 0 <= i < j && Asks(log[..j][i], log[j].digest);
    forall a | DigestOf(a) == log[j].digest ensures a == log[i].action { DigestIdentifiesAction(a, log[i].action); }
  }

  // ---- claims are let go

  /** The approval is decided, or somebody is about to decide it or to let go of it. */
  ghost predicate ClaimBacked(s: State, d: Digest) {
    IsDecided(s.sh.log, d) || exists r | r in s.reqs :: ClaimHeld(s.reqs[r]) == Some(d)
  }

  ghost predicate ClaimsBacked(s: State) {
    forall d | d in s.sh.claims :: ClaimBacked(s, d)
  }

  /** After the step every claim was there before, or the request has just taken it; and a claim the request held before it
      still holds, has used for a decision, or has let go. */
  lemma PointKeepsClaims(cfg: Config, sh: Shared, pc: Pc, ch: Choice, d: Digest)
    requires d in Act(cfg, sh, pc, ch).0.claims
    ensures var (next, pc') := Act(cfg, sh, pc, ch);
            && (d in sh.claims || ClaimHeld(pc') == Some(d))
            && (ClaimHeld(pc) == Some(d) ==> ClaimHeld(pc') == Some(d) || IsDecided(next.log, d))
  {
    hide AfterPass, AfterJob, AfterCheck, AfterReconcile, AfterNotes, JobOp, CheckOp, AfterReport, AfterRefusal, Review;
    if pc.InDecision? && pc.decide.LogDecision? && ch.appended {
      assert Act(cfg, sh, pc, ch).0.log == sh.log + [ApprovalDecided(pc.digest, pc.grant)];
      DecidedAppend(sh.log, ApprovalDecided(pc.digest, pc.grant), pc.digest);
    }
    if !pc.InDecision? { OthersClaimNothing(cfg, sh, pc, ch); }
  }

  lemma OthersClaimNothing(cfg: Config, sh: Shared, pc: Pc, ch: Choice)
    requires !pc.InDecision?
    ensures Act(cfg, sh, pc, ch).0.claims == sh.claims
  {
    hide After, AfterReport, AfterRefusal;
  }

  lemma DecidedStays(cfg: Config, sh: Shared, pc: Pc, ch: Choice, d: Digest)
    requires IsDecided(sh.log, d)
    ensures IsDecided(Act(cfg, sh, pc, ch).0.log, d)
  {
    hide After, OpOf, AfterReport, AfterRefusal;
    var op := OpOf(cfg, pc, ch.now);
    if op.Append? && ch.appended { DecidedAppend(sh.log, Scrub(cfg, op.e), d); }
  }

  lemma AdvanceKeepsClaims(cfg: Config, s: State, r: nat, ch: Choice)
    requires ClaimsBacked(s) && r in s.reqs
    ensures ClaimsBacked(Do(cfg, s, Advance(r, ch)))
  {
    hide Act, IsDecided, ClaimHeld;
    var t := Do(cfg, s, Advance(r, ch));
    forall d | d in t.sh.claims ensures ClaimBacked(t, d) {
      PointKeepsClaims(cfg, s.sh, s.reqs[r], ch, d);
      if d in s.sh.claims {
        if IsDecided(s.sh.log, d) {
          DecidedStays(cfg, s.sh, s.reqs[r], ch, d);
        } else {
          var q :| q in s.reqs && ClaimHeld(s.reqs[q]) == Some(d);
          assert q != r ==> t.reqs[q] == s.reqs[q];
        }
      }
      assert r in t.reqs;
    }
  }

  /** No claim is left behind: while an approval is claimed and undecided, the request that claimed it is still on its way to
      decide it or to let it go. So an approval whose decision could not be logged can be decided again. */
  lemma {:induction false} ClaimsAreLetGo(cfg: Config, steps: seq<Step>)
    ensures ClaimsBacked(Exec(cfg, steps))
    decreases |steps|
  {
    hide Act, Reboot, Admissible, IsDecided;
    if steps != [] {
      var rest, last := steps[..|steps| - 1], steps[|steps| - 1];
      ClaimsAreLetGo(cfg, rest);
      var s := Exec(cfg, rest);
      match last
      case Begin(r, request) => BeginKeepsClaims(cfg, s, r, request);
      case Advance(r, ch) => if r in s.reqs { AdvanceKeepsClaims(cfg, s, r, ch); }
      case Restart(appended) => RestartDropsClaims(cfg, s.sh, appended);
    }
  }

  lemma RestartDropsClaims(cfg: Config, sh: Shared, appended: bool)
    ensures Reboot(cfg, sh, appended).claims == {}
  {
  }

  lemma BeginKeepsClaims(cfg: Config, s: State, r: nat, request: Request)
    requires ClaimsBacked(s)
    ensures ClaimsBacked(Do(cfg, s, Begin(r, request)))
  {
    hide Admissible, IsDecided;
    var t := Do(cfg, s, Begin(r, request));
    forall d | d in t.sh.claims ensures ClaimBacked(t, d) {
      if !IsDecided(s.sh.log, d) {
        var q :| q in s.reqs && ClaimHeld(s.reqs[q]) == Some(d);
        assert q in t.reqs && t.reqs[q] == s.reqs[q];
      }
    }
  }
}
