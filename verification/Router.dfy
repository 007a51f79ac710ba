/** Agent routing: every agent is judged, the judgements are ordered, and the first eligible one is selected. */
module Router {
  import opened Model
  import opened Ordering

  datatype AgentState = AgentState(active: int, quarantined: bool)

  datatype Candidate = Candidate(agentID: string, eligible: bool, reasons: seq<string>, score: int)

  datatype RouteDecision = RouteDecision(selected: string, candidates: seq<Candidate>, policyVersion: string)

  datatype RouteError = NoError | PolicyRequired | NoEligibleAgent

  // ---- what the decision must say

  function StateOf(states: map<string, AgentState>, id: string): AgentState {
    if id in states then states[id] else AgentState(0, false)
  }

  function Needs(task: Task): set<string> { set c | c in task.requires_ }

  function Offers(a: Agent): set<string> { set c | c in a.capabilities }

  ghost predicate Fit(a: Agent, st: AgentState) {
    && a.id != "" && a.version != ""
    && a.enabled
    && !st.quarantined
    && 0 < a.maxConcurrent && st.active < a.maxConcurrent
  }

  ghost predicate Eligible(task: Task, a: Agent, st: AgentState) {
    Fit(a, st) && Needs(task) <= Offers(a)
  }

  const MISSING := "missing_capability:"

  ghost function MissingReasons(missing: set<string>): set<string> { set c | c in missing :: MISSING + c }

  /** The reason, if the condition holds. */
  ghost function Ground(holds: bool, reason: string): multiset<string> {
    if holds then multiset{reason} else multiset{}
  }

  ghost function Grounds(a: Agent, st: AgentState): multiset<string> {
    Ground(a.id == "" || a.version == "", "invalid_agent") + Ground(!a.enabled, "disabled")
    + Ground(st.quarantined, "quarantined")
    + Ground(a.maxConcurrent <= 0 || st.active >= a.maxConcurrent, "capacity_exhausted")
  }

  /** Every ground for exclusion that applies, each once. */
  ghost function ReasonBag(task: Task, a: Agent, st: AgentState): multiset<string> {
    Grounds(a, st) + multiset(MissingReasons(Needs(task) - Offers(a)))
  }

  ghost function Judgement(task: Task, a: Agent, st: AgentState): Candidate {
    Candidate(a.id, Eligible(task, a, st), SortedBag(ReasonBag(task, a, st)), a.priority)
  }

  ghost function Judgements(task: Task, agents: seq<Agent>, states: map<string, AgentState>): seq<Candidate> {
    seq(|agents|, i requires 0 <= i < |agents| => Judgement(task, agents[i], StateOf(states, agents[i].id)))
  }

  /** Eligible candidates first, then the higher priority, then the lesser id. */
  predicate Before(a: Candidate, b: Candidate) {
    if a.eligible != b.eligible then a.eligible
    else if a.score != b.score then a.score > b.score
    else Less(a.agentID, b.agentID)
  }

  ghost predicate Ordered(s: seq<Candidate>) {
    forall i, j | 0 <= i < j < |s| :: !Before(s[j], s[i])
  }

  ghost predicate AnyEligible(task: Task, agents: seq<Agent>, states: map<string, AgentState>) {
    exists a | a in agents :: Eligible(task, a, StateOf(states, a.id))
  }

  /** `id` belongs to an eligible agent that no eligible agent beats. */
  ghost predicate IsBest(id: string, task: Task, agents: seq<Agent>, states: map<string, AgentState>) {
    exists a | a in agents :: IsBestAgent(id, a, task, agents, states)
  }

  ghost predicate IsBestAgent(id: string, a: Agent, task: Task, agents: seq<Agent>, states: map<string, AgentState>) {
    && a.id == id
    && Eligible(task, a, StateOf(states, id))
    && forall b | b in agents && Eligible(task, b, StateOf(states, b.id)) ::
         a.priority > b.priority || (a.priority == b.priority && AtMost(id, b.id))
  }

  // ---- the algorithm

  method Judge(task: Task, req: set<string>, a: Agent, st: AgentState) returns (c: Candidate)
    requires req == Needs(task)
    ensures c == Judgement(task, a, st)
  {
    var eligible, reasons := CheckAgent(a, st);
    var missing := Missing(req, Offers(a));
    eligible, reasons := eligible && missing == [], reasons + missing;
    var sorted := SortStrings(reasons);
    SortedIsSortedBag(sorted);
    c := Candidate(a.id, eligible, sorted, a.priority);
  }

  method CheckAgent(a: Agent, st: AgentState) returns (eligible: bool, reasons: seq<string>)
    ensures eligible <==> Fit(a, st)
    ensures multiset(reasons) == Grounds(a, st)
  {
    eligible, reasons := Note(true, [], a.id == "" || a.version == "", "invalid_agent");
    eligible, reasons := Note(eligible, reasons, !a.enabled, "disabled");
    eligible, reasons := Note(eligible, reasons, st.quarantined, "quarantined");
    eligible, reasons := Note(eligible, reasons, a.maxConcurrent <= 0 || st.active >= a.maxConcurrent, "capacity_exhausted");
  }

  method Note(eligible: bool, reasons: seq<string>, holds: bool, reason: string) returns (still: bool, more: seq<string>)
    ensures still == (eligible && !holds)
    ensures multiset(more) == multiset(reasons) + Ground(holds, reason)
  {
    still, more := eligible, reasons;
    if holds {
      still, more := false, more + [reason];
    }
  }

  method Missing(req: set<string>, has: set<string>) returns (reasons: seq<string>)
    ensures multiset(reasons) == multiset(MissingReasons(req - has))
    ensures reasons == [] <==> req <= has
  {
    reasons := [];
    var todo := req;
    while todo != {}
      invariant todo <= req
      invariant multiset(reasons) == multiset(MissingReasons(req - todo - has))
      invariant reasons == [] <==> req - todo <= has
      decreases todo
    {
      var need :| need in todo;
      MissingGrows(req - todo - has, need);
      if need !in has {
        reasons := reasons + [MISSING + need];
        assert req - (todo - {need}) - has == (req - todo - has) + {need};
      } else {
        assert req - (todo - {need}) - has == req - todo - has;
      }
      todo := todo - {need};
    }
    assert req - todo == req;
  }

  lemma MissingGrows(s: set<string>, need: string)
    ensures need !in s ==>
              multiset(MissingReasons(s + {need})) == multiset(MissingReasons(s)) + multiset{MISSING + need}
  {
    if need !in s {
      assert MissingReasons(s + {need}) == MissingReasons(s) + {MISSING + need};
      forall c | c in s ensures MISSING + c != MISSING + need {
        assert (MISSING + c)[|MISSING|..] == c && (MISSING + need)[|MISSING|..] == need;
      }
    }
  }

  /** The standard library sort: any order consistent with `Before`, ties in no particular order. */
  method SortCandidates(s: seq<Candidate>) returns (r: seq<Candidate>)
    ensures Ordered(r)
    ensures multiset(r) == multiset(s)
  {
    r := [];
    for i := 0 to |s|
      invariant Ordered(r)
      invariant multiset(r) == multiset(s[..i])
    {
      var k := 0;
      while k < |r| && Before(r[k], s[i])
        invariant 0 <= k <= |r|
        invariant forall j | 0 <= j < k :: Before(r[j], s[i])
      {
        k := k + 1;
      }
      ghost var was := r;
      r := r[..k] + [s[i]] + r[k..];
      InsertionOrdered(was, s[i], k);
      assert was == was[..k] + was[k..];
      assert s[..i + 1] == s[..i] + [s[i]];
    }
    assert s[..|s|] == s;
  }

  lemma BeforeTransitive(a: Candidate, b: Candidate, c: Candidate)
    ensures Before(a, b) && Before(b, c) ==> Before(a, c)
    ensures Before(a, b) ==> !Before(b, a)
    ensures !Before(b, a) && !Before(c, b) ==> !Before(c, a)
  {
    if Less(a.agentID, b.agentID) && Less(b.agentID, c.agentID) { LessTransitive(a.agentID, b.agentID, c.agentID); }
    if Less(a.agentID, b.agentID) && Less(b.agentID, a.agentID) {
      LessTransitive(a.agentID, b.agentID, a.agentID);
    }
    LessIrreflexive(a.agentID);
    LessTrichotomy(a.agentID, b.agentID);
    LessTrichotomy(b.agentID, c.agentID);
    if Less(c.agentID, a.agentID) && Less(a.agentID, b.agentID) { LessTransitive(c.agentID, a.agentID, b.agentID); }
    if Less(b.agentID, c.agentID) && Less(c.agentID, a.agentID) { LessTransitive(b.agentID, c.agentID, a.agentID); }
  }

  lemma InsertionOrdered(s: seq<Candidate>, x: Candidate, k: nat)
    requires Ordered(s) && k <= |s|
    requires forall j | 0 <= j < k :: Before(s[j], x)
    requires k < |s| ==> !Before(s[k], x)
    ensures Ordered(s[..k] + [x] + s[k..])
  {
    var r := s[..k] + [x] + s[k..];
    forall i, j | 0 <= i < j < |r| ensures !Before(r[j], r[i]) {
      if j == k { BeforeTransitive(s[i], x, x); }
      if i == k {
        if k < j - 1 { BeforeTransitive(x, s[k], s[j - 1]); }
      }
    }
  }

  method Route(task: Task, agents: seq<Agent>, states: map<string, AgentState>, policyVersion: string)
    returns (decision: RouteDecision, err: RouteError)
    ensures policyVersion == "" <==> err == PolicyRequired
    ensures err == PolicyRequired ==> decision == RouteDecision("", [], "")
    ensures err != PolicyRequired ==>
              && decision.policyVersion == policyVersion
              && Ordered(decision.candidates)
              && multiset(decision.candidates) == multiset(Judgements(task, agents, states))
              && (err == NoError <==> AnyEligible(task, agents, states))
              && (err == NoError ==> IsBest(decision.selected, task, agents, states))
              && (err == NoEligibleAgent ==> decision.selected == "")
  {
    hide Judgement, IsBest, AnyEligible, Ordered;
    if policyVersion == "" {
      return RouteDecision("", [], ""), PolicyRequired;
    }
    var req := Needs(task);
    var candidates := [];
    for i := 0 to |agents|
      invariant candidates == Judgements(task, agents, states)[..i]
    {
      var c := Judge(task, req, agents[i], StateOf(states, agents[i].id));
      candidates := candidates + [c];
    }
    ghost var judged := candidates;
    candidates := SortCandidates(candidates);
    assert judged == Judgements(task, agents, states);
    for i := 0 to |candidates|
      invariant forall j | 0 <= j < i :: !candidates[j].eligible
    {
      if candidates[i].eligible {
        FirstEligibleIsBest(task, agents, states, candidates, i);
        return RouteDecision(candidates[i].agentID, candidates, policyVersion), NoError;
      }
    }
    NobodyEligible(task, agents, states, candidates);
    return RouteDecision("", candidates, policyVersion), NoEligibleAgent;
  }

  lemma JudgedAgent(task: Task, agents: seq<Agent>, states: map<string, AgentState>, ordered: seq<Candidate>, i: nat)
    returns (a: Agent)
    requires multiset(ordered) == multiset(Judgements(task, agents, states)) && i < |ordered|
    ensures a in agents && ordered[i] == Judgement(task, a, StateOf(states, a.id))
  {
    assert ordered[i] in multiset(ordered);
    assert ordered[i] in Judgements(task, agents, states);
    var j :| 0 <= j < |agents| && Judgements(task, agents, states)[j] == ordered[i];
    a := agents[j];
  }

  lemma AgentJudged(task: Task, agents: seq<Agent>, states: map<string, AgentState>, ordered: seq<Candidate>, a: Agent)
    returns (i: nat)
    requires multiset(ordered) == multiset(Judgements(task, agents, states)) && a in agents
    ensures i < |ordered| && ordered[i] == Judgement(task, a, StateOf(states, a.id))
  {
    var j :| 0 <= j < |agents| && agents[j] == a;
    var c := Judgements(task, agents, states)[j];
    assert c in multiset(Judgements(task, agents, states));
    assert c in multiset(ordered);
    assert c in ordered;
    i :| 0 <= i < |ordered| && ordered[i] == c;
  }

  lemma FirstEligibleIsBest(
    task: Task, agents: seq<Agent>, states: map<string, AgentState>, ordered: seq<Candidate>, i: nat)
    requires multiset(ordered) == multiset(Judgements(task, agents, states)) && Ordered(ordered)
    requires i < |ordered| && ordered[i].eligible && forall j | 0 <= j < i :: !ordered[j].eligible
    ensures AnyEligible(task, agents, states)
    ensures IsBest(ordered[i].agentID, task, agents, states)
  {
    var a := JudgedAgent(task, agents, states, ordered, i);
    forall b | b in agents && Eligible(task, b, StateOf(states, b.id))
      ensures a.priority > b.priority || (a.priority == b.priority && AtMost(a.id, b.id))
    {
      var j := AgentJudged(task, agents, states, ordered, b);
      LessTrichotomy(a.id, b.id);
    }
    assert IsBestAgent(a.id, a, task, agents, states);
  }

  lemma NobodyEligible(task: Task, agents: seq<Agent>, states: map<string, AgentState>, ordered: seq<Candidate>)
    requires multiset(ordered) == multiset(Judgements(task, agents, states))
    requires forall j | 0 <= j < |ordered| :: !ordered[j].eligible
    ensures !AnyEligible(task, agents, states)
  {
    forall a | a in agents ensures !Eligible(task, a, StateOf(states, a.id)) {
      var i := AgentJudged(task, agents, states, ordered, a);
    }
  }

  // ---- the selection is a function of what is offered, not of how it is listed

  /** The same agent up to the order and repetition of its capability list. */
  ghost predicate SameAgent(a: Agent, b: Agent) {
    a.id == b.id && a.version == b.version && Offers(a) == Offers(b) && a.priority == b.priority
    && a.enabled == b.enabled && a.maxConcurrent == b.maxConcurrent
  }

  ghost predicate HasTwin(a: Agent, offered: seq<Agent>) {
    exists b | b in offered :: SameAgent(a, b)
  }

  ghost predicate ListedIn(listed: seq<Agent>, offered: seq<Agent>) {
    forall a {:trigger HasTwin(a, offered)} :: a in listed ==> HasTwin(a, offered)
  }

  lemma BestIsUnique(x: string, y: string, task: Task, agents: seq<Agent>, states: map<string, AgentState>)
    requires IsBest(x, task, agents, states) && IsBest(y, task, agents, states)
    ensures x == y
  {
    var a :| a in agents && IsBestAgent(x, a, task, agents, states);
    var b :| b in agents && IsBestAgent(y, b, task, agents, states);
    assert AtMost(x, y) && AtMost(y, x);
    AtMostAntisymmetric(x, y);
  }

  /** Permuting or repeating agents, their capabilities or the task's requirements changes neither whether an agent
      is selected nor which one, even when several versions of one agent id are listed. */
  lemma SelectionIgnoresListing(
    t1: Task, as1: seq<Agent>, t2: Task, as2: seq<Agent>, states: map<string, AgentState>, id: string)
    requires Needs(t1) == Needs(t2) && ListedIn(as1, as2) && ListedIn(as2, as1)
    ensures AnyEligible(t1, as1, states) <==> AnyEligible(t2, as2, states)
    ensures IsBest(id, t1, as1, states) <==> IsBest(id, t2, as2, states)
  {
    EligibleCarries(t1, as1, t2, as2, states);
    EligibleCarries(t2, as2, t1, as1, states);
    if IsBest(id, t1, as1, states) {
      var a, b := BestListed(t1, as1, t2, as2, states, id);
      BestCarries(t1, as1, a, t2, as2, b, states);
    }
    if IsBest(id, t2, as2, states) {
      var b, a := BestListed(t2, as2, t1, as1, states, id);
      BestCarries(t2, as2, b, t1, as1, a, states);
    }
  }

  lemma SameAgentSameStanding(t1: Task, a: Agent, t2: Task, b: Agent, st: AgentState)
    requires Needs(t1) == Needs(t2) && SameAgent(a, b)
    ensures Eligible(t1, a, st) <==> Eligible(t2, b, st)
  {
  }

  lemma EligibleCarries(t1: Task, as1: seq<Agent>, t2: Task, as2: seq<Agent>, states: map<string, AgentState>)
    requires Needs(t1) == Needs(t2) && ListedIn(as1, as2)
    ensures AnyEligible(t1, as1, states) ==> AnyEligible(t2, as2, states)
  {
    if AnyEligible(t1, as1, states) {
      var a :| a in as1 && Eligible(t1, a, StateOf(states, a.id));
      assert HasTwin(a, as2);
      var b :| b in as2 && SameAgent(a, b);
      SameAgentSameStanding(t1, a, t2, b, StateOf(states, a.id));
    }
  }

  lemma BestCarries(
    t1: Task, as1: seq<Agent>, a: Agent, t2: Task, as2: seq<Agent>, b: Agent, states: map<string, AgentState>)
    requires Needs(t1) == Needs(t2) && ListedIn(as2, as1)
    requires b in as2 && SameAgent(a, b)
    requires IsBestAgent(a.id, a, t1, as1, states)
    ensures IsBest(a.id, t2, as2, states)
  {
    forall c | c in as2 && Eligible(t2, c, StateOf(states, c.id))
      ensures b.priority > c.priority || (b.priority == c.priority && AtMost(b.id, c.id))
    {
      assert HasTwin(c, as1);
      var d :| d in as1 && SameAgent(c, d);
      SameAgentSameStanding(t2, c, t1, d, StateOf(states, c.id));
    }
    SameAgentSameStanding(t1, a, t2, b, StateOf(states, a.id));
    assert IsBestAgent(b.id, b, t2, as2, states);
  }

  lemma BestListed(
    t1: Task, as1: seq<Agent>, t2: Task, as2: seq<Agent>, states: map<string, AgentState>, id: string)
    returns (a: Agent, b: Agent)
    requires ListedIn(as1, as2) && IsBest(id, t1, as1, states)
    ensures a.id == id && b in as2 && SameAgent(a, b) && IsBestAgent(id, a, t1, as1, states)
  {
    a :| a in as1 && IsBestAgent(id, a, t1, as1, states);
    assert HasTwin(a, as2);
    b :| b in as2 && SameAgent(a, b);
  }

  /** The agent the scheduler routes to, as a function of the frozen definitions. */
  ghost function Selected(task: Task, agents: seq<Agent>, states: map<string, AgentState>): (r: Option<string>)
    ensures r.Some? <==> AnyEligible(task, agents, states)
    ensures r.Some? ==> IsBest(r.value, task, agents, states)
  {
    if AnyEligible(task, agents, states) then
      BestExists(task, agents, states);
      var id :| IsBest(id, task, agents, states);
      Some(id)
    else None
  }

  lemma {:induction false} BestExists(task: Task, agents: seq<Agent>, states: map<string, AgentState>)
    requires AnyEligible(task, agents, states)
    ensures exists id :: IsBest(id, task, agents, states)
    decreases |agents|
  {
    var last, rest := agents[|agents| - 1], agents[..|agents| - 1];
    assert forall a | a in agents :: a in rest || a == last;
    if AnyEligible(task, rest, states) {
      BestExists(task, rest, states);
      var id :| IsBest(id, task, rest, states);
      var a :| a in rest && IsBestAgent(id, a, task, rest, states);
      LessTrichotomy(id, last.id);
      if Eligible(task, last, StateOf(states, last.id)) &&
         (last.priority > a.priority || (last.priority == a.priority && !AtMost(id, last.id))) {
        forall b | b in agents && Eligible(task, b, StateOf(states, b.id))
          ensures last.priority > b.priority || (last.priority == b.priority && AtMost(last.id, b.id))
        {
          if b != last && last.priority == b.priority { AtMostTransitive(last.id, id, b.id); }
        }
        assert IsBestAgent(last.id, last, task, agents, states);
        assert IsBest(last.id, task, agents, states);
      } else {
        assert IsBestAgent(id, a, task, agents, states);
        assert IsBest(id, task, agents, states);
      }
    } else {
      assert IsBestAgent(last.id, last, task, agents, states);
      assert IsBest(last.id, task, agents, states);
    }
  }
}
