/** From the catalog and the graph to the plan the scheduler works through, before and after a restart, and what the
    whole-run theorems say about a valid graph. */
module Planning {
  import opened Model
  import opened Ordering
  import opened Graph
  import opened Sequences
  import opened Control
  import opened Actions
  import opened Protocol
  import opened CommandSafety
  import DagValidation
  import EmptyRuns
  import Ending
  import Expiry
  import Identifiers
  import Progress
  import Redaction
  import Reloading
  import Router
  import ScheduleSafety
  import Stored = StoredDefinitions
  import Topological

  /** Whether the capability `name@version` has side effects; the last listing of it counts. */
  predicate SideEffecting(caps: seq<Capability>, key: string)
    decreases |caps|
  {
    if caps == [] then false
    else
      var c := caps[|caps| - 1];
      if c.name + "@" + c.version == key then c.sideEffecting else SideEffecting(caps[..|caps| - 1], key)
  }

  predicate Guarded(c: Catalog, t: Task) {
    exists r | r in t.requires_ :: SideEffecting(c.capabilities, r)
  }

  predicate Named(x: Capability, key: string) { x.name + "@" + x.version == key }

  lemma {:induction false} SideEffectsAreListed(caps: seq<Capability>, key: string)
    ensures SideEffecting(caps, key) <==>
            exists i | 0 <= i < |caps| :: Named(caps[i], key) && caps[i].sideEffecting && forall j | i < j < |caps| :: !Named(caps[j], key)
    decreases |caps|
  {
    if caps != [] && !Named(caps[|caps| - 1], key) {
      var rest := caps[..|caps| - 1];
      SideEffectsAreListed(rest, key);
      assert forall i | 0 <= i < |rest| :: rest[i] == caps[i];
    }
  }

  /** In an admitted catalog a task is guarded exactly when one of the capabilities it requires has side effects. */
  lemma GuardedIffSideEffects(c: Catalog, d: TaskDAG, t: Task)
    requires Stored.ValidCatalog(c)
    ensures PlannedTask(c, d, t).guarded <==>
            exists x | x in c.capabilities :: x.sideEffecting && x.name + "@" + x.version in t.requires_
  {
    var caps := c.capabilities;
    forall r ensures SideEffecting(caps, r) <==> exists x | x in caps :: x.sideEffecting && Named(x, r) {
      SideEffectsAreListed(caps, r);
      if x :| x in caps && x.sideEffecting && Named(x, r) {
        var i :| 0 <= i < |caps| && caps[i] == x;
        assert forall j | i < j < |caps| :: !Named(caps[j], r);
      }
    }
    if x :| x in caps && x.sideEffecting && x.name + "@" + x.version in t.requires_ {
      assert Named(x, x.name + "@" + x.version);
      assert SideEffecting(caps, x.name + "@" + x.version);
    }
  }

  function Join(parts: seq<string>, sep: string): string {
    if parts == [] then "" else if |parts| == 1 then parts[0] else parts[0] + sep + Join(parts[1..], sep)
  }

  /** The action that must be approved before the task goes to the agent. */
  function ActionFor(d: TaskDAG, t: Task, agent: string): Action {
    Action(Join(t.requires_, ","), t.id, map["agent" := agent], map["task" := t.version, "dag" := d.version], map[],
           "capability/v1", "dispatch:" + t.id)
  }

  ghost function Agent(c: Catalog, t: Task): Option<string> {
    Router.Selected(t, c.agents, map[])
  }

  ghost function PlannedTask(c: Catalog, d: TaskDAG, t: Task): Planned {
    var agent := Agent(c, t);
    Planned(t.id, t.dependsOn, agent, Guarded(c, t), ActionFor(d, t, if agent.Some? then agent.value else ""))
  }

  ghost function TaskNamed(tasks: seq<Task>, id: string): (t: Task)
    requires id in Ids(tasks)
    ensures t in tasks && t.id == id
  {
    var t :| t in tasks && t.id == id;
    t
  }

  ghost function PlanOf(c: Catalog, d: TaskDAG): seq<Planned>
    requires DagValidation.ValidDag(d)
  {
    var order := Topological.LeastFirst(d.tasks, {});
    OrderIsOfTasks(d);
    seq(|order|, i requires 0 <= i < |order| => PlannedTask(c, d, TaskNamed(d.tasks, order[i])))
  }

  lemma OrderIsOfTasks(d: TaskDAG)
    requires DagValidation.ValidDag(d)
    ensures var order := Topological.LeastFirst(d.tasks, {});
            && NoRepeat(order) && DependenciesFirst(d.tasks, order)
            && (forall i | 0 <= i < |order| :: order[i] in Ids(d.tasks))
            && (forall x | x in Ids(d.tasks) :: x in order)
  {
    var order := Topological.LeastFirst(d.tasks, {});
    Topological.LeastFirstCompletes(d.tasks);
    Topological.RespectsFromNothing(d.tasks, {}, order);
    forall i | 0 <= i < |order| ensures order[i] in Ids(d.tasks) { assert order[i] in Topological.SetOf(order); }
    forall x | x in Ids(d.tasks) ensures x in order { assert x in Topological.SetOf(order); }
  }

  /** The plan is what the scheduler's loop meets when it goes through the sorted tasks. */
  lemma PlanFollowsSort(c: Catalog, d: TaskDAG, order: seq<Task>)
    requires DagValidation.ValidDag(d)
    requires Topological.SameIds(order, Topological.LeastFirst(d.tasks, {})) && forall t | t in order :: t in d.tasks
    ensures |PlanOf(c, d)| == |order|
    ensures forall i | 0 <= i < |order| :: PlanOf(c, d)[i] == PlannedTask(c, d, order[i])
  {
    forall i | 0 <= i < |order| ensures PlanOf(c, d)[i] == PlannedTask(c, d, order[i]) {
      TaskById(d.tasks, order[i], TaskNamed(d.tasks, order[i].id));
    }
  }

  /** Where a task of the graph stands in the plan. */
  lemma PlanIndex(c: Catalog, d: TaskDAG, t: Task) returns (i: nat)
    requires DagValidation.ValidDag(d) && t in d.tasks
    ensures i < |PlanOf(c, d)| && PlanOf(c, d)[i] == PlannedTask(c, d, t)
  {
    OrderIsOfTasks(d);
    var order := Topological.LeastFirst(d.tasks, {});
    assert t.id in Ids(d.tasks);
    i :| 0 <= i < |order| && order[i] == t.id;
    TaskById(d.tasks, t, TaskNamed(d.tasks, order[i]));
  }

  lemma PlanTask(c: Catalog, d: TaskDAG, i: nat) returns (t: Task)
    requires DagValidation.ValidDag(d) && i < |PlanOf(c, d)|
    ensures t in d.tasks && PlanOf(c, d)[i] == PlannedTask(c, d, t)
  {
    OrderIsOfTasks(d);
    t := TaskNamed(d.tasks, Topological.LeastFirst(d.tasks, {})[i]);
  }

  /** Ids are distinct and every dependency stands earlier in the plan. */
  lemma PlanIsOrdered(c: Catalog, d: TaskDAG)
    requires DagValidation.ValidDag(d)
    ensures forall i, j | 0 <= i < j < |PlanOf(c, d)| :: PlanOf(c, d)[i].id != PlanOf(c, d)[j].id
    ensures forall i, y | 0 <= i < |PlanOf(c, d)| && y in PlanOf(c, d)[i].deps ::
              exists j | 0 <= j < i :: PlanOf(c, d)[j].id == y
  {
    OrderIsOfTasks(d);
    var order, plan := Topological.LeastFirst(d.tasks, {}), PlanOf(c, d);
    forall i, j | 0 <= i < j < |plan| ensures plan[i].id != plan[j].id { assert order[i] != order[j]; }
    forall i, y | 0 <= i < |plan| && y in plan[i].deps ensures exists j | 0 <= j < i :: plan[j].id == y {
      var t := TaskNamed(d.tasks, order[i]);
      assert Edge(d.tasks, order[i], y);
      var j :| 0 <= j < i && order[..i][j] == y;
      assert plan[j].id == y;
    }
  }

  /** The configuration of a run over a catalog and a graph. */
  ghost function RunConfig(run: string, c: Catalog, d: TaskDAG): Config
    requires DagValidation.ValidDag(d)
  {
    Config(run, PlanOf(c, d), true, DEFAULT_BOUND, Redaction.RedactString)
  }

  /** What the same run works from after a restart: the definitions as they were stored, if they are admitted again. */
  ghost function StoredConfig(run: string, c: Catalog, d: TaskDAG): Config {
    var graph, catalog := Stored.KeptGraph(d), Stored.KeptCatalog(c);
    Config(run, if DagValidation.ValidDag(graph) then PlanOf(catalog, graph) else [],
           DagValidation.ValidDag(graph) && Stored.ValidCatalog(catalog), DEFAULT_BOUND, Redaction.RedactString)
  }

  /** The run over these definitions, restarts included. */
  ghost function RunOf(run: string, c: Catalog, d: TaskDAG, steps: seq<Step>): State
    requires DagValidation.ValidDag(d)
  {
    Reloading.Live(RunConfig(run, c, d), StoredConfig(run, c, d), steps)
  }

  ghost predicate Admitted(c: Catalog, d: TaskDAG) {
    Stored.ValidCatalog(c) && DagValidation.ValidDag(d)
  }

  /** After a restart a run has its definitions exactly when both are admitted as they were stored. */
  lemma LoadedIffAdmittedAgain(run: string, c: Catalog, d: TaskDAG)
    ensures StoredConfig(run, c, d).loaded <==> Admitted(Stored.KeptCatalog(c), Stored.KeptGraph(d))
  {
  }

  /** No string of the definitions is rewritten when they are stored. */
  ghost predicate CleanDefinitions(run: string, c: Catalog, d: TaskDAG) {
    Redaction.Clean(run) && Stored.CleanCatalog(c) && Stored.CleanGraph(d)
  }

  /** A run over clean definitions works from the same plan all its life: what holds of a run whose plan is frozen holds of
      it. */
  lemma CleanRunsKeepTheirPlan(run: string, c: Catalog, d: TaskDAG, steps: seq<Step>)
    requires Admitted(c, d) && CleanDefinitions(run, c, d)
    ensures StoredConfig(run, c, d) == RunConfig(run, c, d)
    ensures RunOf(run, c, d, steps) == Exec(RunConfig(run, c, d), steps)
  {
    Stored.CatalogComesBackIffClean(c);
    Stored.GraphComesBackIffClean(d);
    Reloading.LiveIsExec(RunConfig(run, c, d), StoredConfig(run, c, d), steps);
  }

  ghost predicate CleanIds(run: string, d: TaskDAG) {
    Redaction.Clean(run) && forall t | t in d.tasks :: Redaction.Clean(t.id)
  }

  lemma RunConfigIsGood(run: string, c: Catalog, d: TaskDAG)
    requires DagValidation.ValidDag(d) && CleanIds(run, d)
    ensures GoodConfig(RunConfig(run, c, d)) && ScheduleSafety.PlanDistinct(RunConfig(run, c, d))
  {
    var cfg := RunConfig(run, c, d);
    PlanIsOrdered(c, d);
    forall p | p in cfg.plan ensures Redaction.Clean(p.id) {
      var i :| 0 <= i < |cfg.plan| && cfg.plan[i] == p;
      var t := PlanTask(c, d, i);
    }
    Identifiers.CleanPlansAreGood(cfg);
  }

  /** The action names the capabilities, the task, its version and the graph's, its scope, and the best eligible agent if there is one. */
  ghost predicate NamesTask(c: Catalog, d: TaskDAG, t: Task, a: Action) {
    && a.tool == Join(t.requires_, ",") && a.target == t.id && a.scope == "dispatch:" + t.id
    && a.policyVersion == "capability/v1" && a.artifactVersions == map[]
    && a.inputVersions == map["task" := t.version, "dag" := d.version]
    && "agent" in a.arguments
    && (Router.AnyEligible(t, c.agents, map[]) ==> Router.IsBest(a.arguments["agent"], t, c.agents, map[]))
  }

  lemma PlannedActionNamesTask(c: Catalog, d: TaskDAG, t: Task)
    ensures NamesTask(c, d, t, PlannedTask(c, d, t).action)
  {
  }

  ghost predicate Approved(c: Catalog, d: TaskDAG, t: Task, log: seq<Event>) {
    exists asked, granted | 0 <= asked < granted < |log| ::
      && log[asked].ApprovalRequested? && NamesTask(c, d, t, log[asked].action)
      && log[granted] == ApprovalDecided(DigestOf(log[asked].action), true)
  }

  /** Over every run of admitted, clean definitions, restarts included: when a task is requested, each of its dependencies
      has completed, and if it needs a capability with side effects, an approval was asked for and granted that names this
      task, the best eligible agent, these versions and this scope. */
  lemma RequestedTaskIsCleared(run: string, c: Catalog, d: TaskDAG, steps: seq<Step>, j: nat, t: Task)
    requires Admitted(c, d) && CleanDefinitions(run, c, d) && t in d.tasks
    requires var log := RunOf(run, c, d, steps).sh.log;
             j < |log| && ScheduleSafety.IsDispatchRequest(log[j]) && log[j].cmd.value.task == t.id
    ensures var before := RunOf(run, c, d, steps).sh.log[..j];
            && (forall dep | dep in t.dependsOn :: TaskCompleted(dep) in before)
            && (Guarded(c, t) ==> Approved(c, d, t, before))
  {
    hide Do, Exec;
    var cfg := RunConfig(run, c, d);
    CleanRunsKeepTheirPlan(run, c, d, steps);
    RunConfigIsGood(run, c, d);
    var i := PlanIndex(c, d, t);
    ScheduleSafety.RequestFollowsClearance(cfg, steps, j, i);
    if Guarded(c, t) { GuardedTaskIsApproved(run, c, d, steps, j, i, t); }
  }

  lemma GuardedTaskIsApproved(run: string, c: Catalog, d: TaskDAG, steps: seq<Step>, j: nat, i: nat, t: Task)
    requires DagValidation.ValidDag(d) && CleanIds(run, d) && Guarded(c, t)
    requires i < |PlanOf(c, d)| && PlanOf(c, d)[i] == PlannedTask(c, d, t)
    requires var log := Exec(RunConfig(run, c, d), steps).sh.log;
             j < |log| && ScheduleSafety.IsDispatchRequest(log[j]) && log[j].cmd.value.task == t.id
    ensures Approved(c, d, t, Exec(RunConfig(run, c, d), steps).sh.log[..j])
  {
    hide Do, Exec;
    var cfg := RunConfig(run, c, d);
    RunConfigIsGood(run, c, d);
    var asked, granted := ScheduleSafety.GuardedRequestWasApproved(cfg, steps, j, i);
    PlannedActionNamesTask(c, d, t);
    var log := Exec(cfg, steps).sh.log;
    assert log[..j][asked] == log[asked] && log[..j][granted] == log[granted];
  }

  /** One approval clears one task: tasks of a graph never share a digest, whatever agents they go to. */
  lemma ApprovalsDoNotCarryOver(d: TaskDAG, t: Task, u: Task, agent: string, other: string)
    requires DistinctIds(d.tasks) && t in d.tasks && u in d.tasks
    ensures DigestOf(ActionFor(d, t, agent)) == DigestOf(ActionFor(d, u, other)) ==> t == u && agent == other
  {
    var a, b := ActionFor(d, t, agent), ActionFor(d, u, other);
    DigestIdentifiesAction(a, b);
    if a == b {
      assert a.arguments["agent"] == b.arguments["agent"];
      TaskById(d.tasks, t, u);
    }
  }

  ghost predicate Routable(c: Catalog, d: TaskDAG) {
    forall t | t in d.tasks :: Router.AnyEligible(t, c.agents, map[])
  }

  /** A valid graph with clean ids, an eligible agent for every task and no more tasks than the controller takes commands
      can be worked through. */
  lemma RunConfigIsWorkable(run: string, c: Catalog, d: TaskDAG)
    requires DagValidation.ValidDag(d) && CleanIds(run, d) && Routable(c, d) && 0 < |d.tasks| <= DEFAULT_BOUND
    ensures Progress.Workable(RunConfig(run, c, d)) && Ending.Approvable(RunConfig(run, c, d))
  {
    var cfg := RunConfig(run, c, d);
    RunConfigIsGood(run, c, d);
    PlanIsOrdered(c, d);
    Topological.AdmittedGraphIsSchedulable(d);
    Identifiers.ShortIsClean("");
    Redaction.FixedPointsAreClean("");
    forall i | 0 <= i < |cfg.plan|
      ensures cfg.plan[i].id != "" && cfg.plan[i].agent.Some?
      ensures cfg.plan[i].action.scope != "" && Fixed(cfg, cfg.plan[i].action.scope)
    {
      var t := PlanTask(c, d, i);
      ScopeIsClean(t);
    }
  }

  lemma ScopeIsClean(t: Task)
    requires Redaction.Clean(t.id)
    ensures Redaction.RedactString("dispatch:" + t.id) == "dispatch:" + t.id
  {
    Identifiers.DispatchIsClean();
    Redaction.JoinClean("dispatch", t.id);
    assert "dispatch" + ":" + t.id == "dispatch:" + t.id;
    Redaction.FixedPointsAreClean("dispatch:" + t.id);
  }

  /** A run of such a graph can be brought to its end by results and grants, without waiting for anything. */
  lemma ValidRunsCanFinish(run: string, c: Catalog, d: TaskDAG) returns (steps: seq<Step>)
    requires DagValidation.ValidDag(d) && CleanIds(run, d) && Routable(c, d) && 0 < |d.tasks| <= DEFAULT_BOUND
    ensures Ending.SmoothAt(steps, 0)
    ensures var log := Exec(RunConfig(run, c, d), steps).sh.log;
            && (forall t | t in d.tasks :: TaskCompleted(t.id) in log)
            && Note(DispatchCompleted, "") in log
  {
    hide Do;
    var cfg := RunConfig(run, c, d);
    RunConfigIsWorkable(run, c, d);
    steps := Ending.RunsCanFinish(cfg, [], 0);
    assert [] + steps == steps;
    var log := Exec(cfg, steps).sh.log;
    forall t | t in d.tasks ensures TaskCompleted(t.id) in log {
      var i := PlanIndex(c, d, t);
      assert cfg.plan[i] in cfg.plan;
      assert IsCompleted(log, cfg.plan[i].id);
    }
  }

  // ---- definitions that redaction rewrites

  lemma RedactionIsIdempotent()
    ensures Reloading.Idempotent(Redaction.RedactString)
  {
    forall s: string ensures Redaction.RedactString(Redaction.RedactString(s)) == Redaction.RedactString(s) {
      Identifiers.RedactTwice(s);
    }
  }

  /** Until its server restarts, the run of a valid, routable graph can be logged as completed exactly when every task id is
      clean: a completion is looked up under the task's own id, and logged under what redaction leaves of it. */
  lemma CompletesIffIdsClean(run: string, c: Catalog, d: TaskDAG)
    requires DagValidation.ValidDag(d) && Redaction.Clean(run) && Routable(c, d) && 0 < |d.tasks| <= DEFAULT_BOUND
    ensures (exists steps ::
               Expiry.Ticks(steps) && !Reloading.Restarted(steps) && EmptyRuns.CompletionLogged(RunOf(run, c, d, steps).sh.log))
       <==> forall t | t in d.tasks :: Redaction.Clean(t.id)
  {
    hide Do, Exec, DagValidation.ValidDag, PlanOf, StoredConfig;
    var cfg, later := RunConfig(run, c, d), StoredConfig(run, c, d);
    RedactionIsIdempotent();
    if steps :| Expiry.Ticks(steps) && !Reloading.Restarted(steps) && EmptyRuns.CompletionLogged(RunOf(run, c, d, steps).sh.log) {
      Reloading.LiveIsExec(cfg, later, steps);
      Reloading.CompletionNeedsCleanIds(cfg, steps);
      forall t | t in d.tasks ensures Redaction.Clean(t.id) {
        var i := PlanIndex(c, d, t);
        assert cfg.plan[i] in cfg.plan;
        Redaction.FixedPointsAreClean(t.id);
      }
    }
    if forall t | t in d.tasks :: Redaction.Clean(t.id) {
      var steps := ValidRunsCanFinish(run, c, d);
      SmoothIsRestartFree(steps);
      assert Expiry.Ticks(steps);
      Reloading.LiveIsExec(cfg, later, steps);
      assert Note(DispatchCompleted, "") in RunOf(run, c, d, steps).sh.log;
    }
  }

  lemma SmoothIsRestartFree(steps: seq<Step>)
    requires Progress.AllSmooth(steps)
    ensures !Reloading.Restarted(steps)
  {
  }

  /** Until its server restarts, a run never sends a task with a dependency whose id is not clean. */
  lemma MaskedTaskHoldsItsDependents(run: string, c: Catalog, d: TaskDAG, steps: seq<Step>, t: Task, dep: string, call: Call)
    requires DagValidation.ValidDag(d) && !Reloading.Restarted(steps)
    requires t in d.tasks && dep in t.dependsOn && !Redaction.Clean(dep)
    requires call in RunOf(run, c, d, steps).sh.calls && call.kind == Dispatch
    ensures call.task != t.id
  {
    hide Do, Exec;
    var cfg := RunConfig(run, c, d);
    RedactionIsIdempotent();
    PlanIsOrdered(c, d);
    var i := PlanIndex(c, d, t);
    Redaction.FixedPointsAreClean(dep);
    Reloading.LiveIsExec(cfg, StoredConfig(run, c, d), steps);
    Reloading.MaskedTaskHoldsItsDependents(cfg, steps, i, dep, call);
  }

  /** How the definitions of a run come back: every task under its stored id, or no graph at all. */
  lemma StoredConfigReloads(run: string, c: Catalog, d: TaskDAG)
    requires DagValidation.ValidDag(d)
    ensures Reloading.Reloads(RunConfig(run, c, d), StoredConfig(run, c, d))
    ensures Reloading.StoredApart(RunConfig(run, c, d)) <==> Stored.KeptApart(d.tasks)
  {
    hide DagValidation.ValidDag, PlanOf, Stored.KeptApart, Reloading.Covers;
    Stored.GraphIsAdmittedAgainIffApart(d);
    PlanApart(c, d);
    if Stored.KeptApart(d.tasks) { StoredPlanCovers(run, c, d); }
  }

  lemma StoredPlanCovers(run: string, c: Catalog, d: TaskDAG)
    requires DagValidation.ValidDag(d) && DagValidation.ValidDag(Stored.KeptGraph(d))
    ensures Reloading.Covers(RunConfig(run, c, d), StoredConfig(run, c, d))
  {
    hide DagValidation.ValidDag, PlanOf, Stored.ValidCatalog, Stored.KeptCatalog;
    var cfg, later := RunConfig(run, c, d), StoredConfig(run, c, d);
    forall p | p in cfg.plan ensures exists u | u in later.plan :: u.id == cfg.redact(p.id) {
      var i :| 0 <= i < |cfg.plan| && cfg.plan[i] == p;
      var t := PlanTask(c, d, i);
      var n :| 0 <= n < |d.tasks| && d.tasks[n] == t;
      var kept := Stored.KeptGraph(d);
      assert kept.tasks[n] in kept.tasks;
      var j := PlanIndex(Stored.KeptCatalog(c), kept, kept.tasks[n]);
      assert later.plan[j] in later.plan;
    }
  }

  lemma PlanApart(c: Catalog, d: TaskDAG)
    requires DagValidation.ValidDag(d)
    ensures (forall i, j | 0 <= i < j < |PlanOf(c, d)| ::
               Redaction.RedactString(PlanOf(c, d)[i].id) != Redaction.RedactString(PlanOf(c, d)[j].id))
       <==> Stored.KeptApart(d.tasks)
  {
    hide PlanOf, DagValidation.ValidDag, Redaction.RedactString, ActionFor, Guarded, Agent;
    var plan := PlanOf(c, d);
    PlanIsOrdered(c, d);
    if Stored.KeptApart(d.tasks) {
      forall i, j | 0 <= i < j < |plan| ensures Redaction.RedactString(plan[i].id) != Redaction.RedactString(plan[j].id) {
        var t := PlanTask(c, d, i);
        var u := PlanTask(c, d, j);
        assert t.id in Ids(d.tasks) && u.id in Ids(d.tasks);
      }
    } else {
      var x, y :| x in Ids(d.tasks) && y in Ids(d.tasks) && Stored.Kept(x) == Stored.Kept(y) && x != y;
      var i := PlanIndex(c, d, TaskNamed(d.tasks, x));
      var j := PlanIndex(c, d, TaskNamed(d.tasks, y));
      assert plan[i].id == x && plan[j].id == y;
      assert i < j || j < i;
    }
  }

  /** The completion of the run is earned: whenever it is logged, every task has completed, under its stored id. */
  ghost predicate CompletionIsEarned(run: string, c: Catalog, d: TaskDAG)
    requires DagValidation.ValidDag(d)
  {
    forall steps ::
      EmptyRuns.CompletionLogged(RunOf(run, c, d, steps).sh.log) ==> StoredCompletions(d, RunOf(run, c, d, steps).sh.log)
  }

  ghost predicate StoredCompletions(d: TaskDAG, log: seq<Event>) {
    forall t | t in d.tasks :: TaskCompleted(Redaction.RedactString(t.id)) in log
  }

  /** Over all runs of an admitted graph and their restarts, the completion of the run is earned exactly when no two tasks are
      stored under one id. Two that are make the stored graph invalid; after a restart the run has no tasks, and the next
      completed result is taken for the end of the run. */
  lemma CompletionIsEarnedIffKeptApart(run: string, c: Catalog, d: TaskDAG)
    requires DagValidation.ValidDag(d) && d.tasks != [] && Redaction.Clean(run)
    ensures CompletionIsEarned(run, c, d) <==> Stored.KeptApart(d.tasks)
  {
    hide DagValidation.ValidDag, PlanOf, StoredConfig, Reloading.Reloads, Reloading.StoredApart, Stored.KeptApart,
         CompletionIsEarned, Reloading.CompletionIsEarned, Redaction.Clean, Admissible;
    var cfg, later := RunConfig(run, c, d), StoredConfig(run, c, d);
    RedactionIsIdempotent();
    StoredConfigReloads(run, c, d);
    PlanHasTasks(c, d);
    ShortStopsAreAdmissible(cfg);
    Reloading.EarnedIffStoredApart(cfg, later);
    EarnedOverRuns(run, c, d);
  }

  lemma PlanHasTasks(c: Catalog, d: TaskDAG)
    requires DagValidation.ValidDag(d) && d.tasks != []
    ensures PlanOf(c, d) != []
  {
    var i := PlanIndex(c, d, d.tasks[0]);
  }

  lemma EarnedOverRuns(run: string, c: Catalog, d: TaskDAG)
    requires DagValidation.ValidDag(d)
    ensures Reloading.CompletionIsEarned(RunConfig(run, c, d), StoredConfig(run, c, d)) <==> CompletionIsEarned(run, c, d)
  {
    hide DagValidation.ValidDag, PlanOf, RunConfig, StoredConfig, Reloading.Live, Reloading.Earned,
         EmptyRuns.CompletionLogged;
    forall log: seq<Event> ensures Reloading.Earned(RunConfig(run, c, d), log) <==> StoredCompletions(d, log) {
      EarnedByTask(run, c, d, log);
    }
    var cfg, later := RunConfig(run, c, d), StoredConfig(run, c, d);
    assert forall steps :: RunOf(run, c, d, steps) == Reloading.Live(cfg, later, steps);
  }

  lemma ShortStopsAreAdmissible(cfg: Config)
    requires cfg.redact == Redaction.RedactString && Redaction.Clean(cfg.run)
    ensures Fixed(cfg, "run") && Fixed(cfg, "x")
    ensures Admissible(cfg, ControlTask(Halt, "k", "", 0)) && Admissible(cfg, ControlTask(Halt, "k", "x", 0))
  {
    Identifiers.ShortIsClean("run");
    Identifiers.ShortIsClean("x");
    Identifiers.ShortIsClean("k");
    Identifiers.ShortIsClean("");
    Redaction.FixedPointsAreClean("run");
    Redaction.FixedPointsAreClean("x");
    Identifiers.CleanControlsAreAdmissible(cfg, Halt, "k", "", 0);
    Identifiers.CleanControlsAreAdmissible(cfg, Halt, "k", "x", 0);
  }

  lemma EarnedByTask(run: string, c: Catalog, d: TaskDAG, log: seq<Event>)
    requires DagValidation.ValidDag(d)
    ensures Reloading.Earned(RunConfig(run, c, d), log) <==> StoredCompletions(d, log)
  {
    var cfg := RunConfig(run, c, d);
    if Reloading.Earned(cfg, log) {
      forall t | t in d.tasks ensures TaskCompleted(Redaction.RedactString(t.id)) in log {
        var i := PlanIndex(c, d, t);
        assert cfg.plan[i] in cfg.plan;
      }
    } else {
      var p :| p in cfg.plan && TaskCompleted(cfg.redact(p.id)) !in log;
      var i :| 0 <= i < |cfg.plan| && cfg.plan[i] == p;
      var t := PlanTask(c, d, i);
    }
  }
}
