/** Admission of a task graph: ids, exact cost within the budget, fan-out, resolved dependencies, and no cycle. */
module DagValidation {
  import opened Model
  import opened Sequences
  import opened Graph

  datatype DagError =
    | NoError
    | VersionRequired
    | FanoutBoundRequired
    | TaskIncomplete
    | DuplicateTask(id: string)
    | CostOverflow
    | BudgetExceeded
    | UnknownDependency(task: string, dependency: string)
    | DuplicateDependency(task: string, dependency: string)
    | FanoutExceeded(dependency: string)
    | Cycle(id: string)

  // ---- the declarative meaning of a valid graph

  ghost function TotalCost(tasks: seq<Task>): nat {
    if tasks == [] then 0 else TotalCost(tasks[..|tasks| - 1]) + tasks[|tasks| - 1].cost
  }

  /** How many tasks depend on `x`. */
  ghost function Fanout(tasks: seq<Task>, x: string): nat {
    if tasks == [] then 0
    else Fanout(tasks[..|tasks| - 1], x) + if x in tasks[|tasks| - 1].dependsOn then 1 else 0
  }

  ghost predicate Complete(tasks: seq<Task>) {
    forall t | t in tasks :: t.id != "" && t.version != ""
  }

  ghost predicate DependenciesListedOnce(tasks: seq<Task>) {
    forall t | t in tasks :: NoRepeat(t.dependsOn)
  }

  ghost predicate ValidDag(d: TaskDAG) {
    && d.version != ""
    && d.maxFanout > 0
    && Complete(d.tasks)
    && DistinctIds(d.tasks)
    && TotalCost(d.tasks) <= d.budget
    && Resolved(d.tasks)
    && DependenciesListedOnce(d.tasks)
    && (forall x :: Fanout(d.tasks, x) <= d.maxFanout)
    && !HasCycle(d.tasks)
  }

  /** What each refusal says about the graph. */
  ghost predicate Fault(d: TaskDAG, err: DagError) {
    match err
    case NoError => false
    case VersionRequired => d.version == ""
    case FanoutBoundRequired => d.maxFanout <= 0
    case TaskIncomplete => !Complete(d.tasks)
    case DuplicateTask(id) => id in Ids(d.tasks) && !DistinctIds(d.tasks)
    case CostOverflow => TotalCost(d.tasks) > U64_MAX
    case BudgetExceeded => TotalCost(d.tasks) > d.budget
    case UnknownDependency(t, y) => Edge(d.tasks, t, y) && y !in Ids(d.tasks)
    case DuplicateDependency(t, y) => Edge(d.tasks, t, y) && !DependenciesListedOnce(d.tasks)
    case FanoutExceeded(y) => Fanout(d.tasks, y) > d.maxFanout
    case Cycle(id) => id in Ids(d.tasks) && HasCycle(d.tasks)
  }

  lemma {:induction false} CostGrows(tasks: seq<Task>, n: nat)
    requires n <= |tasks|
    ensures TotalCost(tasks[..n]) <= TotalCost(tasks)
    decreases |tasks|
  {
    if n < |tasks| {
      var rest := tasks[..|tasks| - 1];
      assert rest[..n] == tasks[..n];
      CostGrows(rest, n);
    } else {
      assert tasks[..n] == tasks;
    }
  }

  lemma {:induction false} FanoutGrows(tasks: seq<Task>, n: nat, x: string)
    requires n <= |tasks|
    ensures Fanout(tasks[..n], x) <= Fanout(tasks, x)
    decreases |tasks|
  {
    if n < |tasks| {
      var rest := tasks[..|tasks| - 1];
      assert rest[..n] == tasks[..n];
      FanoutGrows(rest, n, x);
    } else {
      assert tasks[..n] == tasks;
    }
  }

  lemma FaultIsInvalid(d: TaskDAG, err: DagError)
    requires Fault(d, err)
    ensures !ValidDag(d)
  {
  }

  // ---- the first two passes

  ghost predicate Recorded(ids: map<string, Task>, tasks: seq<Task>) {
    ids.Keys == Ids(tasks) && forall x | x in ids :: ids[x] in tasks && ids[x].id == x
  }

  lemma RecordTask(ids: map<string, Task>, tasks: seq<Task>, t: Task)
    requires Recorded(ids, tasks) && Complete(tasks) && DistinctIds(tasks)
    requires t.id !in ids && t.id != "" && t.version != ""
    ensures Recorded(ids[t.id := t], tasks + [t]) && Complete(tasks + [t]) && DistinctIds(tasks + [t])
  {
    assert Ids(tasks + [t]) == Ids(tasks) + {t.id};
    forall i | 0 <= i < |tasks| ensures tasks[i].id != t.id {
      assert tasks[i] in tasks && tasks[i].id in Ids(tasks);
    }
  }

  lemma OneMoreTask(tasks: seq<Task>, t: Task, x: string)
    ensures TotalCost(tasks + [t]) == TotalCost(tasks) + t.cost
    ensures Fanout(tasks + [t], x) == Fanout(tasks, x) + if x in t.dependsOn then 1 else 0
  {
    assert (tasks + [t])[..|tasks|] == tasks;
  }

  lemma NoTasks()
    ensures TotalCost([]) == 0 && Recorded(map[], [])
  {
  }

  lemma SecondOccurrence(tasks: seq<Task>, i: nat)
    requires i < |tasks| && tasks[i].id in Ids(tasks[..i])
    ensures !DistinctIds(tasks)
  {
    var u :| u in tasks[..i] && u.id == tasks[i].id;
    var k :| 0 <= k < i && tasks[..i][k] == u;
    assert tasks[k].id == tasks[i].id;
  }

  method CheckTasks(d: TaskDAG) returns (err: DagError, ids: map<string, Task>)
    ensures err != NoError ==> Fault(d, err)
    ensures err == NoError ==>
              Complete(d.tasks) && DistinctIds(d.tasks) && TotalCost(d.tasks) <= d.budget && Recorded(ids, d.tasks)
  {
    hide TotalCost, Fanout;
    ids := map[];
    var cost: u64 := 0;
    assert d.tasks[..0] == [];
    NoTasks();
    for i := 0 to |d.tasks|
      invariant cost == TotalCost(d.tasks[..i])
      invariant Recorded(ids, d.tasks[..i]) && Complete(d.tasks[..i]) && DistinctIds(d.tasks[..i])
    {
      var t := d.tasks[i];
      assert d.tasks[..i + 1] == d.tasks[..i] + [t];
      if t.id == "" || t.version == "" {
        return TaskIncomplete, ids;
      }
      if t.id in ids {
        SecondOccurrence(d.tasks, i);
        return DuplicateTask(t.id), ids;
      }
      RecordTask(ids, d.tasks[..i], t);
      OneMoreTask(d.tasks[..i], t, t.id);
      ids := ids[t.id := t];
      if U64_MAX - cost < t.cost {
        CostGrows(d.tasks, i + 1);
        return CostOverflow, ids;
      }
      cost := cost + t.cost;
    }
    assert d.tasks[..|d.tasks|] == d.tasks;
    if cost > d.budget {
      return BudgetExceeded, ids;
    }
    return NoError, ids;
  }

  function CountOf(children: map<string, int>, x: string): int {
    if x in children then children[x] else 0
  }

  /** The counters hold the fan-out of every task seen so far, and none exceeds the bound. */
  ghost predicate Counted(children: map<string, int>, tasks: seq<Task>, bound: int) {
    forall x :: CountOf(children, x) == Fanout(tasks, x) <= bound
  }

  ghost predicate KnownOnce(deps: seq<string>, ids: set<string>) {
    NoRepeat(deps) && forall y | y in deps :: y in ids
  }

  method CheckTaskDependencies(d: TaskDAG, ids: map<string, Task>, i: nat, was: map<string, int>)
    returns (err: DagError, children: map<string, int>)
    requires ids.Keys == Ids(d.tasks) && i < |d.tasks| && Counted(was, d.tasks[..i], d.maxFanout)
    ensures err != NoError ==> Fault(d, err)
    ensures err == NoError ==> KnownOnce(d.tasks[i].dependsOn, ids.Keys)
    ensures err == NoError ==> Counted(children, d.tasks[..i + 1], d.maxFanout)
  {
    var t := d.tasks[i];
    var seen: set<string> := {};
    children := was;
    for k := 0 to |t.dependsOn|
      invariant seen == set y | y in t.dependsOn[..k]
      invariant KnownOnce(t.dependsOn[..k], ids.Keys)
      invariant forall x :: CountOf(children, x) == CountOf(was, x) + if x in seen then 1 else 0
      invariant forall x :: CountOf(children, x) <= d.maxFanout
    {
      var dep := t.dependsOn[k];
      assert Edge(d.tasks, t.id, dep);
      if dep !in ids {
        return UnknownDependency(t.id, dep), children;
      }
      if dep in seen {
        var m :| 0 <= m < k && t.dependsOn[m] == dep;
        assert t.dependsOn[m] == t.dependsOn[k];
        return DuplicateDependency(t.id, dep), children;
      }
      seen := seen + {dep};
      children := children[dep := CountOf(children, dep) + 1];
      if children[dep] > d.maxFanout {
        TaskCounted(d.tasks, i, dep);
        FanoutGrows(d.tasks, i + 1, dep);
        return FanoutExceeded(dep), children;
      }
    }
    assert t.dependsOn[..|t.dependsOn|] == t.dependsOn;
    forall x ensures CountOf(children, x) == Fanout(d.tasks[..i + 1], x) { TaskCounted(d.tasks, i, x); }
    return NoError, children;
  }

  lemma TaskCounted(tasks: seq<Task>, i: nat, x: string)
    requires i < |tasks|
    ensures Fanout(tasks[..i + 1], x) == Fanout(tasks[..i], x) + if x in tasks[i].dependsOn then 1 else 0
  {
    assert tasks[..i + 1] == tasks[..i] + [tasks[i]];
    OneMoreTask(tasks[..i], tasks[i], x);
  }

  method CheckDependencies(d: TaskDAG, ids: map<string, Task>) returns (err: DagError)
    requires ids.Keys == Ids(d.tasks) && d.maxFanout > 0
    ensures err != NoError ==> Fault(d, err)
    ensures err == NoError ==>
              Resolved(d.tasks) && DependenciesListedOnce(d.tasks) && forall x :: Fanout(d.tasks, x) <= d.maxFanout
  {
    var children: map<string, int> := map[];
    for i := 0 to |d.tasks|
      invariant Counted(children, d.tasks[..i], d.maxFanout)
      invariant forall j | 0 <= j < i :: KnownOnce(d.tasks[j].dependsOn, ids.Keys)
    {
      err, children := CheckTaskDependencies(d, ids, i, children);
      if err != NoError {
        return err;
      }
    }
    assert d.tasks[..|d.tasks|] == d.tasks;
    return NoError;
  }

  // ---- the three-colour depth-first search

  /** 1 marks a task whose exploration is open, 2 one that is finished; finished tasks are listed dependencies first. */
  ghost predicate Coloured(tasks: seq<Task>, ids: map<string, Task>, state: map<string, int>, finished: seq<string>) {
    && state.Keys <= ids.Keys
    && (forall x | x in state :: state[x] == 1 || state[x] == 2)
    && (forall x :: x in finished <==> x in state && state[x] == 2)
    && NoRepeat(finished) && DependenciesFirst(tasks, finished)
  }

  ghost function Open(state: map<string, int>): set<string> {
    set x | x in state && state[x] == 1
  }

  class Search {
    const ids: map<string, Task>
    var state: map<string, int>
    ghost const tasks: seq<Task>
    ghost var finished: seq<string>

    ghost predicate Valid()
      reads this
    {
      DistinctIds(tasks) && Resolved(tasks) && Recorded(ids, tasks) && Coloured(tasks, ids, state, finished)
    }

    constructor (ids: map<string, Task>, ghost tasks: seq<Task>)
      requires DistinctIds(tasks) && Resolved(tasks) && Recorded(ids, tasks)
      ensures Valid() && Open(state) == {} && this.ids == ids && this.tasks == tasks
    {
      this.ids := ids;
      this.tasks := tasks;
      state := map[];
      finished := [];
    }

    /** Explores everything `id` depends on. `path` is the chain of open tasks that led here. */
    method Visit(id: string, ghost path: seq<string>) returns (ok: bool)
      requires Valid() && id in ids
      requires (set x | x in path) == Open(state) && IsWalk(tasks, path + [id])
      modifies this
      ensures !ok ==> HasCycle(tasks)
      ensures ok ==> Valid() && Open(state) == old(Open(state)) && id in finished
      ensures ok ==> old(finished) <= finished && old(state.Keys) <= state.Keys
      decreases ids.Keys - state.Keys
    {
      hide HasCycle, DependenciesFirst, Resolved, DistinctIds;
      if id in state && state[id] == 1 {
        assert id in Open(state);
        PathCloses(tasks, path, id);
        return false;
      }
      if id in state && state[id] == 2 {
        return true;
      }
      ghost var here := path + [id];
      OpenTask(tasks, ids, state, finished, id, path);
      state := state[id := 1];
      var deps := ids[id].dependsOn;
      for i := 0 to |deps|
        invariant Valid() && Open(state) == old(Open(state)) + {id}
        invariant old(finished) <= finished && old(state.Keys) + {id} <= state.Keys
        invariant forall k | 0 <= k < i :: deps[k] in finished
      {
        WalkExtends(tasks, ids, path, id, i);
        ok := Visit(deps[i], here);
        if !ok {
          return false;
        }
      }
      FinishLast(tasks, ids, finished, id);
      CloseTask(tasks, ids, state, finished, id);
      state := state[id := 2];
      finished := finished + [id];
      return true;
    }
  }

  lemma OpenTask(
    tasks: seq<Task>, ids: map<string, Task>, state: map<string, int>, finished: seq<string>, id: string, path: seq<string>)
    requires Coloured(tasks, ids, state, finished) && id in ids && id !in state
    requires (set x | x in path) == Open(state)
    ensures Coloured(tasks, ids, state[id := 1], finished)
    ensures Open(state[id := 1]) == Open(state) + {id} == (set x | x in path + [id])
    ensures id !in Open(state)
  {
  }

  lemma CloseTask(tasks: seq<Task>, ids: map<string, Task>, state: map<string, int>, finished: seq<string>, id: string)
    requires Coloured(tasks, ids, state, finished) && id in Open(state)
    requires DependenciesFirst(tasks, finished + [id])
    ensures Coloured(tasks, ids, state[id := 2], finished + [id])
    ensures Open(state[id := 2]) == Open(state) - {id}
  {
    assert id !in finished;
  }

  lemma PathCloses(tasks: seq<Task>, path: seq<string>, id: string)
    requires id in path && IsWalk(tasks, path + [id])
    ensures HasCycle(tasks)
  {
    var i :| 0 <= i < |path| && path[i] == id;
    var c := (path + [id])[i..];
    forall k | 0 <= k < |c| - 1 ensures Edge(tasks, c[k], c[k + 1]) {
      assert Edge(tasks, (path + [id])[i + k], (path + [id])[i + k + 1]);
    }
    assert IsCycle(tasks, c);
  }

  lemma WalkExtends(tasks: seq<Task>, ids: map<string, Task>, path: seq<string>, id: string, i: nat)
    requires Resolved(tasks) && Recorded(ids, tasks) && id in ids && i < |ids[id].dependsOn|
    requires IsWalk(tasks, path + [id])
    ensures ids[id].dependsOn[i] in ids && IsWalk(tasks, path + [id] + [ids[id].dependsOn[i]])
  {
    var dep := ids[id].dependsOn[i];
    assert Edge(tasks, id, dep);
    var p := path + [id] + [dep];
    forall k | 0 <= k < |p| - 1 ensures Edge(tasks, p[k], p[k + 1]) {
      if k < |path| { assert Edge(tasks, (path + [id])[k], (path + [id])[k + 1]); }
    }
  }

  lemma FinishLast(tasks: seq<Task>, ids: map<string, Task>, finished: seq<string>, id: string)
    requires DistinctIds(tasks) && Recorded(ids, tasks) && id in ids
    requires DependenciesFirst(tasks, finished)
    requires forall k | 0 <= k < |ids[id].dependsOn| :: ids[id].dependsOn[k] in finished
    ensures DependenciesFirst(tasks, finished + [id])
  {
    var after := finished + [id];
    forall i, y | 0 <= i < |after| && Edge(tasks, after[i], y) ensures y in after[..i] {
      if i < |finished| {
        assert after[..i] == finished[..i];
      } else {
        var t :| t in tasks && t.id == id && y in t.dependsOn;
        TaskById(tasks, t, ids[id]);
        assert after[..i] == finished;
      }
    }
  }

  method CheckCycles(tasks: seq<Task>, ids: map<string, Task>) returns (err: DagError)
    requires DistinctIds(tasks) && Resolved(tasks) && Recorded(ids, tasks)
    ensures err == NoError <==> !HasCycle(tasks)
    ensures err != NoError ==> err.Cycle? && err.id in Ids(tasks)
  {
    var search := new Search(ids, tasks);
    var keys := ids.Keys;
    while keys != {}
      invariant search.Valid() && Open(search.state) == {} && search.ids == ids && search.tasks == tasks
      invariant keys <= ids.Keys
      invariant forall x | x in ids.Keys - keys :: x in search.finished
      decreases keys
    {
      var id :| id in keys;
      var ok := search.Visit(id, []);
      if !ok {
        return Cycle(id);
      }
      keys := keys - {id};
    }
    OrderExcludesCycles(tasks, search.finished);
    return NoError;
  }

  method Validate(d: TaskDAG) returns (err: DagError)
    ensures err == NoError <==> ValidDag(d)
    ensures err != NoError ==> Fault(d, err)
  {
    if d.version == "" {
      return VersionRequired;
    }
    if d.maxFanout <= 0 {
      return FanoutBoundRequired;
    }
    var ids;
    err, ids := CheckTasks(d);
    if err == NoError {
      err := CheckDependencies(d, ids);
    }
    if err == NoError {
      err := CheckCycles(d.tasks, ids);
    }
    if err != NoError {
      FaultIsInvalid(d, err);
    }
  }
}
