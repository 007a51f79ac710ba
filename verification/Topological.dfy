/** The order in which a run is scheduled: Kahn's algorithm with the ready tasks kept sorted. */
module Topological {
  import opened Model
  import opened Sequences
  import opened Ordering
  import opened Graph
  import DagValidation

  // ---- the order as a function: always the least task whose dependencies are done

  ghost function Ready(tasks: seq<Task>, done: set<string>): set<string> {
    set t | t in tasks && t.id !in done && (forall y | y in t.dependsOn :: y in done) :: t.id
  }

  lemma ReadyIsSmaller(tasks: seq<Task>, done: set<string>, x: string)
    requires x in Ready(tasks, done)
    ensures x in Ids(tasks) - done
    ensures |Ids(tasks) - (done + {x})| < |Ids(tasks) - done|
  {
    assert Ids(tasks) - (done + {x}) == (Ids(tasks) - done) - {x};
  }

  ghost function LeastFirst(tasks: seq<Task>, done: set<string>): (order: seq<string>)
    decreases |Ids(tasks) - done|
  {
    var ready := Ready(tasks, done);
    if ready == {} then []
    else
      var x := Least(ready);
      ReadyIsSmaller(tasks, done, x);
      [x] + LeastFirst(tasks, done + {x})
  }

  ghost function SetOf(s: seq<string>): set<string> { set x | x in s }

  ghost predicate Respects(tasks: seq<Task>, done: set<string>, order: seq<string>) {
    forall i, y | 0 <= i < |order| && Edge(tasks, order[i], y) :: y in done || y in order[..i]
  }

  /** `order` schedules everything outside `done`, dependencies first. */
  ghost predicate Completes(tasks: seq<Task>, done: set<string>, order: seq<string>) {
    NoRepeat(order) && SetOf(order) == Ids(tasks) - done && Respects(tasks, done, order)
  }

  /** A sound stretch of the order: new tasks only, each after what it depends on. */
  ghost predicate Sound(tasks: seq<Task>, done: set<string>, order: seq<string>) {
    NoRepeat(order) && SetOf(order) <= Ids(tasks) - done && Respects(tasks, done, order)
  }

  lemma SoundPrepend(tasks: seq<Task>, done: set<string>, x: string, rest: seq<string>)
    requires DistinctIds(tasks) && x in Ready(tasks, done)
    requires Sound(tasks, done + {x}, rest)
    ensures Sound(tasks, done, [x] + rest)
    ensures done + SetOf([x] + rest) == done + {x} + SetOf(rest)
  {
    assert x !in SetOf(rest);
    assert SetOf([x] + rest) == {x} + SetOf(rest);
    var k := [x] + rest;
    forall i, y | 0 <= i < |k| && Edge(tasks, k[i], y) ensures y in done || y in k[..i] {
      if i == 0 {
        ReadyDependsOnDone(tasks, done, x, y);
      } else {
        assert y in done + {x} || y in rest[..i - 1];
        assert k[..i] == [x] + rest[..i - 1];
      }
    }
  }

  lemma {:induction false} LeastFirstIsSound(tasks: seq<Task>, done: set<string>)
    requires DistinctIds(tasks)
    ensures Sound(tasks, done, LeastFirst(tasks, done))
    ensures Ready(tasks, done + SetOf(LeastFirst(tasks, done))) == {}
    decreases |Ids(tasks) - done|
  {
    if Ready(tasks, done) == {} {
      assert done + SetOf([]) == done;
    } else {
      var x := Least(Ready(tasks, done));
      ReadyIsSmaller(tasks, done, x);
      LeastFirstIsSound(tasks, done + {x});
      SoundPrepend(tasks, done, x, LeastFirst(tasks, done + {x}));
    }
  }

  lemma ReadyDependsOnDone(tasks: seq<Task>, done: set<string>, x: string, y: string)
    requires DistinctIds(tasks) && x in Ready(tasks, done) && Edge(tasks, x, y)
    ensures y in done
  {
    var t :| t in tasks && t.id == x && (forall d | d in t.dependsOn :: d in done);
    var u :| u in tasks && u.id == x && y in u.dependsOn;
    TaskById(tasks, t, u);
  }

  /** Nothing is left over when every dependency resolves and there is no cycle. */
  lemma LeastFirstCompletes(tasks: seq<Task>)
    requires DistinctIds(tasks) && Resolved(tasks) && !HasCycle(tasks)
    ensures Completes(tasks, {}, LeastFirst(tasks, {}))
  {
    LeastFirstIsSound(tasks, {});
    var k := LeastFirst(tasks, {});
    var waiting := Ids(tasks) - SetOf(k);
    if waiting != {} {
      forall x | x in waiting ensures Waits(tasks, waiting, x) {
        var t :| t in tasks && t.id == x;
        assert x !in Ready(tasks, {} + SetOf(k));
        var y :| y in t.dependsOn && y !in {} + SetOf(k);
        assert Edge(tasks, x, y);
      }
      WaitingMeansCycle(tasks, waiting);
    }
  }

  lemma RespectsFromNothing(tasks: seq<Task>, done: set<string>, order: seq<string>)
    requires Respects(tasks, done, order) && done == {}
    ensures DependenciesFirst(tasks, order)
  {
    forall i, y | 0 <= i < |order| && Edge(tasks, order[i], y) ensures y in order[..i] {
      assert y in done || y in order[..i];
    }
  }

  lemma OrderShowsScheduling(tasks: seq<Task>, order: seq<string>)
    requires Completes(tasks, {}, order)
    ensures IsTopological(tasks, order) && Resolved(tasks) && !HasCycle(tasks)
  {
    RespectsFromNothing(tasks, {}, order);
    OrderExcludesCycles(tasks, order);
    forall x, y | Edge(tasks, x, y) ensures y in Ids(tasks) {
      assert x in SetOf(order);
      var i :| 0 <= i < |order| && order[i] == x;
      assert y in order[..i];
      assert y in SetOf(order);
    }
  }

  /** The length of the produced order tells whether the graph can be scheduled at all. */
  lemma ScheduleExists(tasks: seq<Task>)
    requires DistinctIds(tasks)
    ensures |LeastFirst(tasks, {})| == |tasks| <==> Resolved(tasks) && !HasCycle(tasks)
    ensures |LeastFirst(tasks, {})| == |tasks| ==> IsTopological(tasks, LeastFirst(tasks, {}))
  {
    var k := LeastFirst(tasks, {});
    LeastFirstIsSound(tasks, {});
    IdsAreDistinct(tasks);
    NoRepeatCounts(k);
    if Resolved(tasks) && !HasCycle(tasks) {
      LeastFirstCompletes(tasks);
    }
    if |k| == |tasks| {
      SubsetIsSmaller(SetOf(k), Ids(tasks));
      OrderShowsScheduling(tasks, k);
    }
  }

  // ---- among all dependency-respecting orders it is the least

  ghost predicate OrderAtMost(a: seq<string>, b: seq<string>) {
    a == [] || (b != [] && (Less(a[0], b[0]) || (a[0] == b[0] && OrderAtMost(a[1..], b[1..]))))
  }

  lemma {:induction false} LeastFirstIsLeast(tasks: seq<Task>, done: set<string>, other: seq<string>)
    requires DistinctIds(tasks) && Completes(tasks, done, other)
    ensures OrderAtMost(LeastFirst(tasks, done), other)
    decreases |Ids(tasks) - done|
  {
    var ready := Ready(tasks, done);
    if ready != {} {
      var x := Least(ready);
      ReadyIsSmaller(tasks, done, x);
      assert x in SetOf(other);
      FirstIsReady(tasks, done, other);
      var rest := other[1..];
      if x == other[0] {
        RestCompletes(tasks, done, other);
        LeastFirstIsLeast(tasks, done + {x}, rest);
      }
    }
  }

  lemma FirstIsReady(tasks: seq<Task>, done: set<string>, order: seq<string>)
    requires Completes(tasks, done, order) && order != []
    ensures order[0] in Ready(tasks, done)
  {
    assert order[0] in SetOf(order);
    var t :| t in tasks && t.id == order[0];
    forall y | y in t.dependsOn ensures y in done {
      assert Edge(tasks, order[0], y);
      assert order[..0] == [];
    }
  }

  lemma RestCompletes(tasks: seq<Task>, done: set<string>, order: seq<string>)
    requires Completes(tasks, done, order) && order != []
    ensures Completes(tasks, done + {order[0]}, order[1..])
  {
    var x, rest := order[0], order[1..];
    assert SetOf(rest) == Ids(tasks) - (done + {x}) by {
      assert forall z | z in rest :: z in SetOf(order) && z != x;
      forall z | z in Ids(tasks) - (done + {x}) ensures z in rest {
        assert z in SetOf(order);
        assert order == [x] + rest;
      }
    }
    forall i, y | 0 <= i < |rest| && Edge(tasks, rest[i], y) ensures y in done + {x} || y in rest[..i] {
      assert Edge(tasks, order[i + 1], y) && (y in done || y in order[..i + 1]);
      assert order[..i + 1] == [x] + rest[..i];
    }
  }

  /** The order does not depend on how the tasks are listed. */
  lemma {:induction false} LeastFirstIgnoresListing(a: seq<Task>, b: seq<Task>, done: set<string>)
    requires forall t :: t in a <==> t in b
    ensures LeastFirst(a, done) == LeastFirst(b, done)
    decreases |Ids(a) - done|
  {
    assert Ready(a, done) == Ready(b, done);
    assert Ids(a) == Ids(b);
    if Ready(a, done) != {} {
      var x := Least(Ready(a, done));
      ReadyIsSmaller(a, done, x);
      LeastFirstIgnoresListing(a, b, done + {x});
    }
  }

  // ---- the algorithm

  ghost predicate SameIds(order: seq<Task>, ids: seq<string>) {
    |order| == |ids| && forall i | 0 <= i < |order| :: order[i].id == ids[i]
  }

  function Degree(indegree: map<string, int>, x: string): int {
    if x in indegree then indegree[x] else 0
  }

  function ChildrenOf(children: map<string, seq<string>>, x: string): seq<string> {
    if x in children then children[x] else []
  }

  /** Occurrences of `y` among the dependencies of tasks with id `x`. */
  ghost function Uses(tasks: seq<Task>, x: string, y: string): nat {
    if tasks == [] then 0
    else
      var t := tasks[|tasks| - 1];
      Uses(tasks[..|tasks| - 1], x, y) + if t.id == x then multiset(t.dependsOn)[y] else 0
  }

  /** Dependencies, with repetition, that are not done yet. */
  ghost function Pending(deps: seq<string>, done: set<string>): nat {
    if deps == [] then 0
    else Pending(deps[..|deps| - 1], done) + if deps[|deps| - 1] in done then 0 else 1
  }

  lemma {:induction false} PendingZero(deps: seq<string>, done: set<string>)
    ensures Pending(deps, done) == 0 <==> forall y | y in deps :: y in done
  {
    if deps != [] {
      var rest, last := deps[..|deps| - 1], deps[|deps| - 1];
      PendingZero(rest, done);
      assert forall y :: y in deps <==> y in rest || y == last;
    }
  }

  lemma {:induction false} PendingDrops(deps: seq<string>, done: set<string>, x: string)
    requires x !in done
    ensures Pending(deps, done) == Pending(deps, done + {x}) + multiset(deps)[x]
  {
    if deps != [] {
      var rest, last := deps[..|deps| - 1], deps[|deps| - 1];
      PendingDrops(rest, done, x);
      assert deps == rest + [last];
      assert multiset(deps) == multiset(rest) + multiset{last};
    }
  }

  lemma {:induction false} PendingAll(deps: seq<string>)
    ensures Pending(deps, {}) == |deps|
  {
    if deps != [] { PendingAll(deps[..|deps| - 1]); }
  }

  lemma {:induction false} UsesOfTask(tasks: seq<Task>, t: Task, y: string)
    requires DistinctIds(tasks) && t in tasks
    ensures Uses(tasks, t.id, y) == multiset(t.dependsOn)[y]
  {
    var rest, last := tasks[..|tasks| - 1], tasks[|tasks| - 1];
    if t == last {
      NoUses(rest, t.id, y);
    } else {
      assert t in rest;
      UsesOfTask(rest, t, y);
    }
  }

  lemma {:induction false} NoUses(tasks: seq<Task>, x: string, y: string)
    requires forall t | t in tasks :: t.id != x
    ensures Uses(tasks, x, y) == 0
  {
    if tasks != [] { NoUses(tasks[..|tasks| - 1], x, y); }
  }

  ghost predicate Indexed(
    tasks: seq<Task>, byID: map<string, Task>, indegree: map<string, int>, children: map<string, seq<string>>) {
    && byID.Keys == indegree.Keys == Ids(tasks)
    && (forall x | x in byID :: byID[x] in tasks && byID[x].id == x && indegree[x] == |byID[x].dependsOn|)
    && (forall x, y :: multiset(ChildrenOf(children, y))[x] == Uses(tasks, x, y))
  }

  method AddChildren(task: Task, was: map<string, seq<string>>) returns (children: map<string, seq<string>>)
    ensures forall x, y ::
              multiset(ChildrenOf(children, y))[x] ==
              multiset(ChildrenOf(was, y))[x] + if x == task.id then multiset(task.dependsOn)[y] else 0
  {
    children := was;
    for k := 0 to |task.dependsOn|
      invariant forall x, y ::
                  multiset(ChildrenOf(children, y))[x] ==
                  multiset(ChildrenOf(was, y))[x] + if x == task.id then multiset(task.dependsOn[..k])[y] else 0
    {
      var dep := task.dependsOn[k];
      assert task.dependsOn[..k + 1] == task.dependsOn[..k] + [dep];
      children := children[dep := ChildrenOf(children, dep) + [task.id]];
    }
    assert task.dependsOn[..|task.dependsOn|] == task.dependsOn;
  }

  lemma IndexOne(
    tasks: seq<Task>, t: Task, byID: map<string, Task>, indegree: map<string, int>, was: map<string, seq<string>>,
    children: map<string, seq<string>>)
    requires Indexed(tasks, byID, indegree, was)
    requires forall x, y ::
               multiset(ChildrenOf(children, y))[x] ==
               multiset(ChildrenOf(was, y))[x] + if x == t.id then multiset(t.dependsOn)[y] else 0
    ensures Indexed(tasks + [t], byID[t.id := t], indegree[t.id := |t.dependsOn|], children)
  {
    var more := tasks + [t];
    assert more[..|tasks|] == tasks;
    assert Ids(more) == Ids(tasks) + {t.id};
  }

  method Index(tasks: seq<Task>)
    returns (byID: map<string, Task>, indegree: map<string, int>, children: map<string, seq<string>>)
    ensures Indexed(tasks, byID, indegree, children)
  {
    byID, indegree, children := map[], map[], map[];
    for i := 0 to |tasks|
      invariant Indexed(tasks[..i], byID, indegree, children)
    {
      var t := tasks[i];
      assert tasks[..i + 1] == tasks[..i] + [t];
      var more := AddChildren(t, children);
      IndexOne(tasks[..i], t, byID, indegree, children, more);
      byID, indegree, children := byID[t.id := t], indegree[t.id := |t.dependsOn|], more;
    }
    assert tasks[..|tasks|] == tasks;
  }

  lemma {:induction false} UsedIsKnown(tasks: seq<Task>, x: string, y: string)
    requires Uses(tasks, x, y) > 0
    ensures x in Ids(tasks)
  {
    var rest, last := tasks[..|tasks| - 1], tasks[|tasks| - 1];
    if last.id != x {
      UsedIsKnown(rest, x, y);
      var t :| t in rest && t.id == x;
      assert t in tasks;
    } else {
      assert last in tasks;
    }
  }

  /** Takes one finished task off the counts of its children and queues those that reach zero. */
  method Release(kids: seq<string>, before: map<string, int>, queue: seq<string>)
    returns (indegree: map<string, int>, ready: seq<string>)
    requires forall x | x in kids :: x in before
    requires NoRepeat(queue) && Sorted(queue) && forall x | x in queue :: Degree(before, x) <= 0
    ensures indegree.Keys == before.Keys
    ensures forall x :: Degree(indegree, x) == Degree(before, x) - multiset(kids)[x]
    ensures NoRepeat(ready) && Sorted(ready)
    ensures forall x :: x in ready <==> x in queue || (Degree(before, x) > 0 && Degree(indegree, x) <= 0)
  {
    indegree, ready := before, queue;
    for j := 0 to |kids|
      invariant indegree.Keys == before.Keys
      invariant forall x :: Degree(indegree, x) == Degree(before, x) - multiset(kids[..j])[x]
      invariant NoRepeat(ready) && Sorted(ready)
      invariant forall x :: x in ready <==> x in queue || (Degree(before, x) > 0 && Degree(indegree, x) <= 0)
    {
      var child := kids[j];
      assert kids[..j + 1] == kids[..j] + [child];
      ghost var was, queued := indegree, ready;
      indegree := indegree[child := indegree[child] - 1];
      if indegree[child] == 0 {
        assert child !in queued;
        ready := SortStrings(ready + [child]);
        QueueGrows(queued, child, ready);
      }
    }
    assert kids[..|kids|] == kids;
  }

  lemma QueueGrows(queued: seq<string>, child: string, ready: seq<string>)
    requires NoRepeat(queued) && child !in queued && multiset(ready) == multiset(queued + [child])
    ensures NoRepeat(ready)
    ensures forall x :: x in ready <==> x in queued || x == child
  {
    NoRepeatIsAtMostOnce(queued + [child]);
    NoRepeatIsAtMostOnce(ready);
    forall x ensures x in ready <==> x in queued || x == child {
      assert x in ready <==> x in multiset(ready);
      assert x in queued + [child] <==> x in multiset(queued + [child]);
    }
  }

  method InitialReady(indegree: map<string, int>) returns (ready: seq<string>)
    ensures NoRepeat(ready) && Sorted(ready)
    ensures forall x :: x in ready <==> x in indegree && indegree[x] == 0
  {
    ready := [];
    var todo := indegree.Keys;
    while todo != {}
      invariant todo <= indegree.Keys
      invariant NoRepeat(ready)
      invariant forall x :: x in ready <==> x in indegree.Keys - todo && indegree[x] == 0
      decreases todo
    {
      var id :| id in todo;
      if indegree[id] == 0 {
        ready := ready + [id];
      }
      todo := todo - {id};
    }
    var sorted := SortStrings(ready);
    NoRepeatIsAtMostOnce(ready);
    NoRepeatIsAtMostOnce(sorted);
    forall x ensures x in sorted <==> x in ready {
      assert x in sorted <==> x in multiset(sorted);
      assert x in ready <==> x in multiset(ready);
    }
    ready := sorted;
  }

  /** With distinct ids the counters are exact and the queue holds exactly the tasks that may come next. */
  ghost predicate Exact(
    tasks: seq<Task>, byID: map<string, Task>, indegree: map<string, int>, done: set<string>, ready: seq<string>) {
    && (forall x | x in byID :: Degree(indegree, x) == Pending(byID[x].dependsOn, done))
    && (forall x :: x in ready <==> x in Ready(tasks, done))
  }

  ghost predicate ById(tasks: seq<Task>, byID: map<string, Task>) {
    byID.Keys == Ids(tasks) && forall x | x in byID :: byID[x] in tasks && byID[x].id == x
  }

  lemma ReadyByCount(tasks: seq<Task>, byID: map<string, Task>, done: set<string>, x: string)
    requires DistinctIds(tasks) && ById(tasks, byID)
    ensures x in Ready(tasks, done) <==> x in byID && x !in done && Pending(byID[x].dependsOn, done) == 0
  {
    if x in byID {
      PendingZero(byID[x].dependsOn, done);
      if x in Ready(tasks, done) {
        var t :| t in tasks && t.id == x && t.id !in done && (forall y | y in t.dependsOn :: y in done);
        TaskById(tasks, t, byID[x]);
      }
    }
  }

  lemma ExactInitially(
    tasks: seq<Task>, byID: map<string, Task>, indegree: map<string, int>, children: map<string, seq<string>>,
    ready: seq<string>)
    requires DistinctIds(tasks) && Indexed(tasks, byID, indegree, children)
    requires forall x :: x in ready <==> x in indegree && indegree[x] == 0
    ensures Exact(tasks, byID, indegree, {}, ready)
  {
    forall x | x in byID ensures Degree(indegree, x) == Pending(byID[x].dependsOn, {}) {
      PendingAll(byID[x].dependsOn);
    }
    forall x ensures x in ready <==> x in Ready(tasks, {}) { ReadyByCount(tasks, byID, {}, x); }
  }

  lemma ExactStep(
    tasks: seq<Task>, byID: map<string, Task>, kids: seq<string>, before: map<string, int>, indegree: map<string, int>,
    done: set<string>, queue: seq<string>, ready: seq<string>)
    requires DistinctIds(tasks) && ById(tasks, byID) && before.Keys == byID.Keys
    requires queue != [] && NoRepeat(queue) && queue[0] !in done && Exact(tasks, byID, before, done, queue)
    requires forall x | x in done :: Degree(before, x) <= 0
    requires forall x :: multiset(kids)[x] == Uses(tasks, x, queue[0])
    requires forall x :: Degree(indegree, x) == Degree(before, x) - multiset(kids)[x]
    requires forall x ::
               x in ready <==> x in queue[1..] || (Degree(before, x) > 0 && Degree(indegree, x) <= 0)
    ensures Exact(tasks, byID, indegree, done + {queue[0]}, ready)
  {
    var id := queue[0];
    forall x | x in byID ensures Degree(indegree, x) == Pending(byID[x].dependsOn, done + {id}) {
      PendingDrops(byID[x].dependsOn, done, id);
      UsesOfTask(tasks, byID[x], id);
    }
    forall x ensures x in ready <==> x in Ready(tasks, done + {id}) {
      ReadyByCount(tasks, byID, done, x);
      ReadyByCount(tasks, byID, done + {id}, x);
      assert x in queue <==> x == id || x in queue[1..];
      assert id !in queue[1..] && id in queue;
    }
  }

  lemma PopKeepsApart(ids: seq<string>, queue: seq<string>)
    requires queue != [] && NoRepeat(ids + queue)
    ensures NoRepeat(queue) && NoRepeat(queue[1..]) && NoRepeat(ids + [queue[0]])
    ensures queue[0] !in ids && forall x | x in queue[1..] :: x !in ids + [queue[0]]
  {
    var all, n := ids + queue, |ids|;
    forall i, j | 0 <= i < j < |queue| ensures queue[i] != queue[j] { assert all[n + i] != all[n + j]; }
    forall i, j | 0 <= i < j < n + 1 ensures (ids + [queue[0]])[i] != (ids + [queue[0]])[j] {
      assert all[i] != all[j];
    }
    forall i | 0 <= i < n ensures ids[i] != queue[0] { assert all[i] != all[n]; }
    forall x | x in queue[1..] ensures x !in ids + [queue[0]] {
      var j :| 1 <= j < |queue| && queue[j] == x;
      forall i | 0 <= i < n ensures ids[i] != x { assert all[i] != all[n + j]; }
    }
  }

  lemma StayApart(ids: seq<string>, ready: seq<string>)
    requires NoRepeat(ids) && NoRepeat(ready) && forall x | x in ready :: x !in ids
    ensures NoRepeat(ids + ready)
  {
    var all := ids + ready;
    forall i, j | 0 <= i < j < |all| ensures all[i] != all[j] {
      if i < |ids| <= j { assert ready[j - |ids|] in ready && ids[i] in ids; }
    }
  }

  lemma LeastFirstStep(tasks: seq<Task>, ids: seq<string>, queue: seq<string>)
    requires queue != [] && Sorted(queue) && forall x :: x in queue <==> x in Ready(tasks, SetOf(ids))
    ensures ids + LeastFirst(tasks, SetOf(ids)) ==
            ids + [queue[0]] + LeastFirst(tasks, SetOf(ids + [queue[0]]))
  {
    var ready := Ready(tasks, SetOf(ids));
    assert queue[0] in ready;
    SortedHeadIsLeast(queue);
    assert (set x | x in queue) == ready;
    LeastUnique(queue[0], Least(ready), ready);
    assert SetOf(ids + [queue[0]]) == SetOf(ids) + {queue[0]};
  }

  lemma TooFewIds(tasks: seq<Task>, ids: seq<string>)
    requires NoRepeat(ids) && SetOf(ids) <= Ids(tasks)
    ensures |ids| <= |Ids(tasks)| <= |tasks|
    ensures |ids| == |tasks| ==> DistinctIds(tasks)
  {
    NoRepeatCounts(ids);
    SubsetIsSmaller(SetOf(ids), Ids(tasks));
    IdsAreDistinct(tasks);
  }

  /** What holds between rounds: emitted and queued ids are apart and have no pending count left, and with distinct
      ids the counts are exact and the emitted ids are a beginning of the least order. */
  ghost predicate BetweenRounds(
    tasks: seq<Task>, byID: map<string, Task>, indegree: map<string, int>, ids: seq<string>, ready: seq<string>) {
    && indegree.Keys == byID.Keys && Sorted(ready) && NoRepeat(ids + ready)
    && (forall x | x in ids + ready :: x in byID && Degree(indegree, x) <= 0)
    && (DistinctIds(tasks) ==>
          Exact(tasks, byID, indegree, SetOf(ids), ready) &&
          ids + LeastFirst(tasks, SetOf(ids)) == LeastFirst(tasks, {}))
  }

  lemma RoundKeeps(
    tasks: seq<Task>, byID: map<string, Task>, kids: seq<string>, before: map<string, int>, indegree: map<string, int>,
    ids: seq<string>, queue: seq<string>, ready: seq<string>)
    requires ById(tasks, byID) && BetweenRounds(tasks, byID, before, ids, queue) && queue != []
    requires forall x :: multiset(kids)[x] == Uses(tasks, x, queue[0])
    requires indegree.Keys == before.Keys && NoRepeat(ready) && Sorted(ready)
    requires forall x :: Degree(indegree, x) == Degree(before, x) - multiset(kids)[x]
    requires forall x :: x in ready <==> x in queue[1..] || (Degree(before, x) > 0 && Degree(indegree, x) <= 0)
    ensures BetweenRounds(tasks, byID, indegree, ids + [queue[0]], ready)
  {
    hide LeastFirst, Uses, DistinctIds;
    var id, more := queue[0], ids + [queue[0]];
    PopKeepsApart(ids, queue);
    assert id in ids + queue;
    forall x | x in ready ensures x in byID && x !in more && Degree(indegree, x) <= 0 {
      assert x in queue[1..] || x in ids ==> x in ids + queue;
    }
    forall x | x in more ensures x in byID && Degree(indegree, x) <= 0 {
      assert x in ids + queue;
    }
    StayApart(more, ready);
    if DistinctIds(tasks) {
      LeastFirstStep(tasks, ids, queue);
      forall x | x in SetOf(ids) ensures Degree(before, x) <= 0 { assert x in ids + queue; }
      ExactStep(tasks, byID, kids, before, indegree, SetOf(ids), queue, ready);
      assert SetOf(more) == SetOf(ids) + {id};
    }
  }

  /** One round: the head of the queue is emitted and its children are released. */
  method Emit(
    ghost tasks: seq<Task>, byID: map<string, Task>, before: map<string, int>, children: map<string, seq<string>>,
    ghost ids: seq<string>, queue: seq<string>)
    returns (id: string, indegree: map<string, int>, ready: seq<string>)
    requires ById(tasks, byID) && forall x, y :: multiset(ChildrenOf(children, y))[x] == Uses(tasks, x, y)
    requires BetweenRounds(tasks, byID, before, ids, queue) && queue != []
    ensures id in byID && BetweenRounds(tasks, byID, indegree, ids + [id], ready)
    ensures |ids| < |tasks|
  {
    id := queue[0];
    PopKeepsApart(ids, queue);
    assert id in ids + queue && forall x | x in ids :: x in ids + queue;
    TooFewIds(tasks, ids + [id]);
    var kids := ChildrenOf(children, id);
    forall x | x in kids ensures x in before {
      assert multiset(kids)[x] > 0;
      UsedIsKnown(tasks, x, id);
    }
    forall x | x in queue[1..] ensures Degree(before, x) <= 0 { assert x in ids + queue; }
    indegree, ready := Release(kids, before, queue[1..]);
    RoundKeeps(tasks, byID, kids, before, indegree, ids, queue, ready);
  }

  /** Succeeds exactly when ids are distinct, every dependency is a task and there is no cycle; the result is then the
      least order that puts dependencies first. */
  method Sort(tasks: seq<Task>) returns (order: seq<Task>, ok: bool)
    ensures ok <==> DistinctIds(tasks) && Resolved(tasks) && !HasCycle(tasks)
    ensures ok ==> SameIds(order, LeastFirst(tasks, {})) && forall t | t in order :: t in tasks
  {
    hide Uses, HasCycle, Resolved;
    var byID, indegree, children := Index(tasks);
    var ready := InitialReady(indegree);
    order := [];
    ghost var ids: seq<string> := [];
    Start(tasks, byID, indegree, children, ready);
    while ready != []
      invariant SameIds(order, ids) && forall t | t in order :: t in tasks
      invariant BetweenRounds(tasks, byID, indegree, ids, ready)
      decreases |tasks| - |ids|
    {
      var id;
      id, indegree, ready := Emit(tasks, byID, indegree, children, ids, ready);
      order, ids := order + [byID[id]], ids + [id];
    }
    assert ids + ready == ids;
    TooFewIds(tasks, ids);
    ok := |order| == |tasks|;
    if DistinctIds(tasks) {
      ScheduleExists(tasks);
    }
  }

  lemma Start(
    tasks: seq<Task>, byID: map<string, Task>, indegree: map<string, int>, children: map<string, seq<string>>,
    ready: seq<string>)
    requires Indexed(tasks, byID, indegree, children) && NoRepeat(ready) && Sorted(ready)
    requires forall x :: x in ready <==> x in indegree && indegree[x] == 0
    ensures BetweenRounds(tasks, byID, indegree, [], ready)
  {
    assert [] + ready == ready;
    assert SetOf([]) == {};
    forall x | x in [] + ready ensures x in byID && Degree(indegree, x) <= 0 { assert x in ready; }
    if DistinctIds(tasks) {
      ExactInitially(tasks, byID, indegree, children, ready);
      assert [] + LeastFirst(tasks, {}) == LeastFirst(tasks, {});
    }
  }

  /** Every admitted graph can be scheduled: its order is a permutation of the tasks with dependencies first. */
  lemma AdmittedGraphIsSchedulable(d: TaskDAG)
    requires DagValidation.ValidDag(d)
    ensures Completes(d.tasks, {}, LeastFirst(d.tasks, {})) && |LeastFirst(d.tasks, {})| == |d.tasks|
  {
    LeastFirstCompletes(d.tasks);
    ScheduleExists(d.tasks);
  }
}
