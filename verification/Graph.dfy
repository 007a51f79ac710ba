/** Dependency graphs: walks, cycles, and orders that put every dependency first. */
module Graph {
  import opened Model
  import opened Sequences
  import opened Ordering

  function Ids(tasks: seq<Task>): set<string> { set t | t in tasks :: t.id }

  ghost predicate DistinctIds(tasks: seq<Task>) {
    forall i, j | 0 <= i < j < |tasks| :: tasks[i].id != tasks[j].id
  }

  /** Task `x` depends on `y`. */
  ghost predicate Edge(tasks: seq<Task>, x: string, y: string) {
    exists t | t in tasks :: t.id == x && y in t.dependsOn
  }

  ghost predicate Resolved(tasks: seq<Task>) {
    forall x, y | Edge(tasks, x, y) :: y in Ids(tasks)
  }

  ghost predicate IsWalk(tasks: seq<Task>, p: seq<string>) {
    forall i | 0 <= i < |p| - 1 :: Edge(tasks, p[i], p[i + 1])
  }

  ghost predicate IsCycle(tasks: seq<Task>, p: seq<string>) {
    |p| >= 2 && p[0] == p[|p| - 1] && IsWalk(tasks, p)
  }

  ghost predicate HasCycle(tasks: seq<Task>) {
    exists p :: IsCycle(tasks, p)
  }

  /** Every dependency of the i-th task of `order` stands before it. */
  ghost predicate DependenciesFirst(tasks: seq<Task>, order: seq<string>) {
    forall i, y | 0 <= i < |order| && Edge(tasks, order[i], y) :: y in order[..i]
  }

  /** A permutation of the task ids with dependencies first. */
  ghost predicate IsTopological(tasks: seq<Task>, order: seq<string>) {
    NoRepeat(order) && (set x | x in order) == Ids(tasks) && DependenciesFirst(tasks, order)
  }

  // ---- an order excludes cycles

  lemma {:induction false} WalkDescends(tasks: seq<Task>, order: seq<string>, p: seq<string>, i: nat)
    returns (at: nat)
    requires NoRepeat(order) && DependenciesFirst(tasks, order)
    requires IsWalk(tasks, p) && i < |p| && p[0] in order
    ensures at < |order| && order[at] == p[i]
    ensures i > 0 ==> forall k | 0 <= k < |order| && order[k] == p[0] :: at < k
  {
    if i == 0 {
      at :| 0 <= at < |order| && order[at] == p[0];
    } else {
      var before := WalkDescends(tasks, order, p, i - 1);
      assert Edge(tasks, p[i - 1], p[i - 1 + 1]);
      assert p[i] in order[..before];
      at :| 0 <= at < before && order[at] == p[i];
    }
  }

  lemma OrderExcludesCycles(tasks: seq<Task>, order: seq<string>)
    requires NoRepeat(order) && DependenciesFirst(tasks, order) && Ids(tasks) <= set x | x in order
    ensures !HasCycle(tasks)
  {
    forall p | IsCycle(tasks, p) ensures false {
      assert Edge(tasks, p[0], p[0 + 1]);
      var t :| t in tasks && t.id == p[0] && p[1] in t.dependsOn;
      assert p[0] in Ids(tasks);
      var at := WalkDescends(tasks, order, p, |p| - 1);
    }
  }

  // ---- a finite set in which every task depends on a member holds a cycle

  ghost predicate Waits(tasks: seq<Task>, waiting: set<string>, x: string) {
    exists y | y in waiting :: Edge(tasks, x, y)
  }

  ghost predicate EveryoneWaits(tasks: seq<Task>, waiting: set<string>) {
    forall x {:trigger Waits(tasks, waiting, x)} :: x in waiting ==> Waits(tasks, waiting, x)
  }

  lemma {:induction false} LongWalk(tasks: seq<Task>, waiting: set<string>, start: string, n: nat)
    returns (p: seq<string>)
    requires EveryoneWaits(tasks, waiting) && start in waiting
    ensures |p| == n + 1 && p[0] == start && IsWalk(tasks, p) && forall x | x in p :: x in waiting
    decreases n
  {
    if n == 0 {
      p := [start];
    } else {
      assert Waits(tasks, waiting, start);
      var y :| y in waiting && Edge(tasks, start, y);
      var rest := LongWalk(tasks, waiting, y, n - 1);
      p := [start] + rest;
    }
  }

  lemma WaitingMeansCycle(tasks: seq<Task>, waiting: set<string>)
    requires waiting != {} && EveryoneWaits(tasks, waiting)
    ensures HasCycle(tasks)
  {
    var start :| start in waiting;
    var p := LongWalk(tasks, waiting, start, |waiting|);
    var i, j := Pigeonhole(p, waiting);
    var loop_ := p[i..j + 1];
    forall k | 0 <= k < |loop_| - 1 ensures Edge(tasks, loop_[k], loop_[k + 1]) {
      assert Edge(tasks, p[i + k], p[i + k + 1]);
    }
    assert IsCycle(tasks, loop_);
  }

  // ---- distinct ids

  function IdSeq(tasks: seq<Task>): (ids: seq<string>)
    ensures |ids| == |tasks|
    ensures forall i | 0 <= i < |tasks| :: ids[i] == tasks[i].id
  {
    seq(|tasks|, i requires 0 <= i < |tasks| => tasks[i].id)
  }

  lemma IdsAreDistinct(tasks: seq<Task>)
    ensures |Ids(tasks)| <= |tasks|
    ensures |Ids(tasks)| == |tasks| <==> DistinctIds(tasks)
  {
    var ids := IdSeq(tasks);
    RepeatCountsLess(ids);
    assert (set x | x in ids) == Ids(tasks) by {
      forall x | x in Ids(tasks) ensures x in ids {
        var t :| t in tasks && t.id == x;
        var i :| 0 <= i < |tasks| && tasks[i] == t;
        assert ids[i] == x;
      }
      forall x | x in ids ensures x in Ids(tasks) {
        var i :| 0 <= i < |ids| && ids[i] == x;
        assert tasks[i] in tasks;
      }
    }
    assert DistinctIds(tasks) <==> NoRepeat(ids);
    if DistinctIds(tasks) { NoRepeatCounts(ids); }
  }

  lemma TaskById(tasks: seq<Task>, a: Task, b: Task)
    requires DistinctIds(tasks) && a in tasks && b in tasks && a.id == b.id
    ensures a == b
  {
    var i :| 0 <= i < |tasks| && tasks[i] == a;
    var j :| 0 <= j < |tasks| && tasks[j] == b;
  }
}
