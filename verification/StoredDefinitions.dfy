/** Definitions as the store keeps them: every string of a graph or a catalog is redacted before it is saved, and a server
    that restarts admits what it reads back anew. */
module StoredDefinitions {
  import opened Model
  import opened Graph
  import opened Sequences
  import opened DagValidation
  import Redaction
  import Identifiers

  function Kept(s: string): string {
    Redaction.RedactString(s)
  }

  function KeptAll(ss: seq<string>): (r: seq<string>)
    ensures |r| == |ss|
    ensures forall i | 0 <= i < |ss| :: r[i] == Kept(ss[i])
  {
    seq(|ss|, i requires 0 <= i < |ss| => Kept(ss[i]))
  }

  function KeptTask(t: Task): Task {
    Task(Kept(t.id), Kept(t.version), KeptAll(t.requires_), KeptAll(t.dependsOn), t.cost)
  }

  function KeptTasks(tasks: seq<Task>): (r: seq<Task>)
    ensures |r| == |tasks|
    ensures forall i | 0 <= i < |tasks| :: r[i] == KeptTask(tasks[i])
  {
    seq(|tasks|, i requires 0 <= i < |tasks| => KeptTask(tasks[i]))
  }

  function KeptGraph(d: TaskDAG): TaskDAG {
    TaskDAG(Kept(d.version), KeptTasks(d.tasks), d.maxFanout, d.budget)
  }

  function KeptCapabilities(caps: seq<Capability>): (r: seq<Capability>)
    ensures |r| == |caps|
    ensures forall i | 0 <= i < |caps| :: r[i] == Capability(Kept(caps[i].name), Kept(caps[i].version), caps[i].sideEffecting)
  {
    seq(|caps|, i requires 0 <= i < |caps| => Capability(Kept(caps[i].name), Kept(caps[i].version), caps[i].sideEffecting))
  }

  function KeptAgent(a: Agent): Agent {
    Agent(Kept(a.id), Kept(a.version), KeptAll(a.capabilities), a.priority, a.enabled, a.maxConcurrent)
  }

  function KeptAgents(agents: seq<Agent>): (r: seq<Agent>)
    ensures |r| == |agents|
    ensures forall i | 0 <= i < |agents| :: r[i] == KeptAgent(agents[i])
  {
    seq(|agents|, i requires 0 <= i < |agents| => KeptAgent(agents[i]))
  }

  function KeptCatalog(c: Catalog): Catalog {
    Catalog(Kept(c.version), KeptCapabilities(c.capabilities), KeptAgents(c.agents))
  }

  /** What a catalog must meet to be admitted. */
  ghost predicate ValidCatalog(c: Catalog) {
    && c.version != ""
    && (forall x | x in c.capabilities :: x.name != "" && x.version != "")
    && (forall i, j | 0 <= i < j < |c.capabilities| ::
          c.capabilities[i].name + "@" + c.capabilities[i].version != c.capabilities[j].name + "@" + c.capabilities[j].version)
    && (forall a | a in c.agents :: a.id != "" && a.version != "")
    && (forall i, j | 0 <= i < j < |c.agents| ::
          c.agents[i].id + "@" + c.agents[i].version != c.agents[j].id + "@" + c.agents[j].version)
    && (forall a, key | a in c.agents && key in a.capabilities ::
          exists x | x in c.capabilities :: x.name + "@" + x.version == key)
  }

  // ---- definitions that come back as they were

  ghost predicate CleanAll(ss: seq<string>) {
    forall s | s in ss :: Redaction.Clean(s)
  }

  ghost predicate CleanTask(t: Task) {
    Redaction.Clean(t.id) && Redaction.Clean(t.version) && CleanAll(t.requires_) && CleanAll(t.dependsOn)
  }

  ghost predicate CleanGraph(d: TaskDAG) {
    Redaction.Clean(d.version) && forall t | t in d.tasks :: CleanTask(t)
  }

  ghost predicate CleanAgent(a: Agent) {
    Redaction.Clean(a.id) && Redaction.Clean(a.version) && CleanAll(a.capabilities)
  }

  ghost predicate CleanCatalog(c: Catalog) {
    && Redaction.Clean(c.version)
    && (forall x | x in c.capabilities :: Redaction.Clean(x.name) && Redaction.Clean(x.version))
    && (forall a | a in c.agents :: CleanAgent(a))
  }

  lemma KeptAllIsSame(ss: seq<string>)
    ensures KeptAll(ss) == ss <==> CleanAll(ss)
  {
    forall i | 0 <= i < |ss| ensures Kept(ss[i]) == ss[i] <==> Redaction.Clean(ss[i]) { Redaction.FixedPointsAreClean(ss[i]); }
    if KeptAll(ss) == ss {
      forall s | s in ss ensures Redaction.Clean(s) {
        var i :| 0 <= i < |ss| && ss[i] == s;
        assert KeptAll(ss)[i] == ss[i];
      }
    } else {
      var i :| 0 <= i < |ss| && KeptAll(ss)[i] != ss[i];
      assert ss[i] in ss;
    }
  }

  lemma KeptTaskIsSame(t: Task)
    ensures KeptTask(t) == t <==> CleanTask(t)
  {
    Redaction.FixedPointsAreClean(t.id);
    Redaction.FixedPointsAreClean(t.version);
    KeptAllIsSame(t.requires_);
    KeptAllIsSame(t.dependsOn);
  }

  lemma KeptAgentIsSame(a: Agent)
    ensures KeptAgent(a) == a <==> CleanAgent(a)
  {
    Redaction.FixedPointsAreClean(a.id);
    Redaction.FixedPointsAreClean(a.version);
    KeptAllIsSame(a.capabilities);
  }

  /** A graph comes back as it was exactly when every string in it is clean. */
  lemma GraphComesBackIffClean(d: TaskDAG)
    ensures KeptGraph(d) == d <==> CleanGraph(d)
  {
    Redaction.FixedPointsAreClean(d.version);
    forall t | t in d.tasks ensures KeptTask(t) == t <==> CleanTask(t) { KeptTaskIsSame(t); }
    if KeptTasks(d.tasks) == d.tasks {
      forall t | t in d.tasks ensures KeptTask(t) == t {
        var i :| 0 <= i < |d.tasks| && d.tasks[i] == t;
        assert KeptTasks(d.tasks)[i] == d.tasks[i];
      }
    } else {
      var i :| 0 <= i < |d.tasks| && KeptTasks(d.tasks)[i] != d.tasks[i];
      assert d.tasks[i] in d.tasks;
    }
  }

  lemma CapabilitiesComeBack(caps: seq<Capability>)
    ensures KeptCapabilities(caps) == caps <==> forall x | x in caps :: Redaction.Clean(x.name) && Redaction.Clean(x.version)
  {
    forall i | 0 <= i < |caps|
      ensures KeptCapabilities(caps)[i] == caps[i] <==> Redaction.Clean(caps[i].name) && Redaction.Clean(caps[i].version)
    {
      Redaction.FixedPointsAreClean(caps[i].name);
      Redaction.FixedPointsAreClean(caps[i].version);
    }
    if KeptCapabilities(caps) == caps {
      forall x | x in caps ensures Redaction.Clean(x.name) && Redaction.Clean(x.version) {
        var i :| 0 <= i < |caps| && caps[i] == x;
        assert KeptCapabilities(caps)[i] == caps[i];
      }
    } else {
      var i :| 0 <= i < |caps| && KeptCapabilities(caps)[i] != caps[i];
      assert caps[i] in caps;
    }
  }

  lemma AgentsComeBack(agents: seq<Agent>)
    ensures KeptAgents(agents) == agents <==> forall a | a in agents :: CleanAgent(a)
  {
    forall a | a in agents ensures KeptAgent(a) == a <==> CleanAgent(a) { KeptAgentIsSame(a); }
    if KeptAgents(agents) == agents {
      forall a | a in agents ensures KeptAgent(a) == a {
        var i :| 0 <= i < |agents| && agents[i] == a;
        assert KeptAgents(agents)[i] == agents[i];
      }
    } else {
      var i :| 0 <= i < |agents| && KeptAgents(agents)[i] != agents[i];
      assert agents[i] in agents;
    }
  }

  /** And so does a catalog. */
  lemma CatalogComesBackIffClean(c: Catalog)
    ensures KeptCatalog(c) == c <==> CleanCatalog(c)
  {
    Redaction.FixedPointsAreClean(c.version);
    CapabilitiesComeBack(c.capabilities);
    AgentsComeBack(c.agents);
  }

  // ---- a stored graph is admitted exactly when its tasks are kept apart

  /** No two tasks of the graph are stored under one id. */
  ghost predicate KeptApart(tasks: seq<Task>) {
    forall x, y | x in Ids(tasks) && y in Ids(tasks) && Kept(x) == Kept(y) :: x == y
  }

  lemma ApartIsDistinct(tasks: seq<Task>)
    requires DistinctIds(tasks)
    ensures DistinctIds(KeptTasks(tasks)) <==> KeptApart(tasks)
  {
    hide Kept;
    if KeptApart(tasks) {
      forall i, j | 0 <= i < j < |tasks| ensures Kept(tasks[i].id) != Kept(tasks[j].id) {
        assert tasks[i] in tasks && tasks[j] in tasks;
      }
    } else {
      var x, y :| x in Ids(tasks) && y in Ids(tasks) && Kept(x) == Kept(y) && x != y;
      NotApart(tasks, x, y);
    }
  }

  lemma NotApart(tasks: seq<Task>, x: string, y: string)
    requires x in Ids(tasks) && y in Ids(tasks) && Kept(x) == Kept(y) && x != y
    ensures !DistinctIds(KeptTasks(tasks))
  {
    hide Kept;
    var t :| t in tasks && t.id == x;
    var u :| u in tasks && u.id == y;
    var i :| 0 <= i < |tasks| && tasks[i] == t;
    var j :| 0 <= j < |tasks| && tasks[j] == u;
    assert KeptTasks(tasks)[i].id == KeptTasks(tasks)[j].id;
    assert i < j || j < i;
  }

  lemma {:induction false} CostIsKept(tasks: seq<Task>)
    ensures TotalCost(KeptTasks(tasks)) == TotalCost(tasks)
  {
    if tasks != [] {
      var n := |tasks| - 1;
      assert KeptTasks(tasks)[..n] == KeptTasks(tasks[..n]);
      CostIsKept(tasks[..n]);
    }
  }

  lemma NothingIsKeptEmpty(s: string)
    ensures s != "" ==> Kept(s) != ""
  {
    Identifiers.RedactTwice(s);
  }

  /** A kept edge is the image of an edge. */
  lemma KeptEdge(tasks: seq<Task>, x: string, y: string)
    requires Edge(KeptTasks(tasks), x, y)
    ensures exists a, b :: Edge(tasks, a, b) && Kept(a) == x && Kept(b) == y
  {
    var u :| u in KeptTasks(tasks) && u.id == x && y in u.dependsOn;
    var i :| 0 <= i < |tasks| && KeptTasks(tasks)[i] == u;
    var t := tasks[i];
    var j :| 0 <= j < |t.dependsOn| && Kept(t.dependsOn[j]) == y;
    assert Edge(tasks, t.id, t.dependsOn[j]);
  }

  lemma KeptResolves(tasks: seq<Task>)
    requires Resolved(tasks)
    ensures Resolved(KeptTasks(tasks))
  {
    forall x, y | Edge(KeptTasks(tasks), x, y) ensures y in Ids(KeptTasks(tasks)) {
      KeptEdge(tasks, x, y);
      var a, b :| Edge(tasks, a, b) && Kept(a) == x && Kept(b) == y;
      var t :| t in tasks && t.id == b;
      var i :| 0 <= i < |tasks| && tasks[i] == t;
      assert KeptTasks(tasks)[i] in KeptTasks(tasks);
    }
  }

  /** The id that is kept as `x`. */
  ghost function Original(tasks: seq<Task>, x: string): (y: string)
    requires exists y :: y in Ids(tasks) && Kept(y) == x
    ensures y in Ids(tasks) && Kept(y) == x
  {
    var y :| y in Ids(tasks) && Kept(y) == x;
    y
  }

  lemma OriginalOf(tasks: seq<Task>, y: string)
    requires KeptApart(tasks) && y in Ids(tasks)
    ensures Original(tasks, Kept(y)) == y
  {
  }

  /** Walks among kept ids are the images of walks. */
  lemma KeptCycle(tasks: seq<Task>, p: seq<string>)
    requires KeptApart(tasks) && Resolved(tasks) && IsCycle(KeptTasks(tasks), p)
    ensures HasCycle(tasks)
  {
    forall i | 0 <= i < |p| ensures exists y :: y in Ids(tasks) && Kept(y) == p[i] {
      var j := if i < |p| - 1 then i else 0;
      assert Edge(KeptTasks(tasks), p[j], p[j + 1]);
      KeptEdge(tasks, p[j], p[j + 1]);
      var a, b :| Edge(tasks, a, b) && Kept(a) == p[j] && Kept(b) == p[j + 1];
    }
    var q := seq(|p|, i requires 0 <= i < |p| => Original(tasks, p[i]));
    forall i | 0 <= i < |q| - 1 ensures Edge(tasks, q[i], q[i + 1]) {
      assert Edge(KeptTasks(tasks), p[i], p[i + 1]);
      KeptEdge(tasks, p[i], p[i + 1]);
      var a, b :| Edge(tasks, a, b) && Kept(a) == p[i] && Kept(b) == p[i + 1];
      OriginalOf(tasks, a);
      OriginalOf(tasks, b);
    }
    assert IsCycle(tasks, q);
  }

  lemma KeptListedOnce(tasks: seq<Task>)
    requires KeptApart(tasks) && Resolved(tasks) && DependenciesListedOnce(tasks)
    ensures DependenciesListedOnce(KeptTasks(tasks))
  {
    forall u | u in KeptTasks(tasks) ensures NoRepeat(u.dependsOn) {
      var i :| 0 <= i < |tasks| && KeptTasks(tasks)[i] == u;
      var t := tasks[i];
      assert t in tasks;
      forall a, b | 0 <= a < b < |t.dependsOn| ensures Kept(t.dependsOn[a]) != Kept(t.dependsOn[b]) {
        assert Edge(tasks, t.id, t.dependsOn[a]) && Edge(tasks, t.id, t.dependsOn[b]);
      }
    }
  }

  /** `y` is the only id or dependency kept as `x`. */
  ghost predicate OnlyOne(tasks: seq<Task>, x: string, y: string) {
    Kept(y) == x && forall t, dep | t in tasks && dep in t.dependsOn && Kept(dep) == x :: dep == y
  }

  lemma {:induction false} FanoutIsKept(tasks: seq<Task>, x: string, y: string)
    requires OnlyOne(tasks, x, y)
    ensures Fanout(KeptTasks(tasks), x) == Fanout(tasks, y)
    decreases |tasks|
  {
    if tasks != [] {
      var n := |tasks| - 1;
      assert KeptTasks(tasks)[..n] == KeptTasks(tasks[..n]);
      assert forall t | t in tasks[..n] :: t in tasks;
      FanoutIsKept(tasks[..n], x, y);
      KeptDependency(tasks[n].dependsOn, x, y);
    }
  }

  lemma KeptDependency(deps: seq<string>, x: string, y: string)
    requires Kept(y) == x && forall dep | dep in deps && Kept(dep) == x :: dep == y
    ensures x in KeptAll(deps) <==> y in deps
  {
    if y in deps {
      var i :| 0 <= i < |deps| && deps[i] == y;
      assert KeptAll(deps)[i] == x;
    }
    if x in KeptAll(deps) {
      var i :| 0 <= i < |deps| && KeptAll(deps)[i] == x;
      assert deps[i] in deps;
    }
  }

  lemma {:induction false} FanoutOfNone(tasks: seq<Task>, x: string)
    requires forall t | t in tasks :: x !in t.dependsOn
    ensures Fanout(tasks, x) == 0
    decreases |tasks|
  {
    if tasks != [] {
      assert forall t | t in tasks[..|tasks| - 1] :: t in tasks;
      FanoutOfNone(tasks[..|tasks| - 1], x);
    }
  }

  lemma KeptFanout(tasks: seq<Task>, bound: int, x: string)
    requires KeptApart(tasks) && Resolved(tasks) && bound > 0 && forall y :: Fanout(tasks, y) <= bound
    ensures Fanout(KeptTasks(tasks), x) <= bound
  {
    if t, dep :| t in tasks && dep in t.dependsOn && Kept(dep) == x {
      assert Edge(tasks, t.id, dep);
      forall u, other | u in tasks && other in u.dependsOn && Kept(other) == x ensures other == dep {
        assert Edge(tasks, u.id, other);
      }
      FanoutIsKept(tasks, x, dep);
    } else {
      forall u | u in KeptTasks(tasks) ensures x !in u.dependsOn {
        var i :| 0 <= i < |tasks| && KeptTasks(tasks)[i] == u;
        assert tasks[i] in tasks;
      }
      FanoutOfNone(KeptTasks(tasks), x);
    }
  }

  lemma KeptComplete(tasks: seq<Task>)
    requires Complete(tasks)
    ensures Complete(KeptTasks(tasks))
  {
    forall u | u in KeptTasks(tasks) ensures u.id != "" && u.version != "" {
      var i :| 0 <= i < |tasks| && KeptTasks(tasks)[i] == u;
      assert tasks[i] in tasks;
      NothingIsKeptEmpty(tasks[i].id);
      NothingIsKeptEmpty(tasks[i].version);
    }
  }

  /** An admitted graph is admitted again after a restart exactly when no two of its tasks are stored under one id. */
  lemma GraphIsAdmittedAgainIffApart(d: TaskDAG)
    requires ValidDag(d)
    ensures ValidDag(KeptGraph(d)) <==> KeptApart(d.tasks)
  {
    ApartIsDistinct(d.tasks);
    if KeptApart(d.tasks) {
      NothingIsKeptEmpty(d.version);
      KeptComplete(d.tasks);
      CostIsKept(d.tasks);
      KeptResolves(d.tasks);
      KeptListedOnce(d.tasks);
      forall x ensures Fanout(KeptTasks(d.tasks), x) <= d.maxFanout { KeptFanout(d.tasks, d.maxFanout, x); }
      forall p | IsCycle(KeptTasks(d.tasks), p) ensures false { KeptCycle(d.tasks, p); }
    }
  }
}
