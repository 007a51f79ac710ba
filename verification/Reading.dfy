/** Reading a run back: events after a cursor, bounded pages, and the replayed projection. */
module Reading {
  import opened Model
  import opened Redaction
  import opened Status
  import opened StoreModel
  import opened StoreRuns

  datatype Projection = Projection(run: Run, status: RunStatus, steps: nat, last: int, artifacts: seq<string>)

  // ---- what reading returns

  /** Events after a cursor. */
  function Later(events: seq<Event>, after: int): seq<Event>
    decreases |events|
  {
    if events == [] then []
    else
      var rest, e := Later(events[..|events| - 1], after), events[|events| - 1];
      if e.id > after then rest + [e] else rest
  }

  const ARTIFACT := "artifact.created"

  function Artifact(e: Event): seq<string> {
    if e.typ == ARTIFACT && "name" in e.data && e.data["name"].Text? then [e.data["name"].s] else []
  }

  /** An event names an artifact when it says that one was created and gives its name as a string. */
  lemma ArtifactsAreNamed(e: Event)
    ensures Artifact(e) == [] || |Artifact(e)| == 1
    ensures Artifact(e) != [] <==> e.typ == "artifact.created" && "name" in e.data && e.data["name"].Text?
    ensures Artifact(e) != [] ==> Artifact(e)[0] == e.data["name"].s
  {
  }

  function Artifacts(events: seq<Event>): seq<string>
    decreases |events|
  {
    if events == [] then [] else Artifacts(events[..|events| - 1]) + Artifact(events[|events| - 1])
  }

  function LastID(events: seq<Event>): int { if events == [] then 0 else events[|events| - 1].id }

  function ProjectionFrom(run: Run, events: seq<Event>): Projection {
    Projection(run, Replayed(Types(events)), |events|, LastID(events), Artifacts(events))
  }

  /** How many events a replay up to an id takes: all of them when the bound is not positive. */
  function Taken(events: seq<Event>, upto: int): nat {
    if events == [] || (upto > 0 && events[0].id > upto) then 0 else 1 + Taken(events[1..], upto)
  }

  ghost predicate Rising(events: seq<Event>) {
    forall i, j | 0 <= i < j < |events| :: events[i].id < events[j].id
  }

  // ---- the loops

  method EventsAfter(events: seq<Event>, after: int) returns (out: seq<Event>)
    ensures out == Later(events, after)
  {
    out := [];
    for i := 0 to |events|
      invariant out == Later(events[..i], after)
    {
      assert events[..i + 1][..i] == events[..i];
      if events[i].id > after {
        out := out + [events[i]];
      }
    }
    assert events[..|events|] == events;
  }

  /** The first `limit` events after the cursor, and whether there are more. */
  method EventsLimit(events: seq<Event>, after: int, limit: nat) returns (out: seq<Event>, more: bool)
    ensures more <==> |Later(events, after)| > limit
    ensures out == if more then Later(events, after)[..limit] else Later(events, after)
  {
    out := [];
    for i := 0 to |events|
      invariant out == Later(events[..i], after) && |out| <= limit
    {
      assert events[..i + 1][..i] == events[..i];
      if events[i].id <= after {
        continue;
      }
      if |out| == limit {
        LaterExtends(events, i + 1, after);
        return out, true;
      }
      out := out + [events[i]];
    }
    assert events[..|events|] == events;
    return out, false;
  }

  lemma {:induction false} LaterExtends(events: seq<Event>, n: nat, after: int)
    requires n <= |events|
    ensures Later(events[..n], after) <= Later(events, after)
    decreases |events|
  {
    if n < |events| {
      LaterExtends(events[..|events| - 1], n, after);
      assert events[..|events| - 1][..n] == events[..n];
    } else {
      assert events[..n] == events;
    }
  }

  method Replay(run: Run, events: seq<Event>, upto: int) returns (p: Projection)
    ensures Taken(events, upto) <= |events|
    ensures p == ProjectionFrom(run, events[..Taken(events, upto)])
  {
    p := Projection(run, Status.Created, 0, 0, []);
    TakenBounded(events, upto);
    for i := 0 to |events|
      invariant i <= Taken(events, upto) <= |events|
      invariant p == ProjectionFrom(run, events[..i])
    {
      var e := events[i];
      TakenStops(events, upto, i);
      if upto > 0 && e.id > upto {
        return;
      }
      OneMore(run, events, i);
      p := Projection(run, Read(p.status, e.typ), p.steps + 1, e.id, p.artifacts + Artifact(e));
    }
    assert events[..|events|] == events;
  }

  lemma {:induction false} TakenBounded(events: seq<Event>, upto: int)
    ensures Taken(events, upto) <= |events|
    decreases |events|
  {
    if events != [] { TakenBounded(events[1..], upto); }
  }

  lemma {:induction false} TakenStops(events: seq<Event>, upto: int, i: nat)
    requires i < |events| && i <= Taken(events, upto)
    ensures Taken(events, upto) == i <==> upto > 0 && events[i].id > upto
    decreases i
  {
    if i > 0 { TakenStops(events[1..], upto, i - 1); }
  }

  lemma OneMore(run: Run, events: seq<Event>, i: nat)
    requires i < |events|
    ensures var (p, q) := (ProjectionFrom(run, events[..i]), ProjectionFrom(run, events[..i + 1]));
            q == Projection(run, Read(p.status, events[i].typ), p.steps + 1, events[i].id, p.artifacts + Artifact(events[i]))
  {
    hide Read;
    assert events[..i + 1][..i] == events[..i];
    assert Types(events[..i + 1])[..i] == Types(events[..i]);
  }

  // ---- cursors

  /** With rising ids, what is after a cursor is the rest of the log from some point on. */
  lemma {:induction false} LaterIsRest(events: seq<Event>, after: int) returns (n: nat)
    requires Rising(events)
    ensures n <= |events| && Later(events, after) == events[n..]
    ensures (forall i | 0 <= i < n :: events[i].id <= after) && (forall i | n <= i < |events| :: events[i].id > after)
    decreases |events|
  {
    if events == [] {
      n := 0;
    } else {
      var rest := events[..|events| - 1];
      n := LaterIsRest(rest, after);
      if events[|events| - 1].id > after {
        assert events[n..] == rest[n..] + [events[|events| - 1]];
      } else {
        assert forall i | 0 <= i < |rest| :: rest[i].id <= after;
        n := |events|;
      }
    }
  }

  /** A replay up to an id is the full replay of the events that have no greater id. */
  lemma ReplayUptoIsPrefix(events: seq<Event>, upto: int)
    requires Rising(events) && upto > 0
    ensures var n := Taken(events, upto);
            && n <= |events|
            && (forall i | 0 <= i < n :: events[i].id <= upto)
            && (forall i | n <= i < |events| :: events[i].id > upto)
  {
    TakenBounded(events, upto);
    var n := Taken(events, upto);
    TakenAreBelow(events, upto);
    if n < |events| { TakenStops(events, upto, n); }
  }

  lemma {:induction false} TakenAreBelow(events: seq<Event>, upto: int)
    requires upto > 0
    ensures forall i | 0 <= i < Taken(events, upto) && i < |events| :: events[i].id <= upto
    decreases |events|
  {
    if events != [] && events[0].id <= upto {
      TakenAreBelow(events[1..], upto);
      forall i | 0 <= i < Taken(events, upto) && i < |events| ensures events[i].id <= upto {
        if i > 0 { assert events[1..][i - 1].id <= upto; }
      }
    }
  }

  /** Without a bound everything is replayed. */
  lemma {:induction false} ReplayAll(events: seq<Event>)
    ensures Taken(events, 0) == |events|
    decreases |events|
  {
    if events != [] { ReplayAll(events[1..]); }
  }

  // ---- the stored projection

  /** After any calls, for every run whose event types are read alike: the stored row is the replayed projection. */
  lemma StoredProjectionIsReplayed(calls: seq<Call>, run: string)
    requires run in After(calls).mem.runs
    requires forall t | t in Types(EventsOf(After(calls).mem, run)) :: !Misread(t)
    ensures var s := After(calls);
            var p := ProjectionFrom(s.mem.runs[run], EventsOf(s.mem, run));
            run in s.tables.projections && s.tables.projections[run] == ProjectionRow(p.status, p.steps, p.last)
  {
    hide After, RowFits, Misread, Next, Read, IdsRise, Artifacts;
    DurableAlways(calls);
    var s := After(calls);
    var events, rows := EventsOf(s.mem, run), RowsOf(s.tables.events, run);
    SameTypes(s.mem, s.tables, run);
    LogsAgree(Types(events));
    assert |PlainEvents(events)| == |AsEvents(rows)|;
    if events != [] { assert PlainEvents(events)[|events| - 1] == AsEvents(rows)[|rows| - 1]; }
  }

  /** The row's steps and last id are the replayed ones whatever the types are. */
  lemma StoredStepsAreReplayed(calls: seq<Call>, run: string)
    requires run in After(calls).mem.runs
    ensures var s := After(calls);
            var p := ProjectionFrom(s.mem.runs[run], EventsOf(s.mem, run));
            && run in s.tables.projections
            && s.tables.projections[run].steps == p.steps && s.tables.projections[run].last == p.last
            && s.tables.projections[run].status == Stored(Types(EventsOf(s.mem, run)))
  {
    hide After, RowFits, Next, Read, IdsRise, Artifacts;
    DurableAlways(calls);
    var s := After(calls);
    var events, rows := EventsOf(s.mem, run), RowsOf(s.tables.events, run);
    SameTypes(s.mem, s.tables, run);
    assert |PlainEvents(events)| == |AsEvents(rows)|;
    if events != [] { assert PlainEvents(events)[|events| - 1] == AsEvents(rows)[|rows| - 1]; }
  }
}
