/** The store and its database as objects: each operation carries out, on its fields, what the store's functions say. */
module EventStore {
  import opened Model
  import opened Redaction
  import opened Status
  import opened StoreModel
  import opened StoreRuns
  import Reading

  class Database {
    var runs: map<string, Run>
    var events: seq<EventRow>
    var projections: map<string, ProjectionRow>
    var last: int

    ghost function Value(): Tables
      reads this
    {
      Tables(runs, events, projections, last)
    }

    constructor ()
      ensures Value() == EMPTY_TABLES
    {
      runs, events, projections, last := map[], [], map[], 0;
    }

    /** Both rows or neither. */
    method CreateRun(r: Run, works: bool) returns (ok: bool)
      modifies this
      ensures (Value(), ok) == InsertRun(old(Value()), r, works)
    {
      if r.id in runs || r.id in projections || !works {
        return false;
      }
      runs := runs[r.id := r];
      projections := projections[r.id := ProjectionRow(Status.Created, 0, 0)];
      return true;
    }

    method NextSequence(run: string) returns (sequence: int)
      ensures sequence == MaxSequence(events, run) + 1
    {
      var max := 0;
      for i := 0 to |events|
        invariant max == MaxSequence(events[..i], run)
      {
        assert events[..i + 1][..i] == events[..i];
        if events[i].run == run && events[i].sequence > max {
          max := events[i].sequence;
        }
      }
      assert events[..|events|] == events;
      return max + 1;
    }

    /** The event and its run's projection, or neither. */
    method Append(
      run: string, source: string, typ: string, at: int, data: Data, status: RunStatus, works: bool, gap: nat)
      returns (row: Option<EventRow>)
      modifies this
      ensures (Value(), row) == InsertEvent(old(Value()), run, source, typ, at, data, status, works, gap)
    {
      var sequence := NextSequence(run);
      var eventID := EventID(run, sequence);
      var inserted := EventRow(last + 1 + gap, eventID, run, sequence, source, typ, at, PlainData(data));
      if run !in runs || !Unique(events, eventID, run, sequence) || !works {
        return None;
      }
      events := events + [inserted];
      if run in projections {
        projections := projections[run := ProjectionRow(status, projections[run].steps + 1, inserted.id)];
      }
      last := inserted.id;
      return Some(inserted);
    }
  }

  class Store {
    var runs: map<string, Run>
    var events: map<string, seq<Event>>
    var nextID: int
    var signals: nat
    const db: Database?

    ghost function Value(): Memory
      reads this
    {
      Memory(runs, events, nextID, signals)
    }

    ghost function Disk(): Option<Tables>
      reads this, db
    {
      if db == null then None else Some(db.Value())
    }

    /** A store in memory only. */
    constructor ()
      ensures Value() == EMPTY_MEMORY && Disk() == None
    {
      runs, events, nextID, signals, db := map[], map[], 0, 0, null;
    }

    constructor Over(d: Database, memory: Memory)
      ensures db == d && Value() == memory
    {
      runs, events, nextID, signals, db := memory.runs, memory.events, memory.nextID, memory.signals, d;
    }

    method CreateRun(given: Run, now: int, works: bool) returns (r: Creation)
      modifies this, db
      ensures (Value(), Disk(), r) == StoreModel.CreateRun(old(Value()), old(Disk()), given, now, works)
    {
      var secret := HoldsSecret(given.id);
      if given.id == "" || ByteLength(given.id) > 128 || secret {
        return IdRefused;
      }
      if ByteLength(given.name) > 256 {
        return NameRefused;
      }
      var run := given.(name := RedactString(given.name));
      if run.id in runs {
        return RunExists;
      }
      if run.createdAt == 0 {
        run := run.(createdAt := now);
      }
      if db != null {
        var ok := db.CreateRun(run, works);
        if !ok {
          return RunNotStored;
        }
      }
      runs := runs[run.id := run];
      signals := signals + 1;
      return RunCreated;
    }

    method StatusOf(log: seq<Event>) returns (status: RunStatus)
      ensures status == Stored(Types(log))
    {
      status := Status.Created;
      for i := 0 to |log|
        invariant status == Stored(Types(log[..i]))
      {
        assert Types(log[..i + 1])[..i] == Types(log[..i]);
        status := Next(status, log[i].typ);
      }
      assert log[..|log|] == log;
    }

    method Append(run: string, typ: string, data: Data, now: int, works: bool, gap: nat) returns (r: Appended)
      modifies this, db
      ensures (Value(), Disk(), r) == StoreModel.Append(old(Value()), old(Disk()), run, typ, data, now, works, gap)
    {
      hide ValidType, StoreModel.Redact, Next, Stored, Types, MaxSequence, Unique, EventID, PlainData;
      if !ValidType(typ) {
        return TypeRefused;
      }
      if run !in runs {
        return RunUnknown;
      }
      var clean := Redact(data);
      var log := if run in events then events[run] else [];
      var e;
      if db != null {
        var status := StatusOf(log);
        var row := db.Append(run, runs[run].mode, typ, now, clean, Next(status, typ), works, gap);
        if row.None? {
          return EventNotStored;
        }
        e := Event(row.value.id, row.value.sequence, run, runs[run].mode, typ, now, clean);
        nextID := row.value.id;
      } else {
        nextID := nextID + 1;
        e := Event(nextID, |log| + 1, run, runs[run].mode, typ, now, clean);
      }
      events := events[run := log + [e]];
      signals := signals + 1;
      return EventAppended(e);
    }
  }

  method HoldsSecret(s: string) returns (found: bool)
    ensures found <==> HasSecret(s)
  {
    for i := 0 to |s| + 1
      invariant forall j | 0 <= j < i :: !SecretHere(s[j..])
    {
      if SecretHere(s[i..]) {
        return true;
      }
    }
    return false;
  }

  // ---- opening

  predicate AllFit(runs: map<string, Run>, rows: seq<EventRow>, n: nat)
    requires n <= |rows|
  {
    forall i | 0 <= i < n :: RowFits(runs, rows[..i], rows[i])
  }

  function Expected(expected: map<string, int>, run: string): int {
    if run in expected then expected[run] else 0
  }

  function Collected(events: map<string, seq<Event>>, run: string): seq<Event> {
    if run in events then events[run] else []
  }

  /** What opening has found out about the first `n` rows. */
  ghost predicate Opening(
    runs: map<string, Run>, rows: seq<EventRow>, n: nat, expected: map<string, int>, seen: set<string>,
    events: map<string, seq<Event>>, nextID: int)
  {
    && n <= |rows| && AllFit(runs, rows, n)
    && seen == (set j | 0 <= j < n :: rows[j].eventID)
    && (forall r :: Expected(expected, r) == |RowsOf(rows[..n], r)|)
    && (forall r :: (r in events <==> RowsOf(rows[..n], r) != []) && Collected(events, r) == AsEvents(RowsOf(rows[..n], r)))
    && nextID == MaxID(rows[..n])
  }

  lemma OpeningStarts(runs: map<string, Run>, rows: seq<EventRow>)
    ensures Opening(runs, rows, 0, map[], {}, map[], 0)
  {
    assert rows[..0] == [];
    assert AsEvents([]) == [];
  }

  /** The checks of one row let it through exactly when it fits. */
  lemma ChecksFit(
    runs: map<string, Run>, rows: seq<EventRow>, i: nat, expected: map<string, int>, seen: set<string>,
    events: map<string, seq<Event>>, nextID: int)
    requires i < |rows| && Opening(runs, rows, i, expected, seen, events, nextID)
    ensures Expected(expected, rows[i].run) >= 0
    ensures RowFits(runs, rows[..i], rows[i]) <==>
              var row := rows[i];
              && row.run in runs && row.sequence == Expected(expected, row.run) + 1 && row.eventID != "" && row.eventID !in seen
              && row.eventID == EventID(row.run, row.sequence) && row.source == runs[row.run].mode && ValidType(row.typ)
  {
    hide ValidType, EventID;
    FreshID(runs, rows, i);
  }

  lemma OpeningGoesOn(
    runs: map<string, Run>, rows: seq<EventRow>, i: nat, expected: map<string, int>, seen: set<string>,
    events: map<string, seq<Event>>, nextID: int)
    requires i < |rows| && Opening(runs, rows, i, expected, seen, events, nextID) && RowFits(runs, rows[..i], rows[i])
    ensures var row := rows[i];
            Opening(runs, rows, i + 1, expected[row.run := Expected(expected, row.run) + 1], seen + {row.eventID},
                    events[row.run := Collected(events, row.run) + [AsEvent(row)]], if row.id > nextID then row.id else nextID)
  {
    hide RowFits;
    var row := rows[i];
    assert rows[..i + 1] == rows[..i] + [row];
    Continue(rows[..i], row);
  }

  /** Goes through the rows in the order of their ids and checks each against what came before it in its run. */
  method Open(d: Database) returns (s: Store?)
    ensures s != null <==> Reopened(d.Value()).Some?
    ensures s != null ==> s.db == d && s.Value() == Reopened(d.Value()).value
  {
    hide RowFits, ValidType, EventID, RowsOf, Opening;
    var expected: map<string, int> := map[];
    var seen: set<string> := {};
    var events: map<string, seq<Event>> := map[];
    var nextID := 0;
    OpeningStarts(d.runs, d.events);
    for i := 0 to |d.events|
      invariant Opening(d.runs, d.events, i, expected, seen, events, nextID)
    {
      var row := d.events[i];
      var next := Expected(expected, row.run) + 1;
      ChecksFit(d.runs, d.events, i, expected, seen, events, nextID);
      if row.run !in d.runs || row.sequence != next || row.eventID == "" || row.eventID in seen
         || row.eventID != EventID(row.run, row.sequence) || row.source != d.runs[row.run].mode || !ValidType(row.typ)
      {
        assert !RowFits(d.runs, d.events[..i], d.events[i]);
        return null;
      }
      OpeningGoesOn(d.runs, d.events, i, expected, seen, events, nextID);
      expected := expected[row.run := next];
      seen := seen + {row.eventID};
      events := events[row.run := Collected(events, row.run) + [AsEvent(row)]];
      nextID := if row.id > nextID then row.id else nextID;
    }
    OpeningEnds(d.Value(), expected, seen, events, nextID);
    s := new Store.Over(d, Memory(d.runs, events, nextID, 0));
  }

  lemma OpeningEnds(t: Tables, expected: map<string, int>, seen: set<string>, events: map<string, seq<Event>>, nextID: int)
    requires Opening(t.runs, t.events, |t.events|, expected, seen, events, nextID)
    ensures Reopened(t) == Some(Memory(t.runs, events, nextID, 0))
  {
    hide RowFits;
    assert t.events[..|t.events|] == t.events;
    forall r ensures RowsOf(t.events, r) != [] ==> r in t.runs { KnownRuns(t.runs, t.events, r); }
    assert events == map r | r in t.runs && RowsOf(t.events, r) != [] :: AsEvents(RowsOf(t.events, r));
  }

  lemma KnownRuns(runs: map<string, Run>, rows: seq<EventRow>, r: string)
    requires RowsFit(runs, rows)
    ensures RowsOf(rows, r) != [] ==> r in runs
  {
    if r !in runs { NoRows(runs, rows, r); }
  }

  lemma Continue(before: seq<EventRow>, row: EventRow)
    ensures forall r :: RowsOf(before + [row], r) == if row.run == r then RowsOf(before, r) + [row] else RowsOf(before, r)
    ensures AsEvents(RowsOf(before, row.run) + [row]) == AsEvents(RowsOf(before, row.run)) + [AsEvent(row)]
    ensures MaxID(before + [row]) == if row.id > MaxID(before) then row.id else MaxID(before)
  {
    forall r ensures RowsOf(before + [row], r) == if row.run == r then RowsOf(before, r) + [row] else RowsOf(before, r) {
      RowsAppend(before, row, r);
    }
    assert (before + [row])[..|before|] == before;
  }

  /** A fitting row never repeats an id: looking for repeated ids refuses nothing that the other checks let through. */
  lemma FreshID(runs: map<string, Run>, rows: seq<EventRow>, i: nat)
    requires i < |rows| && AllFit(runs, rows, i)
    ensures RowFits(runs, rows[..i], rows[i]) ==>
              rows[i].eventID != "" && forall j | 0 <= j < i :: rows[j].eventID != rows[i].eventID
  {
    if RowFits(runs, rows[..i], rows[i]) {
      assert RowsFit(runs, rows[..i]) by {
        forall j | 0 <= j < i ensures RowFits(runs, rows[..i][..j], rows[..i][j]) { assert rows[..i][..j] == rows[..j]; }
      }
      SequenceCounts(runs, rows[..i], rows[i].run);
      NextRowIsUnique(runs, rows[..i], rows[i].run);
      forall j | 0 <= j < i ensures rows[j].eventID != rows[i].eventID { assert rows[..i][j] == rows[j]; }
    }
  }
}
