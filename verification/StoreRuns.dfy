/** The durable store over any sequence of calls: ids rise, sequences count, no append collides, the stored projection is
    the replayed one, and reopening the tables gives back what was in memory. */
module StoreRuns {
  import opened Model
  import opened Redaction
  import opened Status
  import opened StoreModel

  datatype Call =
    | NewRun(given: Run, now: int, works: bool)
    | NewEvent(run: string, typ: string, data: Data, now: int, works: bool, gap: nat)

  datatype Shop = Shop(mem: Memory, tables: Tables)

  ghost function Apply(s: Shop, call: Call): Shop {
    match call
    case NewRun(run, now, works) =>
      var (mem, db, _) := CreateRun(s.mem, Some(s.tables), run, now, works);
      Shop(mem, if db.Some? then db.value else s.tables)
    case NewEvent(run, typ, data, now, works, gap) =>
      var (mem, db, _) := Append(s.mem, Some(s.tables), run, typ, data, now, works, gap);
      Shop(mem, if db.Some? then db.value else s.tables)
  }

  ghost function After(calls: seq<Call>): Shop
    decreases |calls|
  {
    if calls == [] then Shop(EMPTY_MEMORY, EMPTY_TABLES) else Apply(After(calls[..|calls| - 1]), calls[|calls| - 1])
  }

  // ---- one call

  lemma MirrorsNewRun(mem: Memory, t: Tables, run: Run, next: Tables)
    requires Mirrors(mem, t) && run.id !in mem.runs && RowsOf(t.events, run.id) == []
    requires next.runs == t.runs[run.id := run] && next.events == t.events
    ensures Mirrors(mem.(runs := mem.runs[run.id := run], signals := mem.signals + 1), next)
  {
    hide Plain;
    var after := mem.(runs := mem.runs[run.id := run], signals := mem.signals + 1);
    forall r | r in after.runs ensures PlainEvents(EventsOf(after, r)) == AsEvents(RowsOf(next.events, r)) {
      if r != run.id { assert r in mem.runs; }
    }
  }

  lemma FitsNewRun(runs: map<string, Run>, rows: seq<EventRow>, run: Run)
    requires RowsFit(runs, rows) && run.id !in runs
    ensures RowsFit(runs[run.id := run], rows)
  {
    hide ValidType, EventID, RowsOf;
    forall i | 0 <= i < |rows| ensures RowFits(runs[run.id := run], rows[..i], rows[i]) {
      assert RowFits(runs, rows[..i], rows[i]);
    }
  }

  lemma ProjectedNewRun(t: Tables, run: Run, next: Tables)
    requires Projected(t) && run.id !in t.runs && RowsOf(t.events, run.id) == []
    requires next.runs == t.runs[run.id := run] && next.events == t.events
    requires next.projections == t.projections[run.id := ProjectionRow(Status.Created, 0, 0)]
    ensures Projected(next)
  {
    hide Next;
    assert RowTypes([]) == [];
    assert ProjectionOf([]) == ProjectionRow(Status.Created, 0, 0);
  }

  lemma InsertRunKeeps(mem: Memory, t: Tables, run: Run)
    requires Durable(mem, t) && run.id !in mem.runs
    ensures InsertRun(t, run, true).1
    ensures Durable(mem.(runs := mem.runs[run.id := run], signals := mem.signals + 1), InsertRun(t, run, true).0)
  {
    hide RowFits, RowsOf, ProjectionOf, PlainEvents, AsEvents, IdsRise, RowsFit;
    var next := InsertRun(t, run, true).0;
    NoRows(t.runs, t.events, run.id);
    MirrorsNewRun(mem, t, run, next);
    FitsNewRun(t.runs, t.events, run);
    ProjectedNewRun(t, run, next);
  }

  lemma {:induction false} NoRows(runs: map<string, Run>, rows: seq<EventRow>, run: string)
    requires RowsFit(runs, rows) && run !in runs
    ensures RowsOf(rows, run) == []
  {
    if rows != [] {
      PrefixFits(runs, rows, |rows| - 1);
      NoRows(runs, rows[..|rows| - 1], run);
      assert RowFits(runs, rows[..|rows| - 1], rows[|rows| - 1]);
    }
  }

  lemma CreateRunKeeps(s: Shop, run: Run, now: int, works: bool)
    requires Durable(s.mem, s.tables)
    ensures var t := Apply(s, NewRun(run, now, works)); Durable(t.mem, t.tables)
  {
    hide HasSecret, ByteLength, RedactString, Durable;
    var (mem, db, made) := CreateRun(s.mem, Some(s.tables), run, now, works);
    if made.RunCreated? {
      var stored := run.(name := RedactString(run.name), createdAt := if run.createdAt == 0 then now else run.createdAt);
      InsertRunKeeps(s.mem, s.tables, stored);
    }
  }

  lemma FitsAppend(runs: map<string, Run>, rows: seq<EventRow>, row: EventRow)
    requires RowsFit(runs, rows) && RowFits(runs, rows, row)
    ensures RowsFit(runs, rows + [row])
  {
    var all := rows + [row];
    forall i | 0 <= i < |all| ensures RowFits(runs, all[..i], all[i]) {
      assert all[..i] == rows[..i];
      assert rows[..|rows|] == rows;
    }
  }

  lemma MirrorsAppend(mem: Memory, t: Tables, e: Event, row: EventRow, next: Tables)
    requires Mirrors(mem, t) && e.run in mem.runs && row.run == e.run && AsEvent(row) == PlainEvent(e)
    requires next.runs == t.runs && next.events == t.events + [row]
    ensures Mirrors(Memory(mem.runs, mem.events[e.run := EventsOf(mem, e.run) + [e]], e.id, mem.signals + 1), next)
  {
    var after := Memory(mem.runs, mem.events[e.run := EventsOf(mem, e.run) + [e]], e.id, mem.signals + 1);
    forall r | r in after.runs ensures PlainEvents(EventsOf(after, r)) == AsEvents(RowsOf(next.events, r)) {
      RowsAppend(t.events, row, r);
      assert PlainEvents(EventsOf(mem, r)) == AsEvents(RowsOf(t.events, r));
      if r == e.run {
        assert PlainEvents(EventsOf(mem, r) + [e]) == PlainEvents(EventsOf(mem, r)) + [PlainEvent(e)];
        assert AsEvents(RowsOf(t.events, r) + [row]) == AsEvents(RowsOf(t.events, r)) + [AsEvent(row)];
      }
    }
  }

  lemma SameTypes(mem: Memory, t: Tables, run: string)
    requires Mirrors(mem, t) && run in mem.runs
    ensures Types(EventsOf(mem, run)) == RowTypes(RowsOf(t.events, run))
  {
    var events, rows := EventsOf(mem, run), RowsOf(t.events, run);
    assert |PlainEvents(events)| == |AsEvents(rows)|;
    forall i | 0 <= i < |events| ensures events[i].typ == rows[i].typ {
      assert PlainEvents(events)[i] == AsEvents(rows)[i];
    }
  }

  lemma ProjectedAppend(t: Tables, row: EventRow, status: RunStatus, next: Tables)
    requires Projected(t) && row.run in t.runs
    requires status == Next(Stored(RowTypes(RowsOf(t.events, row.run))), row.typ)
    requires next.runs == t.runs && next.events == t.events + [row]
    requires next.projections == t.projections[row.run := ProjectionRow(status, t.projections[row.run].steps + 1, row.id)]
    ensures Projected(next)
  {
    hide Next, RowsOf;
    forall r | r in next.runs ensures next.projections[r] == ProjectionOf(RowsOf(next.events, r)) {
      RowsAppend(t.events, row, r);
      if r == row.run {
        var rows := RowsOf(t.events, r);
        assert RowTypes(rows + [row])[..|rows|] == RowTypes(rows);
      }
    }
  }

  /** A valid append to a known run fails only when its transaction does. */
  lemma AppendGoesThrough(mem: Memory, t: Tables, run: string, typ: string, data: Data, now: int, works: bool, gap: nat)
    requires Durable(mem, t)
    ensures Append(mem, Some(t), run, typ, data, now, works, gap).2.EventAppended? <==>
              ValidType(typ) && run in mem.runs && works
  {
    hide ValidType, Redact, Next, Stored, Plain, EventID, RowFits, ProjectionOf, RowsOf, MaxSequence, Unique, Types;
    NextRowIsUnique(t.runs, t.events, run);
  }

  lemma InsertEventFits(mem: Memory, t: Tables, run: string, typ: string, at: int, data: Data, status: RunStatus, gap: nat)
    requires Durable(mem, t) && run in t.runs && ValidType(typ)
    ensures var (next, row) := InsertEvent(t, run, t.runs[run].mode, typ, at, data, status, true, gap);
            && row.Some? && RowFits(t.runs, t.events, row.value) && row.value.id == t.last + 1 + gap
            && row.value == EventRow(row.value.id, row.value.eventID, run, row.value.sequence, t.runs[run].mode, typ, at,
                                     PlainData(data))
            && next == Tables(t.runs, t.events + [row.value],
                              t.projections[run := ProjectionRow(status, t.projections[run].steps + 1, row.value.id)],
                              row.value.id)
  {
    hide ValidType, Plain, EventID, ProjectionOf, Stored, Next;
    NextRowIsUnique(t.runs, t.events, run);
    SequenceCounts(t.runs, t.events, run);
  }

  lemma IdsAppend(rows: seq<EventRow>, last: int, row: EventRow)
    requires IdsRise(rows, last) && last >= 0 && row.id > last
    ensures IdsRise(rows + [row], row.id)
  {
  }

  /** The store after an event was inserted with its row. */
  lemma InsertedKeeps(mem: Memory, t: Tables, e: Event, row: EventRow, next: Tables)
    requires Durable(mem, t) && e.run in mem.runs && row.run == e.run && AsEvent(row) == PlainEvent(e) && row.id > t.last
    requires RowFits(t.runs, t.events, row)
    requires next == Tables(t.runs, t.events + [row],
                            t.projections[row.run := ProjectionRow(Next(Stored(RowTypes(RowsOf(t.events, row.run))), row.typ),
                                                                   t.projections[row.run].steps + 1, row.id)], row.id)
    ensures Durable(Memory(mem.runs, mem.events[e.run := EventsOf(mem, e.run) + [e]], e.id, mem.signals + 1), next)
  {
    hide ValidType, Next, Stored, Plain, RowFits, EventID, ProjectionOf, PlainEvents, AsEvents, IdsRise, RowsFit;
    FitsAppend(t.runs, t.events, row);
    IdsAppend(t.events, t.last, row);
    MirrorsAppend(mem, t, e, row, next);
    ProjectedAppend(t, row, Next(Stored(RowTypes(RowsOf(t.events, row.run))), row.typ), next);
  }

  lemma AppendKeeps(s: Shop, run: string, typ: string, data: Data, now: int, works: bool, gap: nat)
    requires Durable(s.mem, s.tables)
    ensures var t := Apply(s, NewEvent(run, typ, data, now, works, gap)); Durable(t.mem, t.tables)
  {
    hide ValidType, Redact, Next, Stored, Plain, RowFits, EventID, ProjectionOf, PlainEvents, AsEvents, IdsRise, RowsFit, RowsOf,
         MaxSequence, Unique, InsertEvent, Types, RowTypes;
    var (mem, db, out) := Append(s.mem, Some(s.tables), run, typ, data, now, works, gap);
    if out.EventAppended? {
      var status := Next(Stored(Types(EventsOf(s.mem, run))), typ);
      AppendGoesThrough(s.mem, s.tables, run, typ, data, now, works, gap);
      InsertEventFits(s.mem, s.tables, run, typ, now, Redact(data), status, gap);
      SameTypes(s.mem, s.tables, run);
      var row := InsertEvent(s.tables, run, s.mem.runs[run].mode, typ, now, Redact(data), status, true, gap).1.value;
      InsertedKeeps(s.mem, s.tables, out.event, row, db.value);
    }
  }

  lemma {:induction false} DurableAlways(calls: seq<Call>)
    ensures Durable(After(calls).mem, After(calls).tables)
    decreases |calls|
  {
    if calls == [] {
      assert RowsFit(map[], []);
    } else {
      DurableAlways(calls[..|calls| - 1]);
      var s := After(calls[..|calls| - 1]);
      match calls[|calls| - 1]
      case NewRun(run, now, works) => CreateRunKeeps(s, run, now, works);
      case NewEvent(run, typ, data, now, works, gap) => AppendKeeps(s, run, typ, data, now, works, gap);
    }
  }

  // ---- what follows

  /** In every store: ids rise over all runs together, and each run's sequence is 1, 2, 3 and so on. */
  lemma IdsRiseAndSequencesCount(calls: seq<Call>, run: string, i: nat)
    requires run in After(calls).mem.runs && i < |EventsOf(After(calls).mem, run)|
    ensures var events := EventsOf(After(calls).mem, run);
            && events[i].sequence == i + 1
            && 0 < events[i].id <= After(calls).mem.nextID
            && (i > 0 ==> events[i - 1].id < events[i].id)
  {
    hide After, RowFits, Projected;
    DurableAlways(calls);
    var s := After(calls);
    var events, rows := EventsOf(s.mem, run), RowsOf(s.tables.events, run);
    SequenceCounts(s.tables.runs, s.tables.events, run);
    RowIdsRise(s.tables.events, s.tables.last, run);
    assert PlainEvents(events)[i] == AsEvents(rows)[i];
    if i > 0 { assert PlainEvents(events)[i - 1] == AsEvents(rows)[i - 1]; }
  }

  lemma {:induction false} RowIdsRise(rows: seq<EventRow>, last: int, run: string)
    requires IdsRise(rows, last)
    ensures IdsRise(RowsOf(rows, run), if rows == [] then 0 else rows[|rows| - 1].id)
    decreases |rows|
  {
    if rows != [] {
      var n := |rows| - 1;
      assert forall i | 0 <= i < n :: rows[..n][i] == rows[i];
      RowIdsRise(rows[..n], last, run);
    }
  }

  // ---- reopening

  /** What opening the tables makes of them. */
  ghost function Reopened(t: Tables): Option<Memory> {
    if RowsFit(t.runs, t.events) then
      Some(Memory(t.runs, map r | r in t.runs && RowsOf(t.events, r) != [] :: AsEvents(RowsOf(t.events, r)), MaxID(t.events), 0))
    else None
  }

  function MaxID(rows: seq<EventRow>): int
    decreases |rows|
  {
    if rows == [] then 0
    else
      var rest, id := MaxID(rows[..|rows| - 1]), rows[|rows| - 1].id;
      if id > rest then id else rest
  }

  lemma {:induction false} LastIsMax(rows: seq<EventRow>, last: int)
    requires IdsRise(rows, last)
    ensures MaxID(rows) == if rows == [] then 0 else rows[|rows| - 1].id
    decreases |rows|
  {
    if rows != [] {
      var n := |rows| - 1;
      assert forall i | 0 <= i < n :: rows[..n][i] == rows[i];
      LastIsMax(rows[..n], last);
    }
  }

  /** After any calls, the tables open, with the runs, the ids and, up to what JSON forgets, the events that were in memory. */
  lemma ReopenAgrees(calls: seq<Call>)
    ensures var s := After(calls);
            && Reopened(s.tables).Some?
            && Reopened(s.tables).value.runs == s.mem.runs
            && Reopened(s.tables).value.nextID == s.mem.nextID
            && forall r | r in s.mem.runs :: EventsOf(Reopened(s.tables).value, r) == PlainEvents(EventsOf(s.mem, r))
  {
    DurableAlways(calls);
    var s := After(calls);
    LastIsMax(s.tables.events, s.tables.last);
    forall r | r in s.mem.runs ensures EventsOf(Reopened(s.tables).value, r) == PlainEvents(EventsOf(s.mem, r)) {
      assert RowsOf(s.tables.events, r) == [] ==> AsEvents(RowsOf(s.tables.events, r)) == [];
    }
  }
}
