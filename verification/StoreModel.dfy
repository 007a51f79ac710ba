/** The event store and its tables: runs and events are kept in memory and, when durable, in a database whose transactions
    either happen or do not. */
module StoreModel {
  import opened Model
  import opened Redaction
  import opened Status

  // ---- what is kept

  type Data = map<string, Value>

  /** `createdAt` is zero when it was not given. */
  datatype Run = Run(id: string, mode: string, name: string, createdAt: int)

  datatype Event = Event(id: int, sequence: int, run: string, source: string, typ: string, at: int, data: Data)

  datatype EventRow =
    EventRow(id: int, eventID: string, run: string, sequence: int, source: string, typ: string, at: int, data: Data)

  datatype ProjectionRow = ProjectionRow(status: RunStatus, steps: nat, last: int)

  /** `last` is the highest id ever given out. */
  datatype Tables = Tables(
    runs: map<string, Run>, events: seq<EventRow>, projections: map<string, ProjectionRow>, last: int)

  /** `signals` counts how often waiting readers were woken. */
  datatype Memory = Memory(runs: map<string, Run>, events: map<string, seq<Event>>, nextID: int, signals: nat)

  const EMPTY_TABLES := Tables(map[], [], map[], 0)
  const EMPTY_MEMORY := Memory(map[], map[], 0, 0)

  function Redact(d: Data): Data { RedactValue(Object(d)).fields }

  /** A value written as JSON and read back has lost its Go type. */
  function Plain(v: Value): Value
    decreases v
  {
    match v
    case Object(m) => Object(map k | k in m :: Plain(m[k]))
    case List(a) => List(seq(|a|, i requires 0 <= i < |a| => Plain(a[i])))
    case Typed(w) => Plain(w)
    case _ => v
  }

  function PlainData(d: Data): Data { map k | k in d :: Plain(d[k]) }

  function PlainEvent(e: Event): Event { e.(data := PlainData(e.data)) }

  function Decimal(n: nat): (s: string)
    ensures s != []
  {
    if n < 10 then ["0123456789"[n]] else Decimal(n / 10) + ["0123456789"[n % 10]]
  }

  function EventID(run: string, sequence: nat): string {
    run + "-" + Decimal(sequence)
  }

  /** Length in bytes of the UTF-8 encoding. */
  function ByteLength(s: string): nat {
    if s == [] then 0
    else
      ByteLength(s[1..]) +
      (if s[0] < '\U{0080}' then 1 else if s[0] < '\U{0800}' then 2 else if s[0] <= '\U{FFFF}' then 3 else 4)
  }

  /** The length in bytes is the length exactly for ASCII strings. */
  lemma {:induction false} AsciiLength(s: string)
    ensures |s| <= ByteLength(s) <= 4 * |s|
    ensures ByteLength(s) == |s| <==> forall i | 0 <= i < |s| :: s[i] < '\U{0080}'
  {
    if s != [] {
      AsciiLength(s[1..]);
      assert forall i | 0 < i < |s| :: s[i] == s[1..][i - 1];
    }
  }

  // ---- operations on the tables

  function MaxSequence(events: seq<EventRow>, run: string): nat
    decreases |events|
  {
    if events == [] then 0
    else
      var rest, e := MaxSequence(events[..|events| - 1], run), events[|events| - 1];
      if e.run == run && e.sequence > rest then e.sequence else rest
  }

  /** `works` is false when the transaction fails for a reason of its own. */
  function InsertRun(t: Tables, r: Run, works: bool): (Tables, bool) {
    if !works || r.id in t.runs || r.id in t.projections then (t, false)
    else
      (t.(runs := t.runs[r.id := r], projections := t.projections[r.id := ProjectionRow(Created, 0, 0)]), true)
  }

  predicate Unique(events: seq<EventRow>, eventID: string, run: string, sequence: int) {
    forall i | 0 <= i < |events| :: events[i].eventID != eventID && !(events[i].run == run && events[i].sequence == sequence)
  }

  /** Ids increase: `gap` is what the counter skips. */
  function InsertEvent(
    t: Tables, run: string, source: string, typ: string, at: int, data: Data, status: RunStatus, works: bool, gap: nat)
    : (Tables, Option<EventRow>)
  {
    var sequence := MaxSequence(t.events, run) + 1;
    var row := EventRow(t.last + 1 + gap, EventID(run, sequence), run, sequence, source, typ, at, PlainData(data));
    if !works || run !in t.runs || !Unique(t.events, row.eventID, run, sequence) then (t, None)
    else
      var projections :=
        if run in t.projections then t.projections[run := ProjectionRow(status, t.projections[run].steps + 1, row.id)]
        else t.projections;
      (Tables(t.runs, t.events + [row], projections, row.id), Some(row))
  }

  // ---- operations on the store

  function EventsOf(mem: Memory, run: string): seq<Event> {
    if run in mem.events then mem.events[run] else []
  }

  function Types(events: seq<Event>): seq<string> {
    seq(|events|, i requires 0 <= i < |events| => events[i].typ)
  }

  datatype Creation = RunCreated | IdRefused | NameRefused | RunExists | RunNotStored

  ghost function CreateRun(mem: Memory, db: Option<Tables>, given: Run, now: int, works: bool)
    : (Memory, Option<Tables>, Creation)
  {
    if given.id == "" || ByteLength(given.id) > 128 || HasSecret(given.id) then (mem, db, IdRefused)
    else if ByteLength(given.name) > 256 then (mem, db, NameRefused)
    else if given.id in mem.runs then (mem, db, RunExists)
    else
      var run := given.(name := RedactString(given.name), createdAt := if given.createdAt == 0 then now else given.createdAt);
      if db.Some? && !InsertRun(db.value, run, works).1 then (mem, db, RunNotStored)
      else
        (mem.(runs := mem.runs[run.id := run], signals := mem.signals + 1),
         if db.Some? then Some(InsertRun(db.value, run, works).0) else None,
         RunCreated)
  }

  datatype Appended = TypeRefused | RunUnknown | EventNotStored | EventAppended(event: Event)

  function Append(mem: Memory, db: Option<Tables>, run: string, typ: string, data: Data, now: int, works: bool, gap: nat)
    : (Memory, Option<Tables>, Appended)
  {
    if !ValidType(typ) then (mem, db, TypeRefused)
    else if run !in mem.runs then (mem, db, RunUnknown)
    else
      var clean, events := Redact(data), EventsOf(mem, run);
      var mode := mem.runs[run].mode;
      if db.Some? then
        var (t, row) :=
          InsertEvent(db.value, run, mode, typ, now, clean, Next(Stored(Types(events)), typ), works, gap);
        if row.None? then (mem, db, EventNotStored)
        else
          var e := Event(row.value.id, row.value.sequence, run, mode, typ, now, clean);
          (Memory(mem.runs, mem.events[run := events + [e]], e.id, mem.signals + 1), Some(t), EventAppended(e))
      else
        var e := Event(mem.nextID + 1, |events| + 1, run, mode, typ, now, clean);
        (Memory(mem.runs, mem.events[run := events + [e]], e.id, mem.signals + 1), None, EventAppended(e))
  }

  // ---- event ids

  predicate Digit(c: char) { '0' <= c <= '9' }

  lemma {:induction false} DecimalDigits(n: nat, i: nat)
    requires i < |Decimal(n)|
    ensures Digit(Decimal(n)[i])
  {
    if n >= 10 && i < |Decimal(n)| - 1 { DecimalDigits(n / 10, i); }
  }

  function Value10(s: string): int {
    if s == [] then 0 else 10 * Value10(s[..|s| - 1]) + (s[|s| - 1] as int - '0' as int)
  }

  lemma {:induction false} DecimalValue(n: nat)
    ensures Value10(Decimal(n)) == n
  {
    if n < 10 {
      assert Decimal(n)[..0] == [];
    } else {
      DecimalValue(n / 10);
      assert Decimal(n)[..|Decimal(n)| - 1] == Decimal(n / 10);
    }
  }

  /** The number is what follows the last dash, so run and sequence can be read back, dashes in run ids or not. */
  lemma EventIDDetermines(run: string, n: nat, other: string, m: nat)
    requires EventID(run, n) == EventID(other, m)
    ensures run == other && n == m
  {
    var a, b := Decimal(n), Decimal(m);
    var s := EventID(run, n);
    assert s == run + "-" + a == other + "-" + b;
    if |a| < |b| { DashIsNoDigit(run, a, other, b, m); }
    if |b| < |a| { DashIsNoDigit(other, b, run, a, n); }
    assert a == s[|s| - |a|..] && b == s[|s| - |b|..];
    assert run == s[..|s| - |a| - 1] && other == s[..|s| - |b| - 1];
    DecimalValue(n);
    DecimalValue(m);
  }

  lemma DashIsNoDigit(run: string, a: string, other: string, b: string, m: nat)
    requires run + "-" + a == other + "-" + b && b == Decimal(m)
    ensures |a| >= |b|
  {
    if |a| < |b| {
      var s := run + "-" + a;
      var i := |b| - |a| - 1;
      assert s[|run|] == '-';
      assert s[|run|] == (other + "-" + b)[|other| + 1 + i] == b[i];
      DecimalDigits(m, i);
    }
  }

  // ---- what holds of a durable store

  function RowsOf(rows: seq<EventRow>, run: string): seq<EventRow> {
    if rows == [] then []
    else
      var rest, row := RowsOf(rows[..|rows| - 1], run), rows[|rows| - 1];
      if row.run == run then rest + [row] else rest
  }

  function RowTypes(rows: seq<EventRow>): seq<string> {
    seq(|rows|, i requires 0 <= i < |rows| => rows[i].typ)
  }

  /** The row continues its run: the next sequence number, the id made of it, the run's mode, a well-formed type. */
  predicate RowFits(runs: map<string, Run>, before: seq<EventRow>, row: EventRow) {
    && row.run in runs
    && row.sequence == |RowsOf(before, row.run)| + 1
    && row.eventID == EventID(row.run, row.sequence)
    && row.source == runs[row.run].mode
    && ValidType(row.typ)
  }

  predicate RowsFit(runs: map<string, Run>, rows: seq<EventRow>) {
    forall i | 0 <= i < |rows| :: RowFits(runs, rows[..i], rows[i])
  }

  predicate IdsRise(rows: seq<EventRow>, last: int) {
    && (forall i, j | 0 <= i < j < |rows| :: rows[i].id < rows[j].id)
    && (forall i | 0 <= i < |rows| :: 0 < rows[i].id <= last)
  }

  function AsEvent(row: EventRow): Event {
    Event(row.id, row.sequence, row.run, row.source, row.typ, row.at, row.data)
  }

  function AsEvents(rows: seq<EventRow>): seq<Event> {
    seq(|rows|, i requires 0 <= i < |rows| => AsEvent(rows[i]))
  }

  function PlainEvents(events: seq<Event>): seq<Event> {
    seq(|events|, i requires 0 <= i < |events| => PlainEvent(events[i]))
  }

  function ProjectionOf(rows: seq<EventRow>): ProjectionRow {
    ProjectionRow(Stored(RowTypes(rows)), |rows|, if rows == [] then 0 else rows[|rows| - 1].id)
  }

  ghost predicate Mirrors(mem: Memory, t: Tables) {
    && mem.runs == t.runs
    && (forall r | r in mem.events :: r in mem.runs)
    && (forall r | r in mem.runs :: mem.runs[r].id == r && PlainEvents(EventsOf(mem, r)) == AsEvents(RowsOf(t.events, r)))
    && mem.nextID == (if t.events == [] then 0 else t.events[|t.events| - 1].id)
  }

  ghost predicate Projected(t: Tables) {
    t.projections.Keys == t.runs.Keys && forall r | r in t.runs :: t.projections[r] == ProjectionOf(RowsOf(t.events, r))
  }

  /** Memory mirrors the tables, and the tables are in order. */
  ghost predicate Durable(mem: Memory, t: Tables) {
    Mirrors(mem, t) && RowsFit(t.runs, t.events) && IdsRise(t.events, t.last) && t.last >= 0 && Projected(t)
  }

  lemma RowsAppend(rows: seq<EventRow>, row: EventRow, run: string)
    ensures RowsOf(rows + [row], run) == if row.run == run then RowsOf(rows, run) + [row] else RowsOf(rows, run)
  {
    assert (rows + [row])[..|rows|] == rows;
  }

  lemma {:induction false} RowsAreOfRun(rows: seq<EventRow>, run: string)
    ensures forall i | 0 <= i < |RowsOf(rows, run)| :: RowsOf(rows, run)[i] in rows && RowsOf(rows, run)[i].run == run
  {
    if rows != [] {
      RowsAreOfRun(rows[..|rows| - 1], run);
      assert forall x | x in rows[..|rows| - 1] :: x in rows;
    }
  }

  lemma PrefixFits(runs: map<string, Run>, rows: seq<EventRow>, n: nat)
    requires RowsFit(runs, rows) && n <= |rows|
    ensures RowsFit(runs, rows[..n])
  {
    forall i | 0 <= i < n ensures RowFits(runs, rows[..n][..i], rows[..n][i]) { assert rows[..n][..i] == rows[..i]; }
  }

  lemma LastFits(runs: map<string, Run>, rows: seq<EventRow>)
    requires RowsFit(runs, rows) && rows != []
    ensures RowFits(runs, rows[..|rows| - 1], rows[|rows| - 1])
  {
  }

  /** Sequence numbers of a run count its rows. */
  lemma {:induction false} SequenceCounts(runs: map<string, Run>, rows: seq<EventRow>, run: string)
    requires RowsFit(runs, rows)
    ensures MaxSequence(rows, run) == |RowsOf(rows, run)|
    ensures forall i | 0 <= i < |rows| && rows[i].run == run :: 1 <= rows[i].sequence <= |RowsOf(rows, run)|
    ensures forall i | 0 <= i < |RowsOf(rows, run)| :: RowsOf(rows, run)[i].sequence == i + 1
  {
    hide ValidType, EventID, RowsFit;
    if rows != [] {
      var n := |rows| - 1;
      PrefixFits(runs, rows, n);
      SequenceCounts(runs, rows[..n], run);
      LastFits(runs, rows);
      var before := RowsOf(rows[..n], run);
      if rows[n].run == run { assert rows[n].sequence == |before| + 1 && RowsOf(rows, run) == before + [rows[n]]; }
      assert forall i | 0 <= i < n :: rows[i] == rows[..n][i];
    }
  }

  /** The next row of a run never collides with a stored one: the unique indexes do not refuse it. */
  lemma NextRowIsUnique(runs: map<string, Run>, rows: seq<EventRow>, run: string)
    requires RowsFit(runs, rows)
    ensures var sequence := MaxSequence(rows, run) + 1; Unique(rows, EventID(run, sequence), run, sequence)
  {
    hide ValidType, EventID;
    SequenceCounts(runs, rows, run);
    var sequence := MaxSequence(rows, run) + 1;
    forall i | 0 <= i < |rows| ensures rows[i].eventID != EventID(run, sequence) {
      assert RowFits(runs, rows[..i], rows[i]);
      if rows[i].eventID == EventID(run, sequence) { EventIDDetermines(rows[i].run, rows[i].sequence, run, sequence); }
    }
  }
}
