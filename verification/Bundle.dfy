/** Replay bundles: a run and its events with checksums, written as JSON, read back, checked, and replayed in a store of
    their own. */
module Bundle {
  import opened Model
  import opened Redaction
  import opened Status
  import opened StoreModel
  import opened StoreRuns
  import opened Reading
  import EventStore

  const FORMAT := "n0ding-replay/v1"
  const MAX_BYTES := 8 * 1024 * 1024
  const PRODUCT := "dispatch"

  /** Checksums of what JSON keeps; a collision-free hash is a constructor over what it hashes. */
  datatype Checksum = OfEvents(events: seq<Event>) | OfProjection(p: Projection)

  datatype Manifest = Manifest(format: string, mode: string, runID: string, projection: Checksum, events: Checksum, count: int)

  datatype Bundle = Bundle(manifest: Manifest, run: Run, events: seq<Event>)

  datatype Verdict =
    | Oversized
    | Malformed
    | ManifestMismatch
    | EventChecksumMismatch
    | RunMismatch
    | IntegrityError
    | RunRefused
    | ProjectionChecksumMismatch
    | Accepted(projection: Projection)

  /** The storage cursor is not part of the checksum. */
  function Normal(p: Projection): Projection { p.(last := 0) }

  lemma OnlyTheCursorIsFree(p: Projection, q: Projection)
    ensures OfProjection(Normal(p)) == OfProjection(Normal(q)) <==>
            p.run == q.run && p.status == q.status && p.steps == q.steps && p.artifacts == q.artifacts
  {
  }

  // ---- writing

  function Export(mem: Memory, run: string): Option<Bundle> {
    if run !in mem.runs then None
    else
      var r, events := mem.runs[run], EventsOf(mem, run);
      Some(Bundle(Manifest(FORMAT, r.mode, run, OfProjection(Normal(ProjectionFrom(r, events))), OfEvents(PlainEvents(events)),
                           |events|), r, events))
  }

  /** What is read back from a bundle's JSON. */
  function Written(b: Bundle): Bundle { b.(events := PlainEvents(b.events)) }

  // ---- reading

  /** What decoding one event demands. */
  predicate WellFormed(e: Event) {
    e.id >= 1 && e.run != "" && e.sequence >= 1 && e.at != 0 && e.source == PRODUCT && ValidType(e.typ)
  }

  predicate Integral(b: Bundle, n: nat)
    requires n <= |b.events|
  {
    forall i | 0 <= i < n ::
      && b.events[i].run == b.manifest.runID && b.events[i].source == b.manifest.mode && b.events[i].sequence == i + 1
      && forall j | 0 <= j < i :: b.events[j].id != b.events[i].id
  }

  function Imported(run: Run, events: seq<Event>, now: int): seq<Event> {
    seq(|events|, i requires 0 <= i < |events| =>
          Event(i + 1, i + 1, run.id, run.mode, events[i].typ, now, Redact(events[i].data)))
  }

  ghost predicate RunAdmitted(r: Run) {
    r.id != "" && ByteLength(r.id) <= 128 && !HasSecret(r.id) && ByteLength(r.name) <= 256
  }

  function ImportedRun(r: Run, now: int): Run {
    r.(name := RedactString(r.name), createdAt := if r.createdAt == 0 then now else r.createdAt)
  }

  /** Checks a decoded bundle of the given size and replays it. */
  ghost function Verify(b: Bundle, size: nat, now: int): Verdict {
    if size > MAX_BYTES then Oversized
    else if exists i | 0 <= i < |b.events| :: !WellFormed(b.events[i]) then Malformed
    else if b.manifest.format != FORMAT || b.manifest.count != |b.events| then ManifestMismatch
    else if OfEvents(b.events) != b.manifest.events then EventChecksumMismatch
    else if b.run.id != b.manifest.runID || b.run.mode != b.manifest.mode then RunMismatch
    else if !Integral(b, |b.events|) then IntegrityError
    else if !RunAdmitted(b.run) then RunRefused
    else
      var p := ProjectionFrom(ImportedRun(b.run, now), Imported(b.run, b.events, now));
      if OfProjection(Normal(p)) != b.manifest.projection then ProjectionChecksumMismatch
      else Accepted(p)
  }

  // ---- the loops

  method Decodes(events: seq<Event>) returns (ok: bool)
    ensures ok <==> forall i | 0 <= i < |events| :: WellFormed(events[i])
  {
    for i := 0 to |events|
      invariant forall j | 0 <= j < i :: WellFormed(events[j])
    {
      if !WellFormed(events[i]) {
        return false;
      }
    }
    return true;
  }

  method CheckIntegrity(b: Bundle) returns (ok: bool)
    ensures ok <==> Integral(b, |b.events|)
  {
    var seen: set<int> := {};
    for i := 0 to |b.events|
      invariant Integral(b, i)
      invariant seen == set j | 0 <= j < i :: b.events[j].id
    {
      var e := b.events[i];
      if e.run != b.manifest.runID || e.source != b.manifest.mode || e.sequence != i + 1 || e.id in seen {
        return false;
      }
      seen := seen + {e.id};
    }
    return true;
  }

  /** Appends every event to a store in memory. */
  method Replayed(run: Run, events: seq<Event>, now: int) returns (s: EventStore.Store, ok: bool)
    requires forall i | 0 <= i < |events| :: WellFormed(events[i])
    ensures ok <==> RunAdmitted(run)
    ensures ok ==> run.id in s.runs && s.runs[run.id] == ImportedRun(run, now)
                   && EventsOf(s.Value(), run.id) == Imported(run, events, now)
  {
    hide HasSecret, ByteLength, RedactString, StoreModel.Redact, ValidType, Next, Stored, Types;
    s := new EventStore.Store();
    var created := s.CreateRun(run, now, true);
    ok := created.RunCreated?;
    if ok {
      for i := 0 to |events|
        invariant s.Disk() == None && fresh(s) && s.db == null
        invariant run.id in s.runs && s.runs[run.id] == ImportedRun(run, now)
        invariant s.nextID == i
        invariant EventsOf(s.Value(), run.id) == Imported(run, events[..i], now)
      {
        var appended := s.Append(run.id, events[i].typ, events[i].data, now, true, 0);
        ImportOne(run, events, i, now);
      }
      assert events[..|events|] == events;
    }
  }

  lemma ImportOne(run: Run, events: seq<Event>, i: nat, now: int)
    requires i < |events|
    ensures Imported(run, events[..i + 1], now)
         == Imported(run, events[..i], now)
            + [Event(i + 1, i + 1, run.id, run.mode, events[i].typ, now, Redact(events[i].data))]
  {
    hide StoreModel.Redact;
  }

  method VerifyAndReplay(b: Bundle, size: nat, now: int) returns (v: Verdict)
    ensures v == Verify(b, size, now)
  {
    hide HasSecret, ByteLength, RedactString, StoreModel.Redact, ValidType, Artifacts, Integral, WellFormed, RunAdmitted;
    if size > MAX_BYTES {
      return Oversized;
    }
    var ok := Decodes(b.events);
    if !ok {
      return Malformed;
    }
    if b.manifest.format != FORMAT || b.manifest.count != |b.events| {
      return ManifestMismatch;
    }
    if OfEvents(b.events) != b.manifest.events {
      return EventChecksumMismatch;
    }
    if b.run.id != b.manifest.runID || b.run.mode != b.manifest.mode {
      return RunMismatch;
    }
    ok := CheckIntegrity(b);
    if !ok {
      return IntegrityError;
    }
    var s;
    s, ok := Replayed(b.run, b.events, now);
    if !ok {
      return RunRefused;
    }
    var log := if b.run.id in s.events then s.events[b.run.id] else [];
    var p := Reading.Replay(s.runs[b.run.id], log, 0);
    ReplayAll(log);
    assert log[..|log|] == log;
    if OfProjection(Normal(p)) != b.manifest.projection {
      return ProjectionChecksumMismatch;
    }
    return Accepted(p);
  }
}
