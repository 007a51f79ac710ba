/** What exporting and importing a bundle preserves, exactly when it succeeds, and what an accepted bundle is. */
module RoundTrip {
  import opened Model
  import opened Redaction
  import opened Status
  import opened StoreModel
  import opened StoreRuns
  import opened Reading
  import opened Bundle

  // ---- what the store keeps is redacted and stamped

  /** The clock never reads the zero time. */
  predicate Ticking(calls: seq<Call>) {
    forall i | 0 <= i < |calls| :: calls[i].now != 0
  }

  ghost predicate RunKept(r: Run) {
    r.id != "" && ByteLength(r.id) <= 128 && !HasSecret(r.id) && RedactString(r.name) == r.name && r.createdAt != 0
  }

  predicate EventKept(e: Event) {
    Redact(e.data) == e.data && e.at != 0
  }

  ghost predicate Kept(mem: Memory) {
    && (forall r | r in mem.runs :: RunKept(mem.runs[r]))
    && (forall r | r in mem.events :: forall i | 0 <= i < |mem.events[r]| :: EventKept(mem.events[r][i]))
  }

  lemma RedactTwice(d: Data)
    ensures Redact(Redact(d)) == Redact(d)
  {
    RedactValueIdempotent(Object(d));
    assert RedactValue(Object(d)) == Object(Redact(d));
  }

  lemma NameTwice(s: string)
    ensures RedactString(RedactString(s)) == RedactString(s)
  {
    RedactedStringIsClean(s);
    FixedPointsAreClean(RedactString(s));
  }

  lemma CallKeeps(s: Shop, call: Call)
    requires Kept(s.mem) && call.now != 0
    ensures Kept(Apply(s, call).mem)
  {
    hide HasSecret, ByteLength, RedactString, StoreModel.Redact, ValidType, InsertEvent, InsertRun, Next, Stored;
    match call
    case NewRun(given, now, works) => NameTwice(given.name);
    case NewEvent(run, typ, data, now, works, gap) => RedactTwice(data);
  }

  lemma {:induction false} KeptAlways(calls: seq<Call>)
    requires Ticking(calls)
    ensures Kept(After(calls).mem)
    decreases |calls|
  {
    hide Apply, RunKept, EventKept;
    if calls != [] {
      assert forall i | 0 <= i < |calls[..|calls| - 1]| :: calls[..|calls| - 1][i] == calls[i];
      KeptAlways(calls[..|calls| - 1]);
      CallKeeps(After(calls[..|calls| - 1]), calls[|calls| - 1]);
    }
  }

  // ---- artifacts survive unless their name was a typed value

  /** Whatever is sensitive begins with one of five letters, and with `a` goes on in two ways only. */
  lemma NotSensitiveHere(t: string)
    requires t == [] || Fold(t[0]) !in "atspc" || (Fold(t[0]) == 'a' && (|t| == 1 || Fold(t[1]) !in "up"))
    ensures !SensitiveHere(t)
  {
    if t != [] && Fold(t[0]) == 'a' {
      NotWord("authorization", t);
      NotWord("apikey", t);
      NotWord("api_key", t);
      NotWord("api-key", t);
    }
  }

  lemma NotWord(w: string, t: string)
    requires |w| >= 2 && t != [] && (|t| == 1 || Fold(t[1]) != w[1])
    ensures !WordAt(w, t)
  {
    assert w[1..] != [] && w[1..][0] == w[1];
    if |t| > 1 { assert t[1..][0] == t[1]; } else { assert t[1..] == []; }
  }

  lemma NameIsPublic()
    ensures !SensitiveKey("name")
  {
    hide SensitiveHere;
    var s := "name";
    NotSensitiveHere(s);
    NotSensitiveHere(s[1..]);
    NotSensitiveHere(s[2..]);
    NotSensitiveHere(s[3..]);
    NotSensitiveHere([]);
    assert s[3..][1..] == [] && s[2..][1..] == s[3..] && s[1..][1..] == s[2..];
    assert !SensitiveKey(s[3..]);
    assert !SensitiveKey(s[2..]);
    assert !SensitiveKey(s[1..]);
  }

  /** An artifact's name that JSON will turn into a string is one already. */
  predicate NamePlain(e: Event) {
    e.typ == ARTIFACT && "name" in e.data && Plain(e.data["name"]).Text? ==> e.data["name"].Text?
  }

  predicate NamesPlain(events: seq<Event>) {
    forall i | 0 <= i < |events| :: NamePlain(events[i])
  }

  function Back(e: Event): Event { e.(data := Redact(PlainData(e.data))) }

  lemma ArtifactBack(e: Event)
    requires EventKept(e)
    ensures NamePlain(e) ==> Artifact(Back(e)) == Artifact(e)
    ensures !NamePlain(e) ==> |Artifact(Back(e))| > |Artifact(e)|
    ensures |Artifact(Back(e))| >= |Artifact(e)|
  {
    hide SensitiveKey, RedactString;
    NameIsPublic();
    if "name" in e.data {
      assert "name" in Back(e).data && Back(e).data["name"] == RedactValue(Plain(e.data["name"]));
      assert Redact(e.data)["name"] == RedactValue(e.data["name"]);
    }
  }

  function Backs(events: seq<Event>): seq<Event> { seq(|events|, i requires 0 <= i < |events| => Back(events[i])) }

  lemma {:induction false} ArtifactsBack(events: seq<Event>)
    requires forall i | 0 <= i < |events| :: EventKept(events[i])
    ensures NamesPlain(events) ==> Artifacts(Backs(events)) == Artifacts(events)
    ensures !NamesPlain(events) ==> |Artifacts(Backs(events))| > |Artifacts(events)|
    ensures |Artifacts(Backs(events))| >= |Artifacts(events)|
    decreases |events|
  {
    hide Artifact, Back, NamePlain, EventKept;
    if events != [] {
      var n := |events| - 1;
      ArtifactsBack(events[..n]);
      ArtifactBack(events[n]);
      assert Backs(events)[..n] == Backs(events[..n]);
      assert events == events[..n] + [events[n]];
      assert NamesPlain(events) <==> NamesPlain(events[..n]) && NamePlain(events[n]);
    }
  }

  lemma {:induction false} SameArtifacts(a: seq<Event>, b: seq<Event>)
    requires |a| == |b| && forall i | 0 <= i < |a| :: a[i].typ == b[i].typ && a[i].data == b[i].data
    ensures Artifacts(a) == Artifacts(b)
    decreases |a|
  {
    if a != [] { SameArtifacts(a[..|a| - 1], b[..|a| - 1]); }
  }

  // ---- the round trip

  ghost predicate Exportable(mem: Memory, run: string) {
    && run in mem.runs && mem.runs[run].id == run && RunKept(mem.runs[run])
    && var events := EventsOf(mem, run);
       forall i | 0 <= i < |events| ::
         && EventKept(events[i]) && events[i].run == run && events[i].source == mem.runs[run].mode && ValidType(events[i].typ)
         && events[i].sequence == i + 1 && events[i].id >= 1
         && forall j | 0 <= j < i :: events[j].id < events[i].id
  }

  lemma StoredIsExportable(calls: seq<Call>, run: string)
    requires Ticking(calls) && run in After(calls).mem.runs
    ensures Exportable(After(calls).mem, run)
  {
    hide After, RunKept, EventKept, Projected;
    KeptAlways(calls);
    DurableAlways(calls);
    var s := After(calls);
    var events, rows := EventsOf(s.mem, run), RowsOf(s.tables.events, run);
    SequenceCounts(s.tables.runs, s.tables.events, run);
    RowIdsRise(s.tables.events, s.tables.last, run);
    RowsAreOfRun(s.tables.events, run);
    forall i | 0 <= i < |events|
      ensures AsEvent(rows[i]) == PlainEvent(events[i]) && RowsOf(s.tables.events, run)[i] in s.tables.events
      ensures rows[i].source == s.mem.runs[run].mode && ValidType(rows[i].typ)
    {
      assert PlainEvents(events)[i] == AsEvents(rows)[i];
      RowIsSound(s.tables.runs, s.tables.events, rows[i]);
    }
    assert |PlainEvents(events)| == |AsEvents(rows)|;
  }

  lemma RowIsSound(runs: map<string, Run>, rows: seq<EventRow>, row: EventRow)
    requires RowsFit(runs, rows) && row in rows
    ensures row.run in runs && row.source == runs[row.run].mode && ValidType(row.typ)
  {
    hide ValidType, EventID, RowsOf;
    var i :| 0 <= i < |rows| && rows[i] == row;
    assert RowFits(runs, rows[..i], rows[i]);
  }

  lemma ImportedRunIsRun(r: Run, now: int)
    requires RunKept(r)
    ensures ImportedRun(r, now) == r && (RunAdmitted(r) <==> ByteLength(r.name) <= 256)
  {
  }

  /** The imported projection is the exported one, up to the cursor, exactly when artifact names are plain. */
  lemma ProjectionsMeet(r: Run, events: seq<Event>, now: int)
    requires forall i | 0 <= i < |events| :: EventKept(events[i])
    ensures var p := ProjectionFrom(r, Imported(r, PlainEvents(events), now));
            && (Normal(p) == Normal(ProjectionFrom(r, events)) <==> NamesPlain(events))
            && p.last == |events|
  {
    hide StoreModel.Redact, Plain, EventKept, Artifact, Read, NamePlain;
    var imported := Imported(r, PlainEvents(events), now);
    assert Types(imported) == Types(events);
    ArtifactsBack(events);
    SameArtifacts(imported, Backs(events));
  }

  lemma PlainWellFormed(e: Event)
    requires e.run != "" && e.id >= 1 && e.sequence >= 1 && e.at != 0 && ValidType(e.typ)
    ensures WellFormed(PlainEvent(e)) <==> e.source == PRODUCT
  {
  }

  lemma DecodesWhenDispatched(mem: Memory, run: string)
    requires Exportable(mem, run)
    ensures var b := Written(Export(mem, run).value);
            (forall i | 0 <= i < |b.events| :: WellFormed(b.events[i])) <==> b.events == [] || b.run.mode == PRODUCT
  {
    hide ValidType, PlainEvent, HasSecret, ByteLength, RedactString, WellFormed, ProjectionFrom;
    var b := Written(Export(mem, run).value);
    forall i | 0 <= i < |b.events| ensures WellFormed(b.events[i]) <==> b.run.mode == PRODUCT {
      PlainWellFormed(EventsOf(mem, run)[i]);
      assert b.events[i] == PlainEvent(EventsOf(mem, run)[i]);
    }
    assert b.events != [] && (forall i | 0 <= i < |b.events| :: WellFormed(b.events[i])) ==> WellFormed(b.events[0]);
  }

  lemma ExportIsIntegral(mem: Memory, run: string)
    requires Exportable(mem, run)
    ensures var b := Written(Export(mem, run).value);
            && Integral(b, |b.events|) && OfEvents(b.events) == b.manifest.events && b.manifest.count == |b.events|
            && b.run.id == b.manifest.runID && b.run.mode == b.manifest.mode && b.manifest.format == FORMAT
  {
    hide ValidType, PlainData, RunKept, EventKept;
    var b := Written(Export(mem, run).value);
    forall i | 0 <= i < |b.events| ensures b.events[i] == PlainEvent(EventsOf(mem, run)[i]) {}
  }

  /** Exporting a stored run and importing the bundle succeeds exactly when the bundle is within the size limit, the
      run's name as redacted still fits, the run is a dispatch run unless it is empty, and every artifact name is a plain
      string; then it gives the exported projection, with the number of events as its cursor. */
  lemma ExportedBundleReplays(calls: seq<Call>, run: string, size: nat, now: int)
    requires Ticking(calls) && run in After(calls).mem.runs
    ensures var mem := After(calls).mem;
            var events := EventsOf(mem, run);
            var v := Verify(Written(Export(mem, run).value), size, now);
            && (v.Accepted? <==>
                  && size <= 8_388_608 && ByteLength(mem.runs[run].name) <= 256
                  && (events == [] || mem.runs[run].mode == PRODUCT) && NamesPlain(events))
            && (v.Accepted? ==> v.projection == ProjectionFrom(mem.runs[run], events).(last := |events|))
  {
    hide After;
    StoredIsExportable(calls, run);
    VerdictOfExport(After(calls).mem, run, size, now);
  }

  lemma VerdictOfExport(mem: Memory, run: string, size: nat, now: int)
    requires Exportable(mem, run)
    ensures var events := EventsOf(mem, run);
            var v := Verify(Written(Export(mem, run).value), size, now);
            && (v.Accepted? <==>
                  && size <= 8_388_608 && ByteLength(mem.runs[run].name) <= 256
                  && (events == [] || mem.runs[run].mode == PRODUCT) && NamesPlain(events))
            && (v.Accepted? ==> v.projection == ProjectionFrom(mem.runs[run], events).(last := |events|))
  {
    hide WellFormed, Integral, NamesPlain, ByteLength, HasSecret, RedactString, ValidType, Artifacts, StoreModel.Redact,
         PlainData, EventKept;
    DecodesWhenDispatched(mem, run);
    ExportIsIntegral(mem, run);
    ImportedRunIsRun(mem.runs[run], now);
    ProjectionsMeet(mem.runs[run], EventsOf(mem, run), now);
  }

  // ---- what an accepted bundle is

  /** An accepted bundle holds one run's events, numbered from one, with distinct ids, matching both checksums. */
  lemma AcceptedBundleIsSound(b: Bundle, size: nat, now: int)
    requires Verify(b, size, now).Accepted?
    ensures size <= 8_388_608 && b.manifest.format == "n0ding-replay/v1"
    ensures forall i | 0 <= i < |b.events| ::
              b.events[i].run == b.run.id && b.events[i].source == b.run.mode && b.events[i].sequence == i + 1
    ensures forall i | 0 <= i < |b.events| ::
              b.events[i].id >= 1 && b.events[i].at != 0 && b.events[i].source == "dispatch" && ValidType(b.events[i].typ)
    ensures forall i, j | 0 <= i < j < |b.events| :: b.events[i].id != b.events[j].id
    ensures var p := Verify(b, size, now).projection;
            && p.steps == p.last == |b.events| == b.manifest.count
            && b.manifest.events == OfEvents(b.events) && b.manifest.projection == OfProjection(Normal(p))
  {
    hide RunAdmitted, ImportedRun, Artifacts, StoreModel.Redact, ValidType, Types;
  }

  /** Two accepted bundles with the same manifest are the same run with the same projection: nothing else can be put under
      an exported manifest. */
  lemma ManifestDetermines(a: Bundle, b: Bundle, size: nat, other: nat, now: int, later: int)
    requires Verify(a, size, now).Accepted? && Verify(b, other, later).Accepted? && a.manifest == b.manifest
    ensures a.events == b.events && Verify(a, size, now).projection == Verify(b, other, later).projection
  {
    AcceptedBundleIsSound(a, size, now);
    AcceptedBundleIsSound(b, other, later);
  }

  // ---- a name that outgrows its limit

  predicate AllX(pad: string) {
    forall i | 0 <= i < |pad| :: pad[i] == 'x'
  }

  lemma {:induction false} AsciiLength(s: string)
    requires forall i | 0 <= i < |s| :: s[i] < '\U{0080}'
    ensures ByteLength(s) == |s|
  {
    if s != [] { AsciiLength(s[1..]); }
  }

  lemma {:induction false} PadStays(pad: string, rest: string)
    requires AllX(pad)
    ensures ReplaceBearer(pad + rest) == pad + ReplaceBearer(rest)
  {
    if pad == [] {
      assert pad + rest == rest;
    } else {
      var s := pad + rest;
      assert s[0] == 'x' && s[1..] == pad[1..] + rest;
      PadStays(pad[1..], rest);
      assert pad == [pad[0]] + pad[1..];
    }
  }

  /** No secret begins without an `s`. */
  lemma {:induction false} NoSecretWithoutS(s: string)
    requires forall i | 0 <= i < |s| :: Fold(s[i]) != 's'
    ensures ReplaceSecret(s) == s
  {
    if s != [] { NoSecretWithoutS(s[1..]); }
  }

  lemma {:induction false} BearerSpells(k: nat, s: string)
    requires s == "bearer a" && k <= 7
    ensures BearerFrom(k, s[k..]) && BearerReach(k, s[k..]) == 8 - k
    decreases 7 - k
  {
    if k < 7 {
      BearerSpells(k + 1, s);
      assert s[k..][0] == s[k] && s[k..][1..] == s[k + 1..];
    } else {
      assert s[7..][0] == 'a' && s[7..][1..] == [];
    }
  }

  lemma BearerIsMasked()
    ensures ReplaceBearer("bearer a") == BEARER_MASK
  {
    var s := "bearer a";
    BearerSpells(0, s);
    assert s[0..] == s && s[8..] == [];
    assert ReplaceBearer([]) == [];
  }

  /** Letters that begin no secret and take one byte. */
  predicate Tame(s: string) {
    forall i | 0 <= i < |s| :: Fold(s[i]) != 's' && s[i] < '\U{0080}'
  }

  lemma TameTexts()
    ensures Tame(BEARER_MASK) && |BEARER_MASK| == 17 && Tame("bearer a")
  {
  }

  lemma TameIsKept(pad: string, text: string)
    requires AllX(pad) && Tame(text)
    ensures ReplaceSecret(pad + text) == pad + text && ByteLength(pad + text) == |pad| + |text|
  {
    NoSecretWithoutS(pad + text);
    AsciiLength(pad + text);
  }

  /** A name of 256 bytes, as long as a run's name may be, that redaction makes nine bytes longer. */
  lemma NameOutgrowsLimit(pad: string)
    requires AllX(pad) && |pad| == 248
    ensures ByteLength(pad + "bearer a") == 256 && ByteLength(RedactString(pad + "bearer a")) == 265
  {
    hide ByteLength, ReplaceBearer, ReplaceSecret, AllX, Tame;
    PadStays(pad, "bearer a");
    BearerIsMasked();
    TameTexts();
    TameIsKept(pad, "bearer a");
    TameIsKept(pad, BEARER_MASK);
  }

  lemma PlainIdIsAdmitted()
    ensures ByteLength("r") == 1 && !HasSecret("r")
  {
    var s := "r";
    forall i | 0 <= i <= 1 ensures !SecretHere(s[i..]) {
      if i == 0 { assert s[0..] == s; } else { assert s[1..] == []; }
    }
    assert s[1..] == [];
  }

  /** The length of a name is checked before it is redacted and again on import: such a run is created, and its bundle,
      of whatever size, is refused. */
  lemma OutgrownNameIsRefused(pad: string, size: nat, now: int)
    requires AllX(pad) && |pad| == 248
    ensures var calls := [NewRun(Run("r", PRODUCT, pad + "bearer a", 1), 1, true)];
            && "r" in After(calls).mem.runs
            && !Verify(Written(Export(After(calls).mem, "r").value), size, now).Accepted?
  {
    hide ByteLength, RedactString, HasSecret;
    var call := NewRun(Run("r", PRODUCT, pad + "bearer a", 1), 1, true);
    NameOutgrowsLimit(pad);
    PlainIdIsAdmitted();
    assert [call][..0] == [];
    assert After([call]) == Apply(After([]), call);
    assert "r" in After([call]).mem.runs;
    assert ByteLength(After([call]).mem.runs["r"].name) == 265;
    ExportedBundleReplays([call], "r", size, now);
  }
}
