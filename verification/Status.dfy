/** A run's status: the store keeps it by the ending of event types, the replay reads it by exact event types. */
module Status {

  datatype RunStatus = Created | Running | Completed | Failed | Cancelled | Interrupted | Stopped

  // ---- event types

  predicate TypeChar(c: char) {
    'a' <= c <= 'z' || '0' <= c <= '9' || c == '_'
  }

  /** Dot-separated segments; at the start of one a letter is due. */
  predicate SegmentsFrom(s: string, start: bool) {
    if s == [] then !start
    else if s[0] == '.' then !start && SegmentsFrom(s[1..], true)
    else (if start then 'a' <= s[0] <= 'z' else TypeChar(s[0])) && SegmentsFrom(s[1..], false)
  }

  function Dots(s: string): nat {
    if s == [] then 0 else Dots(s[1..]) + if s[0] == '.' then 1 else 0
  }

  predicate ValidType(s: string) {
    SegmentsFrom(s, true) && Dots(s) >= 1
  }

  predicate HasPrefix(s: string, w: string) {
    w <= s
  }

  predicate HasSuffix(s: string, w: string) {
    |s| >= |w| && s[|s| - |w|..] == w
  }

  // ---- the two readings

  const DISPATCH := "dispatch."

  /** The words that end the types of events about a run's status. */
  datatype Word = Started | Resumed | WasCompleted | WasFailed | WasCancelled | WasInterrupted | EmergencyStopped

  function Name(w: Word): string {
    match w
    case Started => "started"
    case Resumed => "resumed"
    case WasCompleted => "completed"
    case WasFailed => "failed"
    case WasCancelled => "cancelled"
    case WasInterrupted => "interrupted"
    case EmergencyStopped => "emergency_stopped"
  }

  function Means(w: Word): RunStatus {
    match w
    case Started => Running
    case Resumed => Running
    case WasCompleted => Completed
    case WasFailed => Failed
    case WasCancelled => Cancelled
    case WasInterrupted => Interrupted
    case EmergencyStopped => Stopped
  }

  function Ending(w: Word): string { "." + Name(w) }

  function Full(w: Word): string { DISPATCH + Name(w) }

  /** As the store advances it: by the ending, but for a resumption. */
  function Next(current: RunStatus, typ: string): RunStatus {
    if !HasPrefix(typ, DISPATCH) then current
    else if HasSuffix(typ, Ending(Started)) then Means(Started)
    else if typ == Full(Resumed) then Means(Resumed)
    else if HasSuffix(typ, Ending(WasCompleted)) then Means(WasCompleted)
    else if HasSuffix(typ, Ending(WasFailed)) then Means(WasFailed)
    else if HasSuffix(typ, Ending(WasCancelled)) then Means(WasCancelled)
    else if HasSuffix(typ, Ending(WasInterrupted)) then Means(WasInterrupted)
    else if HasSuffix(typ, Ending(EmergencyStopped)) then Means(EmergencyStopped)
    else current
  }

  /** As the replay reads it: by the whole type. */
  function Read(current: RunStatus, typ: string): RunStatus {
    if typ == Full(Started) then Means(Started)
    else if typ == Full(Resumed) then Means(Resumed)
    else if typ == Full(WasCompleted) then Means(WasCompleted)
    else if typ == Full(WasFailed) then Means(WasFailed)
    else if typ == Full(WasCancelled) then Means(WasCancelled)
    else if typ == Full(WasInterrupted) then Means(WasInterrupted)
    else if typ == Full(EmergencyStopped) then Means(EmergencyStopped)
    else current
  }

  function Stored(types: seq<string>): RunStatus {
    if types == [] then Created else Next(Stored(types[..|types| - 1]), types[|types| - 1])
  }

  function Replayed(types: seq<string>): RunStatus {
    if types == [] then Created else Read(Replayed(types[..|types| - 1]), types[|types| - 1])
  }

  /** The type is about dispatching and ends like a status event without being it. */
  predicate Misread(typ: string) {
    HasPrefix(typ, DISPATCH) && exists w | w != Resumed :: HasSuffix(typ, Ending(w)) && typ != Full(w)
  }

  // ---- types with two segments

  lemma {:induction false} DotInside(s: string, i: nat)
    requires i < |s| && s[i] == '.'
    ensures Dots(s) == Dots(s[i + 1..]) + 1 + Dots(s[..i])
  {
    if i == 0 {
      assert s[..0] == [];
    } else {
      DotInside(s[1..], i - 1);
      assert s[1..][i - 1 + 1..] == s[i + 1..];
      assert s[..i][1..] == s[1..][..i - 1];
    }
  }

  lemma OnlyDot(s: string, i: nat, j: nat)
    requires i < j < |s| && s[i] == '.' && s[j] == '.'
    ensures Dots(s) >= 2
  {
    DotInside(s, i);
    var rest := s[i + 1..];
    assert rest[j - i - 1] == '.';
    DotInside(rest, j - i - 1);
  }

  lemma {:induction false} NoDots(s: string)
    requires forall i | 0 <= i < |s| :: s[i] != '.'
    ensures Dots(s) == 0
  {
    if s != [] { NoDots(s[1..]); }
  }

  lemma Parts()
    ensures |DISPATCH| == 9 && DISPATCH[8] == '.' && Dots(DISPATCH[..8]) == 0
  {
    NoDots(DISPATCH[..8]);
  }

  /** With one dot, only the status events themselves end like them. */
  lemma TwoSegments(typ: string, w: Word)
    requires Dots(typ) == 1 && HasPrefix(typ, DISPATCH) && HasSuffix(typ, Ending(w))
    ensures typ == Full(w)
  {
    hide Name;
    Parts();
    var at := |typ| - |Name(w)| - 1;
    assert typ[at..] == Ending(w);
    assert typ[at] == Ending(w)[0] == '.';
    assert typ[8] == '.';
    if at < 8 { OnlyDot(typ, at, 8); }
    if at > 8 { OnlyDot(typ, 8, at); }
    assert typ == typ[..9] + typ[9..] && typ[..9] == DISPATCH;
    assert typ[9..] == typ[at..][1..] == Name(w);
  }

  lemma TwoSegmentTypesAgree(typ: string)
    requires Dots(typ) == 1
    ensures !Misread(typ)
  {
    hide Name;
    if Misread(typ) {
      var w :| w != Resumed && HasSuffix(typ, Ending(w)) && typ != Full(w);
      TwoSegments(typ, w);
    }
  }

  lemma NamesHaveNoDots(w: Word)
    ensures Dots(Name(w)) == 0
  {
    NoDots(Name(w));
  }

  lemma FullType(w: Word)
    ensures HasPrefix(Full(w), DISPATCH) && HasSuffix(Full(w), Ending(w)) && Dots(Full(w)) == 1
  {
    hide Name;
    Parts();
    NamesHaveNoDots(w);
    var typ := Full(w);
    assert typ[9..] == Name(w) && typ[..8] == DISPATCH[..8];
    assert typ[8..] == [typ[8]] + typ[9..];
    DotInside(typ, 8);
  }

  // ---- where the readings differ

  lemma ReadByEnding(current: RunStatus, typ: string)
    requires !Misread(typ) && HasPrefix(typ, DISPATCH)
    ensures Next(current, typ) == Read(current, typ)
  {
    hide Name, DISPATCH;
    forall w: Word ensures w != Resumed ==> (HasSuffix(typ, Ending(w)) <==> typ == Full(w)) { FullType(w); }
  }

  /** Both readings advance the status alike, whatever it is, exactly for the types that are not misread. */
  lemma ReadingsAgree(typ: string)
    ensures (forall current :: Next(current, typ) == Read(current, typ)) <==> !Misread(typ)
  {
    hide Name;
    if Misread(typ) {
      MisreadIsIgnored(typ);
    } else if HasPrefix(typ, DISPATCH) {
      forall current ensures Next(current, typ) == Read(current, typ) { ReadByEnding(current, typ); }
    } else {
      forall w: Word ensures typ != Full(w) { FullType(w); }
    }
  }

  lemma MisreadIsIgnored(typ: string)
    requires Misread(typ)
    ensures Read(Created, typ) == Created != Next(Created, typ)
  {
    hide Name;
    forall v: Word ensures typ != Full(v) {
      if typ == Full(v) {
        FullType(v);
        TwoSegmentTypesAgree(typ);
      }
    }
  }

  // ---- whole logs

  lemma {:induction false} LogsAgree(types: seq<string>)
    requires forall t | t in types :: !Misread(t)
    ensures Stored(types) == Replayed(types)
  {
    hide Next, Read, Misread;
    if types != [] {
      LogsAgree(types[..|types| - 1]);
      assert types[|types| - 1] in types;
      ReadingsAgree(types[|types| - 1]);
    }
  }

  lemma MisreadSetsApart(t: string)
    requires Misread(t)
    ensures Stored([t]) != Replayed([t])
  {
    hide Next, Read, Misread;
    MisreadIsIgnored(t);
    assert [t][..0] == [];
    assert Stored([t][..0]) == Created == Replayed([t][..0]);
    assert Stored([t]) == Next(Created, t);
    assert Replayed([t]) == Read(Created, t);
  }

  ghost predicate Over(types: seq<string>, words: set<string>) {
    forall t | t in types :: t in words
  }

  /** Both readings give the same status for every log over a vocabulary exactly when nothing in it is misread. */
  lemma VocabularyAgrees(words: set<string>)
    ensures (forall types | Over(types, words) :: Stored(types) == Replayed(types)) <==> (forall t | t in words :: !Misread(t))
  {
    hide Next, Read, Misread, Stored, Replayed;
    if forall t | t in words :: !Misread(t) {
      forall types | Over(types, words) ensures Stored(types) == Replayed(types) { LogsAgree(types); }
    } else {
      var t :| t in words && Misread(t);
      MisreadSetsApart(t);
      assert Over([t], words);
    }
  }

  lemma {:induction false} WordThen(w: string, rest: string, start: bool)
    requires (forall i | 0 <= i < |w| :: TypeChar(w[i])) && (start ==> w != [] && 'a' <= w[0] <= 'z')
    requires SegmentsFrom(rest, false)
    ensures SegmentsFrom(w + rest, start)
    decreases |w|
  {
    if w == [] {
      assert w + rest == rest;
    } else {
      assert (w + rest)[1..] == w[1..] + rest;
      WordThen(w[1..], rest, false);
    }
  }

  // ---- what a well-formed type is

  /** A lower-case letter, then letters, digits and underscores. */
  predicate Segment(p: string) {
    p != [] && 'a' <= p[0] <= 'z' && InWords(p)
  }

  predicate InWords(p: string) {
    forall i | 0 <= i < |p| :: 'a' <= p[i] <= 'z' || '0' <= p[i] <= '9' || p[i] == '_'
  }

  function Dotted(parts: seq<string>): string {
    if parts == [] then [] else if |parts| == 1 then parts[0] else parts[0] + "." + Dotted(parts[1..])
  }

  predicate Segments(parts: seq<string>) {
    |parts| >= 2 && forall i | 0 <= i < |parts| :: Segment(parts[i])
  }

  lemma {:induction false} Split(s: string, start: bool) returns (parts: seq<string>)
    requires SegmentsFrom(s, start)
    ensures |parts| == Dots(s) + 1 && Dotted(parts) == s
    ensures (forall i | 0 < i < |parts| :: Segment(parts[i])) && InWords(parts[0]) && (start ==> Segment(parts[0]))
  {
    if s == [] {
      parts := [[]];
    } else if s[0] == '.' {
      var rest := Split(s[1..], true);
      parts := [[]] + rest;
      assert parts[1..] == rest && s == [] + "." + s[1..];
    } else {
      var rest := Split(s[1..], false);
      parts := [[s[0]] + rest[0]] + rest[1..];
      assert parts[1..] == rest[1..];
      assert s == [s[0]] + s[1..];
    }
  }

  lemma {:induction false} DotsInTwo(a: string, b: string)
    ensures Dots(a + b) == Dots(a) + Dots(b)
    decreases |a|
  {
    if a == [] {
      assert a + b == b;
    } else {
      assert (a + b)[1..] == a[1..] + b;
      DotsInTwo(a[1..], b);
    }
  }

  lemma {:induction false} DottedIsValid(parts: seq<string>)
    requires parts != [] && forall i | 0 <= i < |parts| :: Segment(parts[i])
    ensures SegmentsFrom(Dotted(parts), true) && Dots(Dotted(parts)) == |parts| - 1
  {
    NoDots(parts[0]);
    if |parts| == 1 {
      WordThen(parts[0], [], true);
      assert parts[0] + [] == parts[0];
    } else {
      var rest := Dotted(parts[1..]);
      DottedIsValid(parts[1..]);
      assert ("." + rest)[1..] == rest;
      WordThen(parts[0], "." + rest, true);
      DotsInTwo(parts[0], "." + rest);
      assert parts[0] + "." + rest == parts[0] + ("." + rest);
    }
  }

  /** A type is well formed exactly when it is made of two or more segments with dots between them. */
  lemma ValidTypesAreDotted(typ: string)
    ensures ValidType(typ) <==> exists parts :: Segments(parts) && Dotted(parts) == typ
  {
    if ValidType(typ) {
      var parts := Split(typ, true);
      assert Segments(parts);
    }
    if parts :| Segments(parts) && Dotted(parts) == typ { DottedIsValid(parts); }
  }

  /** A well-formed type with a third segment that ends like a status event changes the stored status only. */
  lemma DeepTypesAreMisread(word: string)
    requires word != [] && 'a' <= word[0] <= 'z' && forall i | 0 <= i < |word| :: TypeChar(word[i])
    ensures var typ := DISPATCH + word + Ending(WasFailed);
            ValidType(typ) && Stored([typ]) == Failed && Replayed([typ]) == Created
  {
    var typ, failed := DISPATCH + word + Ending(WasFailed), Ending(WasFailed);
    WordThen(Name(WasFailed), [], true);
    assert Name(WasFailed) + [] == Name(WasFailed) && failed[1..] == Name(WasFailed);
    WordThen(word, failed, true);
    WordThen("dispatch", "." + (word + failed), true);
    assert ("." + (word + failed))[1..] == word + failed;
    assert typ == "dispatch" + ("." + (word + failed));
    EndsInFailed(typ, word);
  }

  lemma EndsInFailed(typ: string, word: string)
    requires typ == DISPATCH + word + Ending(WasFailed) && word != []
    ensures Stored([typ]) == Failed && Replayed([typ]) == Created && Dots(typ) >= 1
  {
    hide Name;
    Parts();
    assert typ[|typ| - |Ending(WasFailed)|..] == Ending(WasFailed);
    assert |typ| > |Full(WasFailed)|;
    assert [typ][..0] == [];
    MisreadIsIgnored(typ);
    assert typ[8] == '.';
    DotInside(typ, 8);
    OnlyFailed(typ);
  }

  lemma SuffixOfSuffix(s: string, v: string, w: string)
    requires HasSuffix(s, v) && |v| <= |w|
    ensures HasSuffix(s, w) ==> HasSuffix(w, v)
  {
    if HasSuffix(s, w) { assert s[|s| - |v|..] == s[|s| - |w|..][|w| - |v|..]; }
  }

  lemma EndingsDiffer()
    ensures !HasSuffix(Ending(Started), Ending(WasFailed)) && !HasSuffix(Ending(WasCompleted), Ending(WasFailed))
    ensures |Ending(WasFailed)| <= |Ending(Started)| && |Ending(WasFailed)| <= |Ending(WasCompleted)|
  {
    assert Ending(Started)[1..][0] == Name(Started)[0] == 's';
    assert Ending(WasCompleted)[3..][0] == Name(WasCompleted)[2] == 'm';
    assert Ending(WasFailed)[0] == '.';
  }

  /** No status word that is looked for earlier ends in the same way. */
  lemma OnlyFailed(typ: string)
    requires HasPrefix(typ, DISPATCH) && HasSuffix(typ, Ending(WasFailed)) && typ != Full(Resumed)
    ensures Next(Created, typ) == Failed
  {
    hide Name;
    EndingsDiffer();
    SuffixOfSuffix(typ, Ending(WasFailed), Ending(Started));
    SuffixOfSuffix(typ, Ending(WasFailed), Ending(WasCompleted));
  }

  // ---- which status an event type gives

  const STATUS_TYPES: set<string> := {
    "dispatch.started", "dispatch.resumed", "dispatch.completed", "dispatch.failed", "dispatch.cancelled",
    "dispatch.interrupted", "dispatch.emergency_stopped"}

  lemma StatusTypesBegin(typ: string)
    ensures typ in STATUS_TYPES ==> typ != [] && typ[0] == 'd'
  {
  }

  lemma DropLast<T>(s: seq<T>, x: T)
    ensures (s + [x])[..|s|] == s
  {
  }

  lemma NamesDiffer(v: Word, w: Word)
    requires v != w
    ensures Name(v) != Name(w)
  {
    assert Name(Started)[0] == 's' && Name(Resumed)[0] == 'r' && Name(WasCompleted)[1] == 'o' && Name(WasFailed)[0] == 'f';
    assert Name(WasCancelled)[1] == 'a' && Name(WasInterrupted)[0] == 'i' && Name(EmergencyStopped)[0] == 'e';
    assert Name(WasCompleted)[0] == 'c' == Name(WasCancelled)[0];
  }

  /** A type ends like one status event at most: the ending begins with the last dot. */
  lemma OneEnding(typ: string, v: Word, w: Word)
    requires HasSuffix(typ, Ending(v)) && HasSuffix(typ, Ending(w))
    ensures v == w
  {
    hide Name;
    var a, b := |typ| - |Ending(v)|, |typ| - |Ending(w)|;
    NamesHaveNoDots(v);
    NamesHaveNoDots(w);
    assert typ[a..] == Ending(v) && typ[b..] == Ending(w);
    assert typ[a] == Ending(v)[0] == '.' && typ[b] == Ending(w)[0] == '.';
    assert typ[a..][1..] == Name(v) && typ[b..][1..] == Name(w);
    if a < b {
      assert Name(v)[b - a - 1] == '.';
      DotInside(Name(v), b - a - 1);
    } else if b < a {
      assert Name(w)[a - b - 1] == '.';
      DotInside(Name(w), a - b - 1);
    } else if v != w {
      NamesDiffer(v, w);
    }
  }

  lemma NextByEnding(current: RunStatus, typ: string, w: Word)
    requires HasPrefix(typ, DISPATCH) && HasSuffix(typ, Ending(w)) && (w == Resumed ==> typ == Full(Resumed))
    ensures Next(current, typ) == Means(w)
  {
    hide Name, HasSuffix;
    forall v: Word ensures v != w ==> !HasSuffix(typ, Ending(v)) {
      if HasSuffix(typ, Ending(v)) { OneEnding(typ, v, w); }
    }
    FullType(Resumed);
  }

  lemma ReadFull(current: RunStatus, w: Word)
    ensures Read(current, Full(w)) == Means(w) == Next(current, Full(w))
  {
    hide Name;
    FullType(w);
    NextByEnding(current, Full(w), w);
    forall v: Word ensures Full(v) == Full(w) ==> v == w {
      FullType(v);
      if Full(v) == Full(w) { OneEnding(Full(w), v, w); }
    }
  }

  /** What the two readings of any log are right after an event of each of these types. */
  lemma StatusAfterEvent(types: seq<string>)
    ensures Replayed(types + ["dispatch.started"]) == Running == Stored(types + ["dispatch.started"])
    ensures Replayed(types + ["dispatch.resumed"]) == Running == Stored(types + ["dispatch.resumed"])
    ensures Replayed(types + ["dispatch.completed"]) == Completed == Stored(types + ["dispatch.completed"])
    ensures Replayed(types + ["dispatch.failed"]) == Failed == Stored(types + ["dispatch.failed"])
    ensures Replayed(types + ["dispatch.cancelled"]) == Cancelled == Stored(types + ["dispatch.cancelled"])
    ensures Replayed(types + ["dispatch.interrupted"]) == Interrupted == Stored(types + ["dispatch.interrupted"])
    ensures Replayed(types + ["dispatch.emergency_stopped"]) == Stopped == Stored(types + ["dispatch.emergency_stopped"])
  {
    hide Read, Next;
    forall w: Word
      ensures Replayed(types + [Full(w)]) == Means(w) == Stored(types + [Full(w)])
    {
      DropLast(types, Full(w));
      ReadFull(Replayed(types), w);
      ReadFull(Stored(types), w);
    }
    SpeltOut();
  }

  lemma SpeltOut()
    ensures Full(Started) == "dispatch.started" && Full(Resumed) == "dispatch.resumed"
    ensures Full(WasCompleted) == "dispatch.completed" && Full(WasFailed) == "dispatch.failed"
    ensures Full(WasCancelled) == "dispatch.cancelled" && Full(WasInterrupted) == "dispatch.interrupted"
    ensures Full(EmergencyStopped) == "dispatch.emergency_stopped"
  {
    SomeSpeltOut();
    OthersSpeltOut();
  }

  lemma SomeSpeltOut()
    ensures Full(Started) == "dispatch.started" && Full(Resumed) == "dispatch.resumed"
    ensures Full(WasCompleted) == "dispatch.completed" && Full(WasFailed) == "dispatch.failed"
  {
  }

  lemma OthersSpeltOut()
    ensures Full(WasCancelled) == "dispatch.cancelled" && Full(WasInterrupted) == "dispatch.interrupted"
    ensures Full(EmergencyStopped) == "dispatch.emergency_stopped"
  {
  }

  /** An event of any other type leaves the replayed status alone. */
  lemma OtherEventsAreSilent(types: seq<string>, typ: string)
    requires typ !in STATUS_TYPES
    ensures Replayed(types + [typ]) == Replayed(types)
  {
    SpeltOut();
    DropLast(types, typ);
  }

  /** The replayed status is that of the last status event, and created before there is one. */
  lemma {:induction false} ReplayedIsLast(types: seq<string>, n: nat)
    requires n <= |types| && forall i | n <= i < |types| :: types[i] !in STATUS_TYPES
    ensures Replayed(types) == Replayed(types[..n])
    ensures n == 0 ==> Replayed(types) == Created
    decreases |types|
  {
    if n < |types| {
      var rest, last := types[..|types| - 1], types[|types| - 1];
      ReplayedIsLast(rest, n);
      assert types == rest + [last] && types[..n] == rest[..n];
      OtherEventsAreSilent(rest, last);
    } else {
      assert types[..n] == types;
    }
  }

  /** The store goes by the ending of every type about dispatching, but takes only the whole type for a resumption. */
  lemma StoredByEnding(types: seq<string>, typ: string)
    requires "dispatch." <= typ
    ensures HasSuffix(typ, ".started") ==> Stored(types + [typ]) == Running
    ensures HasSuffix(typ, ".completed") ==> Stored(types + [typ]) == Completed
    ensures HasSuffix(typ, ".failed") ==> Stored(types + [typ]) == Failed
    ensures HasSuffix(typ, ".cancelled") ==> Stored(types + [typ]) == Cancelled
    ensures HasSuffix(typ, ".interrupted") ==> Stored(types + [typ]) == Interrupted
    ensures HasSuffix(typ, ".emergency_stopped") ==> Stored(types + [typ]) == Stopped
  {
    hide Next, HasSuffix;
    DropLast(types, typ);
    forall w: Word ensures w != Resumed && HasSuffix(typ, Ending(w)) ==> Stored(types + [typ]) == Means(w) {
      if w != Resumed && HasSuffix(typ, Ending(w)) { NextByEnding(Stored(types), typ, w); }
    }
    EndingsSpeltOut();
  }

  lemma EndingsSpeltOut()
    ensures Ending(Started) == ".started" && Ending(WasCompleted) == ".completed" && Ending(WasFailed) == ".failed"
    ensures Ending(WasCancelled) == ".cancelled" && Ending(WasInterrupted) == ".interrupted"
    ensures Ending(EmergencyStopped) == ".emergency_stopped"
  {
  }

  /** Any other type leaves the stored status alone. */
  lemma OtherEndingsAreSilent(types: seq<string>, typ: string)
    requires !("dispatch." <= typ) || (typ != "dispatch.resumed"
             && !HasSuffix(typ, ".started") && !HasSuffix(typ, ".completed") && !HasSuffix(typ, ".failed")
             && !HasSuffix(typ, ".cancelled") && !HasSuffix(typ, ".interrupted") && !HasSuffix(typ, ".emergency_stopped"))
    ensures Stored(types + [typ]) == Stored(types)
  {
    hide HasSuffix;
    DropLast(types, typ);
    EndingsSpeltOut();
    SpeltOut();
  }
}
