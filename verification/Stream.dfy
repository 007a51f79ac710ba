/** The live event stream of a run: it takes the current wake-up channel, reads a page, sends it, and waits on the channel
    it took, while events are appended at any moment in between. */
module Stream {
  import opened StoreModel
  import opened Reading

  const BACKLOG := 1000

  /** A channel is known by how many signals there were when it was made; the next signal closes it. */
  datatype Phase =
    | Subscribing
    | Looking(channel: nat)
    | Sending(channel: nat, page: seq<Event>)
    | Waiting(channel: nat)
    | Closed

  datatype World = World(log: seq<Event>, signals: nat, start: int, cursor: int, sent: seq<Event>, phase: Phase)

  datatype Step =
    | AppendEvent(e: Event)
    | OtherSignal
    | Subscribe
    | Look
    | SendOne(works: bool)
    | Wake
    | KeepAlive
    | Leave

  /** A step that is not possible changes nothing. */
  function Do(w: World, step: Step): World {
    match step
    case AppendEvent(e) => if e.id > LastID(w.log) then w.(log := w.log + [e], signals := w.signals + 1) else w
    case OtherSignal => w.(signals := w.signals + 1)
    case Subscribe => if w.phase.Subscribing? then w.(phase := Looking(w.signals)) else w
    case Look =>
      if w.phase.Looking? then
        var later := Later(w.log, w.cursor);
        w.(phase := if |later| > BACKLOG then Closed else Sending(w.phase.channel, later))
      else w
    case SendOne(works) =>
      if !w.phase.Sending? then w
      else if w.phase.page == [] then w.(phase := Waiting(w.phase.channel))
      else if works then
        var e := w.phase.page[0];
        w.(sent := w.sent + [e], cursor := e.id, phase := Sending(w.phase.channel, w.phase.page[1..]))
      else w.(phase := Closed)
    case Wake => if w.phase.Waiting? && w.phase.channel != w.signals then w.(phase := Subscribing) else w
    case KeepAlive => if w.phase.Waiting? then w.(phase := Subscribing) else w
    case Leave => w.(phase := Closed)
  }

  function Exec(log: seq<Event>, signals: nat, start: int, steps: seq<Step>): World
    decreases |steps|
  {
    if steps == [] then World(log, signals, start, start, [], Subscribing)
    else Do(Exec(log, signals, start, steps[..|steps| - 1]), steps[|steps| - 1])
  }

  // ---- the invariant

  function Page(w: World): seq<Event> { if w.phase.Sending? then w.phase.page else [] }

  function Channel(phase: Phase): nat { if phase.Subscribing? || phase.Closed? then 0 else phase.channel }

  /** What was sent, with the rest of the page, begins what the log holds after the start. */
  ghost predicate InStep(w: World) {
    && Rising(w.log)
    && w.sent + Page(w) <= Later(w.log, w.start)
    && w.cursor == (if w.sent == [] then w.start else w.sent[|w.sent| - 1].id)
    && Channel(w.phase) <= w.signals
  }

  /** As long as the channel is open, nothing was appended since it was taken, so the page was all there is. */
  ghost predicate Complete(w: World) {
    (w.phase.Sending? || w.phase.Waiting?) && w.phase.channel == w.signals ==> w.sent + Page(w) == Later(w.log, w.start)
  }

  lemma LaterAppend(log: seq<Event>, e: Event, after: int)
    ensures Later(log + [e], after) == if e.id > after then Later(log, after) + [e] else Later(log, after)
  {
    assert (log + [e])[..|log|] == log;
  }

  lemma RisingAppend(log: seq<Event>, e: Event)
    requires Rising(log) && e.id > LastID(log)
    ensures Rising(log + [e])
  {
    var all := log + [e];
    forall i, j | 0 <= i < j < |all| ensures all[i].id < all[j].id {
      if j == |log| && i < |log| - 1 { assert log[i].id < log[|log| - 1].id; }
    }
  }

  lemma CursorIndex(log: seq<Event>, cursor: int, m: nat, last: nat)
    requires Rising(log) && m <= |log| && last < |log| && log[last].id == cursor
    requires (forall i | 0 <= i < m :: log[i].id <= cursor) && (forall i | m <= i < |log| :: log[i].id > cursor)
    ensures m == last + 1
  {
    if last + 1 < |log| { assert log[last].id < log[last + 1].id; }
  }

  /** After the last event sent, the log goes on with what was not sent. */
  lemma RestAfterCursor(log: seq<Event>, start: int, sent: seq<Event>, cursor: int)
    requires Rising(log) && sent <= Later(log, start)
    requires cursor == if sent == [] then start else sent[|sent| - 1].id
    ensures sent + Later(log, cursor) == Later(log, start)
  {
    var n := LaterIsRest(log, start);
    var m := LaterIsRest(log, cursor);
    if sent == [] {
      assert sent + Later(log, cursor) == Later(log, cursor);
    } else {
      var last := n + |sent| - 1;
      assert Later(log, start)[|sent| - 1] == log[last] && log[last].id == cursor;
      CursorIndex(log, cursor, m, last);
      assert log[n..][..|sent|] == sent && log[n..][|sent|..] == log[m..];
    }
  }

  lemma AppendKeeps(w: World, e: Event)
    requires InStep(w) && Complete(w)
    ensures InStep(Do(w, AppendEvent(e))) && Complete(Do(w, AppendEvent(e)))
  {
    if e.id > LastID(w.log) {
      RisingAppend(w.log, e);
      LaterAppend(w.log, e, w.start);
    }
  }

  lemma LookKeeps(w: World)
    requires InStep(w) && Complete(w)
    ensures InStep(Do(w, Look)) && Complete(Do(w, Look))
  {
    hide Later, Rising;
    if w.phase.Looking? {
      assert w.sent + [] == w.sent;
      RestAfterCursor(w.log, w.start, w.sent, w.cursor);
    }
  }

  lemma SendKeeps(w: World, works: bool)
    requires InStep(w) && Complete(w)
    ensures InStep(Do(w, SendOne(works))) && Complete(Do(w, SendOne(works)))
  {
    hide Later, Rising;
    if w.phase.Sending? {
      assert w.sent + [] == w.sent;
      assert w.phase.page != [] ==> w.sent + w.phase.page == w.sent + [w.phase.page[0]] + w.phase.page[1..];
    }
  }

  lemma WaitKeeps(w: World, step: Step)
    requires InStep(w) && Complete(w)
    requires step.OtherSignal? || step.Subscribe? || step.Wake? || step.KeepAlive? || step.Leave?
    ensures InStep(Do(w, step)) && Complete(Do(w, step))
  {
    hide Later, Rising;
    assert w.sent + [] == w.sent;
    assert w.sent <= w.sent + Page(w);
  }

  lemma StepKeeps(w: World, step: Step)
    requires InStep(w) && Complete(w)
    ensures InStep(Do(w, step)) && Complete(Do(w, step))
  {
    hide InStep, Complete, Do;
    match step
    case AppendEvent(e) => AppendKeeps(w, e);
    case Look => LookKeeps(w);
    case SendOne(works) => SendKeeps(w, works);
    case _ => WaitKeeps(w, step);
  }

  lemma {:induction false} InStepAlways(log: seq<Event>, signals: nat, start: int, steps: seq<Step>)
    requires Rising(log)
    ensures InStep(Exec(log, signals, start, steps)) && Complete(Exec(log, signals, start, steps))
    decreases |steps|
  {
    hide Do;
    if steps == [] {
      assert [] + [] <= Later(log, start);
    } else {
      InStepAlways(log, signals, start, steps[..|steps| - 1]);
      StepKeeps(Exec(log, signals, start, steps[..|steps| - 1]), steps[|steps| - 1]);
    }
  }

  // ---- what follows

  lemma SentBegins(w: World)
    requires InStep(w)
    ensures w.sent <= Later(w.log, w.start)
  {
    hide Later;
    assert (w.sent + Page(w))[..|w.sent|] == w.sent;
  }

  ghost predicate Stretch(w: World, n: nat) {
    && n + |w.sent| <= |w.log|
    && w.sent == w.log[n..n + |w.sent|]
    && (forall i | 0 <= i < n :: w.log[i].id <= w.start) && (n < |w.log| ==> w.log[n].id > w.start)
  }

  lemma SentIsStretch(w: World) returns (n: nat)
    requires InStep(w)
    ensures Stretch(w, n)
  {
    SentBegins(w);
    n := LaterIsRest(w.log, w.start);
    assert w.log[n..][..|w.sent|] == w.sent;
  }

  /** Whatever is appended in between, a stream sends a stretch of the log that begins right after the start cursor: in
      order, without gaps and without repetition. */
  lemma StreamSendsAStretch(log: seq<Event>, signals: nat, start: int, steps: seq<Step>) returns (n: nat)
    requires Rising(log)
    ensures Exec(log, signals, start, steps).start == start && Stretch(Exec(log, signals, start, steps), n)
  {
    hide Do;
    StartStays(log, signals, start, steps);
    InStepAlways(log, signals, start, steps);
    n := SentIsStretch(Exec(log, signals, start, steps));
  }

  /** A stream ends itself when it looks and more than a thousand events wait, and not before; so no page is longer. */
  lemma {:induction false} PagesAreBounded(log: seq<Event>, signals: nat, start: int, steps: seq<Step>)
    ensures var w := Exec(log, signals, start, steps);
            && |Page(w)| <= 1000
            && (w.phase.Looking? ==> (Do(w, Look).phase.Closed? <==> |Later(w.log, w.cursor)| > 1000))
    decreases |steps|
  {
    hide Later;
    if steps != [] { PagesAreBounded(log, signals, start, steps[..|steps| - 1]); }
  }

  lemma OpenChannel(w: World)
    requires InStep(w) && Complete(w) && w.phase.Waiting? && Do(w, Wake) == w
    ensures w.sent == Later(w.log, w.start)
  {
    hide Later;
    assert w.sent + [] == w.sent;
  }

  /** No wake-up is lost: a stream that waits on a channel nobody has closed has sent everything there is. */
  lemma WaitingHasSentAll(log: seq<Event>, signals: nat, start: int, steps: seq<Step>)
    requires Rising(log)
    requires var w := Exec(log, signals, start, steps); w.phase.Waiting? && Do(w, Wake) == w
    ensures var w := Exec(log, signals, start, steps); w.sent == Later(w.log, start)
  {
    hide Do, Later;
    InStepAlways(log, signals, start, steps);
    StartStays(log, signals, start, steps);
    OpenChannel(Exec(log, signals, start, steps));
  }

  lemma {:induction false} StartStays(log: seq<Event>, signals: nat, start: int, steps: seq<Step>)
    ensures Exec(log, signals, start, steps).start == start
    decreases |steps|
  {
    if steps != [] { StartStays(log, signals, start, steps[..|steps| - 1]); }
  }
}
