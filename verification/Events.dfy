/**
 The replayable status stream. The broker keeps a bounded ring of contiguously numbered events
 and a queue per subscriber; the SSE generator subscribes, replays from the ring, then drains
 its queue behind a watermark. Together they refine a suffix of one unbounded log, under any
 interleaving of publishes with the generator's segments.
 */
module Events {
  import opened Domain

  // What `_relevant` looks at: the page of the event's thread and its preview pages, if any.
  datatype Shown = Shown(page: string, previews: seq<string>)

  datatype Payload = Payload(thread: Option<Shown>)

  datatype Event = Event(id: nat, payload: Payload)

  datatype Frame = Retry | Reset | Keepalive | Data(event: Event)

  // The log position an event comes after.
  function Pos(e: Event): nat
  {
    if e.id > 0 then e.id - 1 else 0
  }

  predicate Relevant(e: Event, page: Option<string>)
  {
    page.None? || e.payload.thread.None?
    || e.payload.thread.value.page == page.value || page.value in e.payload.thread.value.previews
  }

  // ---- the log and the ring -----------------------------------------------------------

  // Events a+1 .. b of the log: event k carries entry k - 1.
  function Slice(log: seq<Payload>, a: nat, b: nat): (r: seq<Event>)
    requires a <= b <= |log|
    ensures |r| == b - a && forall j :: 0 <= j < |r| ==> r[j].id == a + j + 1
  {
    seq(b - a, j requires 0 <= j < b - a => Event(a + j + 1, log[a + j]))
  }

  function RingStart(log: seq<Payload>, history: nat): nat
  {
    if |log| <= history then 0 else |log| - history
  }

  function Ring(log: seq<Payload>, history: nat): seq<Event>
  {
    Slice(log, RingStart(log, history), |log|)
  }

  function Newer(ring: seq<Event>, last: int): seq<Event>
  {
    if ring == [] then []
    else (if ring[0].id > last then [ring[0]] else []) + Newer(ring[1..], last)
  }

  // Events newer than `last`, or None when the gap cannot be verified.
  function ReplayFrom(ring: seq<Event>, last: int): Option<seq<Event>>
  {
    if ring == [] then (if last > 0 then None else Some([]))
    else if last + 1 < ring[0].id then None
    else Some(Newer(ring, last))
  }

  function Clip(last: int, n: nat): nat
  {
    if last < 0 then 0 else if last > n then n else last
  }

  lemma {:induction false} NewerOfSlice(log: seq<Payload>, a: nat, b: nat, last: int)
    requires a <= b <= |log| && a <= last + 1
    ensures Newer(Slice(log, a, b), last) == if last <= a then Slice(log, a, b) else Slice(log, Clip(last, b), b)
    decreases b - a
  {
    var s := Slice(log, a, b);
    if a < b {
      assert s[1..] == Slice(log, a + 1, b);
      NewerOfSlice(log, a + 1, b, if last <= a then a else last);
      if last <= a {
        NewerIgnoresBelow(s[1..], last, a);
        assert s == [s[0]] + s[1..];
      }
    }
  }

  lemma {:induction false} NewerIgnoresBelow(s: seq<Event>, x: int, y: int)
    requires forall j :: 0 <= j < |s| ==> s[j].id > x && s[j].id > y
    ensures Newer(s, x) == Newer(s, y) == s
  {
    if s != [] {
      NewerIgnoresBelow(s[1..], x, y);
    }
  }

  // The ring answers a replay with exactly the suffix of the log after `last`, or admits a gap.
  lemma ReplayIsLogSuffix(log: seq<Payload>, history: nat, last: int)
    requires log != [] && history > 0
    ensures ReplayFrom(Ring(log, history), last) ==
      if last < RingStart(log, history) then None else Some(Slice(log, Clip(last, |log|), |log|))
  {
    var start := RingStart(log, history);
    if last >= start {
      NewerOfSlice(log, start, |log|, last);
    }
  }

  // A page is spared exactly the events of threads that are neither on it nor previewed on it.
  lemma SparedIff(e: Event, page: Option<string>)
    ensures !Relevant(e, page) <==>
      && page.Some? && e.payload.thread.Some?
      && e.payload.thread.value.page != page.value
      && forall k :: 0 <= k < |e.payload.thread.value.previews| ==> e.payload.thread.value.previews[k] != page.value
  {
  }

  // ---- the generator as a state machine --------------------------------------------------

  datatype StreamPhase = Opening | Replaying(missed: seq<Event>) | Tailing

  // `sub` is the log length at subscription, `taken` how many queued events were consumed, and
  // `origin` the position after which the client is being served.
  datatype Stream = Stream(
    sub: nat, last: Option<int>, page: Option<string>, phase: StreamPhase,
    sentUntil: nat, taken: nat, origin: nat, out: seq<Frame>)

  datatype System = System(log: seq<Payload>, history: nat, stream: Stream)

  function Subscribed(log: seq<Payload>, history: nat, last: Option<int>, page: Option<string>): System
  {
    System(log, history, Stream(|log|, last, page, Opening, 0, 0, |log|, []))
  }

  datatype Move = Publish(payload: Payload) | Begin | SendMissed | Take | Wait

  predicate CanMove(y: System, m: Move)
  {
    match m
    case Publish(_) => true
    case Begin => y.stream.phase.Opening?
    case SendMissed => y.stream.phase.Replaying?
    case Take => y.stream.phase.Tailing? && y.stream.sub + y.stream.taken < |y.log|
    case Wait => y.stream.phase.Tailing?
  }

  function Emit(st: Stream, e: Event): Stream
  {
    var st1 := st.(sentUntil := e.id);
    if Relevant(e, st.page) then st1.(out := st1.out + [Data(e)]) else st1
  }

  // First resumption after the retry frame: compute the replay.
  function BeginStream(st: Stream, ring: seq<Event>): Stream
  {
    if st.last.None? then st.(phase := Tailing, out := st.out + [Retry])
    else
      match ReplayFrom(ring, st.last.value)
      case None => st.(phase := Tailing, out := st.out + [Retry, Reset])
      case Some(missed) =>
        st.(phase := Replaying(missed), out := st.out + [Retry],
            origin := if missed == [] then st.origin else Pos(missed[0]))
  }

  function SendStream(st: Stream): Stream
    requires st.phase.Replaying?
  {
    if st.phase.missed == [] then st.(phase := Tailing)
    else Emit(st, st.phase.missed[0]).(phase := Replaying(st.phase.missed[1..]))
  }

  function TakeStream(st: Stream, e: Event): Stream
  {
    if e.id <= st.sentUntil then st.(taken := st.taken + 1) else Emit(st, e).(taken := st.taken + 1)
  }

  function Step(y: System, m: Move): System
    requires CanMove(y, m)
  {
    match m
    case Publish(p) => y.(log := y.log + [p])
    case Begin => y.(stream := BeginStream(y.stream, Ring(y.log, y.history)))
    case SendMissed => y.(stream := SendStream(y.stream))
    case Take =>
      var k := y.stream.sub + y.stream.taken;
      y.(stream := TakeStream(y.stream, Event(k + 1, y.log[k])))
    case Wait => y.(stream := y.stream.(out := y.stream.out + [Keepalive]))
  }

  predicate CanRun(y: System, moves: seq<Move>)
    decreases |moves|
  {
    moves == [] || (CanMove(y, moves[0]) && CanRun(Step(y, moves[0]), moves[1..]))
  }

  function RunMoves(y: System, moves: seq<Move>): System
    requires CanRun(y, moves)
    decreases |moves|
  {
    if moves == [] then y else RunMoves(Step(y, moves[0]), moves[1..])
  }

  // Filtering keeps the order and drops exactly the spared events.
  lemma {:induction false} FilterInOrder(a: seq<Event>, b: seq<Event>, e: Event, page: Option<string>)
    ensures FilterRelevant([], page) == [] && FilterRelevant([e], page) == if Relevant(e, page) then [e] else []
    ensures FilterRelevant(a + b, page) == FilterRelevant(a, page) + FilterRelevant(b, page)
    decreases |b|
  {
    assert [e][..0] == [];
    if b == [] {
      assert a + b == a;
    } else {
      var rest, last := b[..|b| - 1], b[|b| - 1];
      assert (a + b)[..|a + b| - 1] == a + rest;
      FilterInOrder(a, rest, e, page);
    }
  }

  // ---- what the client receives -------------------------------------------------------------

  function DataFrames(out: seq<Frame>): seq<Event>
  {
    if out == [] then []
    else DataFrames(out[..|out| - 1]) + (if out[|out| - 1].Data? then [out[|out| - 1].event] else [])
  }

  function FilterRelevant(es: seq<Event>, page: Option<string>): seq<Event>
  {
    if es == [] then []
    else FilterRelevant(es[..|es| - 1], page) + (if Relevant(es[|es| - 1], page) then [es[|es| - 1]] else [])
  }

  // The last event the client has been served past.
  function Cursor(y: System): nat
  {
    var st := y.stream;
    match st.phase
    case Opening => st.sub
    case Replaying(missed) => if missed != [] then Pos(missed[0]) else if st.sentUntil > 0 then st.sentUntil else st.sub
    case Tailing => if st.sentUntil > st.sub + st.taken then st.sentUntil else st.sub + st.taken
  }

  ghost predicate StreamOk(y: System)
  {
    var st := y.stream;
    && st.sub + st.taken <= |y.log| && st.sentUntil <= |y.log|
    && st.origin <= Cursor(y) <= |y.log|
    && DataFrames(st.out) == FilterRelevant(Slice(y.log, st.origin, Cursor(y)), st.page)
    && (st.phase.Opening? ==> st.sentUntil == 0 && st.taken == 0 && st.origin == st.sub)
    && (st.phase.Replaying? ==>
          st.taken == 0 &&
          var missed := st.phase.missed;
          && Cursor(y) + |missed| <= |y.log| && missed == Slice(y.log, Cursor(y), Cursor(y) + |missed|)
          && (missed != [] ==> st.sub <= Cursor(y) + |missed|)
          && (missed == [] ==> st.sentUntil > 0 ==> st.sub <= st.sentUntil))
  }

  lemma SliceGrows(log: seq<Payload>, more: seq<Payload>, a: nat, b: nat)
    requires a <= b <= |log|
    ensures Slice(log + more, a, b) == Slice(log, a, b)
  {
  }

  lemma FilterExtends(log: seq<Payload>, a: nat, b: nat, page: Option<string>)
    requires a <= b < |log|
    ensures FilterRelevant(Slice(log, a, b + 1), page) ==
      FilterRelevant(Slice(log, a, b), page) + (if Relevant(Event(b + 1, log[b]), page) then [Event(b + 1, log[b])] else [])
  {
    var s := Slice(log, a, b + 1);
    assert s[..|s| - 1] == Slice(log, a, b);
  }

  lemma FramesExtend(out: seq<Frame>, f: Frame)
    ensures DataFrames(out + [f]) == DataFrames(out) + (if f.Data? then [f.event] else [])
  {
    assert (out + [f])[..|out|] == out;
  }

  // What the first resumption decides: tail from the subscription after a reset or without a
  // Last-Event-ID, or replay everything after it that the ring still holds.
  lemma BeginDecides(y: System)
    requires y.stream.phase.Opening?
    ensures
      var v := Step(y, Begin).stream;
      var st := y.stream;
      var n := |y.log|;
      && v.sub == st.sub && v.taken == st.taken && v.sentUntil == st.sentUntil && v.page == st.page
      && (v.phase.Tailing? || v.phase.Replaying?)
      && (v.phase.Tailing? ==> v.origin == st.origin && (v.out == st.out + [Retry] || v.out == st.out + [Retry, Reset]))
      && (v.phase.Replaying? ==> st.last.Some? && v.out == st.out + [Retry])
      && (v.phase.Replaying? && v.phase.missed == [] ==>
            v.origin == st.origin && (Clip(st.last.value, n) == n || y.history == 0))
      && (v.phase.Replaying? && v.phase.missed != [] ==>
            y.history > 0 && v.origin == Clip(st.last.value, n) < n && v.phase.missed == Slice(y.log, v.origin, n))
  {
    var st := y.stream;
    if st.last.Some? && y.log != [] && y.history > 0 {
      ReplayIsLogSuffix(y.log, y.history, st.last.value);
    }
  }

  lemma BeginOk(y: System)
    requires StreamOk(y) && CanMove(y, Begin)
    ensures StreamOk(Step(y, Begin))
  {
    var st := y.stream;
    BeginDecides(y);
    FramesExtend(st.out, Retry);
    FramesExtend(st.out + [Retry], Reset);
    assert st.out + [Retry] + [Reset] == st.out + [Retry, Reset];
    assert Slice(y.log, st.sub, st.sub) == [];
    var v := Step(y, Begin);
    assert v.log == y.log && DataFrames(v.stream.out) == [];
    assert Slice(y.log, v.stream.origin, v.stream.origin) == [];
  }

  lemma SliceRest(log: seq<Payload>, a: nat, b: nat)
    requires a < b <= |log|
    ensures Slice(log, a, b)[0] == Event(a + 1, log[a]) && Slice(log, a, b)[1..] == Slice(log, a + 1, b)
  {
  }

  lemma SendOk(y: System)
    requires StreamOk(y) && CanMove(y, SendMissed)
    ensures StreamOk(Step(y, SendMissed))
  {
    var st := y.stream;
    var missed := st.phase.missed;
    if missed != [] {
      var c := Cursor(y);
      FramesExtend(st.out, Data(missed[0]));
      FilterExtends(y.log, st.origin, c, st.page);
      SliceRest(y.log, c, c + |missed|);
    }
  }

  lemma TakeOk(y: System)
    requires StreamOk(y) && CanMove(y, Take)
    ensures StreamOk(Step(y, Take))
  {
    var st := y.stream;
    var k := st.sub + st.taken;
    if k + 1 > st.sentUntil {
      FramesExtend(st.out, Data(Event(k + 1, y.log[k])));
      FilterExtends(y.log, st.origin, k, st.page);
    }
  }

  lemma StepOk(y: System, m: Move)
    requires StreamOk(y) && CanMove(y, m)
    ensures StreamOk(Step(y, m))
  {
    match m
    case Publish(p) =>
      SliceGrows(y.log, [p], y.stream.origin, Cursor(y));
      if y.stream.phase.Replaying? {
        SliceGrows(y.log, [p], Cursor(y), Cursor(y) + |y.stream.phase.missed|);
      }
    case Begin => BeginOk(y);
    case SendMissed => SendOk(y);
    case Take => TakeOk(y);
    case Wait => FramesExtend(y.stream.out, Keepalive);
  }

  lemma {:induction false} MovesOk(y: System, moves: seq<Move>)
    requires StreamOk(y) && CanRun(y, moves)
    ensures StreamOk(RunMoves(y, moves))
    decreases |moves|
  {
    if moves != [] {
      StepOk(y, moves[0]);
      MovesOk(Step(y, moves[0]), moves[1..]);
    }
  }

  // ---- lossless, duplicate-free replay --------------------------------------------------------

  // Without a reset the stream continues the client's position exactly when the client was at
  // the subscription point, or behind the log when the replay was computed from a real ring.
  lemma LosslessIff(y: System)
    requires StreamOk(y) && CanMove(y, Begin) && y.stream.last.Some? && Step(y, Begin).stream.phase.Replaying?
    ensures
      var last := y.stream.last.value;
      var position := if last < 0 then 0 else last;
      Step(y, Begin).stream.origin == position <==>
        position == y.stream.sub || (last < |y.log| && y.history > 0)
  {
    BeginDecides(y);
  }

  // A client whose missed events the ring still holds gets all of them, and no reset.
  lemma BeginReplays(y: System, last: nat)
    requires y.stream.phase.Opening? && y.stream.last == Some(last) && y.history > 0
    requires RingStart(y.log, y.history) <= last <= |y.log|
    ensures
      var v := Step(y, Begin).stream;
      && v.phase == Replaying(Slice(y.log, last, |y.log|))
      && v.out == y.stream.out + [Retry]
      && v.origin == if last == |y.log| then y.stream.origin else last
  {
    if y.log != [] {
      ReplayIsLogSuffix(y.log, y.history, last);
    } else {
      assert Slice(y.log, 0, 0) == [];
    }
  }

  // A reset is owed when nothing in the ring vouches for the client's position: a ring that holds
  // nothing and a client that has seen something, or events after that position already evicted.
  predicate OwesReset(published: nat, history: nat, last: int)
  {
    if published == 0 || history == 0 then last > 0 else last < 0 || last + history < published
  }

  lemma BeginResetsIff(y: System)
    requires y.stream.phase.Opening? && Reset !in y.stream.out
    ensures Reset in Step(y, Begin).stream.out <==>
      y.stream.last.Some? && OwesReset(|y.log|, y.history, y.stream.last.value)
  {
    if y.stream.last.Some? && y.log != [] && y.history > 0 {
      ReplayIsLogSuffix(y.log, y.history, y.stream.last.value);
    }
  }

  // What was published between the subscription and the generator's first resumption.
  function PublishedFirst(moves: seq<Move>): seq<Payload>
  {
    if moves != [] && moves[0].Publish? then [moves[0].payload] + PublishedFirst(moves[1..]) else []
  }

  lemma {:induction false} ResetsStay(y: System, moves: seq<Move>)
    requires CanRun(y, moves) && !y.stream.phase.Opening?
    ensures !RunMoves(y, moves).stream.phase.Opening?
    ensures Reset in RunMoves(y, moves).stream.out <==> Reset in y.stream.out
    decreases |moves|
  {
    if moves != [] {
      ResetsStay(Step(y, moves[0]), moves[1..]);
    }
  }

  // For every client, position and interleaving: a reset is sent exactly when one was owed at the
  // moment the replay was computed.
  lemma {:induction false} ResetIff(y: System, moves: seq<Move>)
    requires CanRun(y, moves) && y.stream.phase.Opening? && y.stream.out == []
    ensures
      var v := RunMoves(y, moves).stream;
      Reset in v.out <==>
        !v.phase.Opening? && v.last.Some? && OwesReset(|y.log| + |PublishedFirst(moves)|, y.history, v.last.value)
    ensures RunMoves(y, moves).stream.last == y.stream.last
    decreases |moves|
  {
    if moves != [] {
      var u := Step(y, moves[0]);
      if moves[0].Publish? {
        ResetIff(u, moves[1..]);
      } else {
        BeginResetsIff(y);
        BeginDecides(y);
        ResetsStay(u, moves[1..]);
        LastStays(u, moves[1..]);
      }
    }
  }

  lemma {:induction false} LastStays(y: System, moves: seq<Move>)
    requires CanRun(y, moves)
    ensures RunMoves(y, moves).stream.last == y.stream.last
    decreases |moves|
  {
    if moves != [] {
      LastStays(Step(y, moves[0]), moves[1..]);
    }
  }

  // For a client at `last`: reset and served from the subscription, or served from `last`.
  ghost predicate Served(y: System, last: nat)
  {
    var st := y.stream;
    && st.last == Some(last) && last <= st.sub && y.history > 0
    && (st.phase.Opening? ==> st.out == [])
    && (!st.phase.Opening? ==> st.origin == if Reset in st.out then st.sub else last)
  }

  lemma StepServes(y: System, m: Move, last: nat)
    requires StreamOk(y) && CanMove(y, m) && Served(y, last)
    ensures Served(Step(y, m), last)
  {
    if m.Begin? {
      BeginDecides(y);
      if Step(y, m).stream.phase.Replaying? { LosslessIff(y); }
    }
  }

  lemma {:induction false} MovesServe(y: System, moves: seq<Move>, last: nat)
    requires StreamOk(y) && CanRun(y, moves) && Served(y, last)
    ensures Served(RunMoves(y, moves), last)
    ensures RunMoves(y, moves).stream.sub == y.stream.sub && RunMoves(y, moves).stream.page == y.stream.page
    ensures y.log <= RunMoves(y, moves).log
    decreases |moves|
  {
    if moves != [] {
      StepOk(y, moves[0]);
      StepServes(y, moves[0], last);
      MovesServe(Step(y, moves[0]), moves[1..], last);
    }
  }

  // A client whose last id was issued before it subscribed, any ring that holds something, any
  // interleaving of publishes with the generator: the frames are exactly the relevant events
  // after `last`, or a reset and then the relevant events after the subscription, each once and
  // in order, up to the cursor; and the cursor is the end of the log once the queue is drained.
  // The reset is sent exactly if the event after `last` had left the ring when it was consulted.
  lemma LosslessReplay(log: seq<Payload>, history: nat, last: nat, page: Option<string>, moves: seq<Move>)
    requires last <= |log| && history > 0 && CanRun(Subscribed(log, history, Some(last), page), moves)
    ensures
      var y := RunMoves(Subscribed(log, history, Some(last), page), moves);
      var from := if y.stream.phase.Opening? || Reset in y.stream.out then |log| else last;
      && from <= Cursor(y) <= |y.log| && log <= y.log
      && DataFrames(y.stream.out) == FilterRelevant(Slice(y.log, from, Cursor(y)), page)
      && (y.stream.phase.Tailing? && |log| + y.stream.taken == |y.log| ==> Cursor(y) == |y.log|)
      && (Reset in y.stream.out <==>
            !y.stream.phase.Opening? && last + history < |log| + |PublishedFirst(moves)|)
  {
    var y := Subscribed(log, history, Some(last), page);
    ResetIff(y, moves);
    assert Slice(log, |log|, |log|) == [];
    MovesOk(y, moves);
    MovesServe(y, moves, last);
  }

  lemma RingGrows(log: seq<Payload>, history: nat, p: Payload)
    ensures
      var all := Ring(log, history) + [Event(|log| + 1, p)];
      Ring(log + [p], history) == if |all| > history then all[1..] else all
  {
    SliceGrows(log, [p], RingStart(log, history), |log|);
    assert Slice(log + [p], RingStart(log, history), |log| + 1) ==
      Slice(log, RingStart(log, history), |log|) + [Event(|log| + 1, p)];
  }

  // ---- the broker --------------------------------------------------------------------------------

  class EventQueue {
    var items: seq<Event>

    constructor ()
      ensures items == []
    {
      items := [];
    }
  }

  class StatusBroker {
    const history: nat
    var events: seq<Event>
    var nextId: nat
    var subscribers: set<EventQueue>
    ghost var log: seq<Payload>

    ghost predicate Valid()
      reads this
    {
      nextId == |log| + 1 && events == Ring(log, history)
    }

    constructor (history: nat)
      ensures Valid() && log == [] && subscribers == {} && this.history == history
    {
      this.history := history;
      events, nextId, subscribers, log := [], 1, {}, [];
    }

    method Subscribe() returns (q: EventQueue)
      requires Valid()
      modifies this
      ensures Valid() && log == old(log) && events == old(events)
      ensures fresh(q) && q.items == [] && subscribers == old(subscribers) + {q}
    {
      q := new EventQueue();
      subscribers := subscribers + {q};
    }

    method Unsubscribe(q: EventQueue)
      requires Valid()
      modifies this
      ensures Valid() && log == old(log) && events == old(events) && subscribers == old(subscribers) - {q}
    {
      subscribers := subscribers - {q};
    }

    method Publish(p: Payload)
      requires Valid()
      modifies this, subscribers
      ensures Valid() && log == old(log) + [p] && subscribers == old(subscribers)
      ensures forall q :: q in subscribers ==> q.items == old(q.items) + [Event(|log|, p)]
    {
      var e := Event(nextId, p);
      nextId := nextId + 1;
      events := events + [e];
      if |events| > history {
        events := events[1..];
      }
      ghost var was := log;
      log := log + [p];
      RingGrows(was, history, p);
      hide Ring;
      var todo := subscribers;
      while todo != {}
        invariant todo <= subscribers && subscribers == old(subscribers) && Valid() && log == was + [p]
        invariant forall q :: q in subscribers ==>
          q.items == if q in todo then old(q.items) else old(q.items) + [e]
        decreases todo
      {
        var q :| q in todo;
        q.items := q.items + [e];
        todo := todo - {q};
      }
    }

    method ReplaySince(last: int) returns (r: Option<seq<Event>>)
      requires Valid()
      ensures r == ReplayFrom(events, last)
    {
      if events == [] {
        return if last > 0 then None else Some([]);
      }
      if last + 1 < events[0].id {
        return None;
      }
      var out: seq<Event> := [];
      var k := |events|;
      while k > 0
        invariant 0 <= k <= |events|
        invariant out == Newer(events[k..], last)
      {
        k := k - 1;
        assert events[k..][1..] == events[k + 1..];
        if events[k].id > last {
          out := [events[k]] + out;
        }
      }
      assert events[0..] == events;
      return Some(out);
    }
  }

  // ---- the SSE generator ------------------------------------------------------------------------------

  class StreamGenerator {
    const broker: StatusBroker
    const queue: EventQueue
    const page: Option<string>
    const last: Option<int>
    var phase: StreamPhase
    var sentUntil: nat
    var out: seq<Frame>
    ghost var sub: nat
    ghost var taken: nat
    ghost var origin: nat

    ghost function State(): Stream
      reads this
    {
      Stream(sub, last, page, phase, sentUntil, taken, origin, out)
    }

    ghost function Sys(): System
      reads this, broker
    {
      System(broker.log, broker.history, State())
    }

    ghost predicate Valid()
      reads this, broker, queue
    {
      && broker.Valid() && queue in broker.subscribers && StreamOk(Sys())
      && queue.items == Slice(broker.log, sub + taken, |broker.log|)
    }

    // Subscribe before anything is replayed.
    constructor (broker: StatusBroker, last: Option<int>, page: Option<string>)
      requires broker.Valid()
      modifies broker
      ensures Valid() && this.broker == broker && fresh(queue) && broker.log == old(broker.log)
      ensures Sys() == Subscribed(broker.log, broker.history, last, page)
    {
      var q := broker.Subscribe();
      this.broker, this.queue, this.page, this.last := broker, q, page, last;
      phase, sentUntil, out := Opening, 0, [];
      sub, taken, origin := |broker.log|, 0, |broker.log|;
      new;
      assert Slice(broker.log, |broker.log|, |broker.log|) == [];
    }

    method BeginReplay()
      requires Valid() && phase.Opening?
      modifies this
      ensures Valid() && Sys() == Step(old(Sys()), Begin)
    {
      ghost var y := Sys();
      BeginOk(y);
      out := out + [Retry];
      if last.None? {
        phase := Tailing;
      } else {
        var missed := broker.ReplaySince(last.value);
        if missed.None? {
          out := out + [Reset];
          phase := Tailing;
          assert y.stream.out + [Retry] + [Reset] == y.stream.out + [Retry, Reset];
        } else {
          phase := Replaying(missed.value);
          origin := if missed.value == [] then origin else Pos(missed.value[0]);
        }
      }
      assert State() == BeginStream(y.stream, Ring(y.log, y.history));
      hide StreamOk, BeginStream, Slice, Ring;
      assert Sys() == Step(y, Begin);
    }

    // One round of the replay loop.
    method SendNext()
      requires Valid() && phase.Replaying?
      modifies this
      ensures Valid() && Sys() == Step(old(Sys()), SendMissed)
    {
      ghost var y := Sys();
      SendOk(y);
      if phase.missed == [] {
        phase := Tailing;
      } else {
        var e := phase.missed[0];
        sentUntil := e.id;
        if Relevant(e, page) {
          out := out + [Data(e)];
        }
        phase := Replaying(phase.missed[1..]);
      }
      assert State() == SendStream(y.stream);
      hide StreamOk, SendStream, Slice;
      assert Sys() == Step(y, SendMissed);
    }

    // The drain loop timed out on an empty queue.
    method KeepAlive()
      requires Valid() && phase.Tailing? && queue.items == []
      modifies this
      ensures Valid() && Sys() == Step(old(Sys()), Wait)
    {
      StepOk(Sys(), Wait);
      out := out + [Keepalive];
    }

    // One round of the drain loop.
    method TakeNext()
      requires Valid() && phase.Tailing? && queue.items != []
      modifies this, queue
      ensures Valid() && Sys() == Step(old(Sys()), Take)
    {
      ghost var y := Sys();
      TakeOk(y);
      SliceRest(y.log, sub + taken, |y.log|);
      hide Slice;
      var e := queue.items[0];
      queue.items := queue.items[1..];
      taken := taken + 1;
      if e.id > sentUntil {
        sentUntil := e.id;
        if Relevant(e, page) {
          out := out + [Data(e)];
        }
      }
      hide StreamOk;
      assert Sys() == Step(y, Take);
    }
  }

  // A publish is one more move of every generator's system, whoever else is subscribed.
  method PublishUnder(g: StreamGenerator, p: Payload)
    requires g.Valid()
    modifies g.broker, g.broker.subscribers
    ensures g.Valid() && g.Sys() == Step(old(g.Sys()), Publish(p))
  {
    StepOk(g.Sys(), Publish(p));
    ghost var was := g.broker.log;
    SliceGrows(was, [p], g.sub + g.taken, |was|);
    g.broker.Publish(p);
    assert Slice(g.broker.log, g.sub + g.taken, |g.broker.log|) == Slice(was, g.sub + g.taken, |was|) + [Event(|was| + 1, p)];
  }
}
