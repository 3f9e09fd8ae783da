/**
 The resumable event stream: a server that scans its log in pages and writes what the client may see, and a
 client that reconnects with the last identifier it received. A position in the log stands for the identifier
 of the entry before it.
 */
module EventStream {
  import opened Sequences
  import opened Machines

  datatype Event = Event(id: string)

  datatype Chunk = Deliver(event: Event, position: nat) | Checkpoint(position: nat) | Heartbeat

  /** What one read of the log returns. */
  datatype Page = Page(events: seq<(Event, nat)>, scannedThrough: nat, hasMore: bool)

  /** The events of `log` up to `to` and after `from` that the principal may see, with their positions. */
  function VisibleFrom(sees: Event -> bool, log: seq<Event>, from: nat, end: nat): seq<(Event, nat)>
    requires from <= end <= |log|
  {
    if from == end then [] else
    VisibleFrom(sees, log, from, end - 1) + if sees(log[end - 1]) then [(log[end - 1], end)] else []
  }

  function Min(a: nat, b: nat): nat { if a < b then a else b }

  function ReadPublicEvents(sees: Event -> bool, log: seq<Event>, after: nat, limit: nat): Page
    requires after <= |log|
  {
    var end := Min(|log|, after + limit);
    Page(VisibleFrom(sees, log, after, end), end, |log| > after + limit)
  }

  function EventChunks(events: seq<(Event, nat)>): seq<Chunk> {
    if events == [] then [] else [Deliver(events[0].0, events[0].1)] + EventChunks(events[1..])
  }

  /** What one turn of the loop writes for a page that was read at `cursor`. */
  function TurnChunks(cursor: nat, page: Page): seq<Chunk> {
    var n := |page.events|;
    EventChunks(page.events)
      + if page.scannedThrough != cursor && (n == 0 || page.events[n - 1].1 != page.scannedThrough)
        then [Checkpoint(page.scannedThrough)] else []
  }

  // ---- the client ------------------------------------------------------------------------------

  /** What the client has received: its events, and the last identifier. */
  datatype Received = Received(events: seq<(Event, nat)>, last: nat)

  function Receive(r: Received, c: Chunk): Received {
    match c
    case Deliver(event, position) => Received(r.events + [(event, position)], position)
    case Checkpoint(position) => r.(last := position)
    case Heartbeat => r
  }

  function ReceiveAll(r: Received, chunks: seq<Chunk>): Received {
    if chunks == [] then r else Receive(ReceiveAll(r, chunks[..|chunks| - 1]), chunks[|chunks| - 1])
  }

  /** The client has exactly the visible events from the start up to its last identifier. */
  ghost predicate Exact(sees: Event -> bool, log: seq<Event>, start: nat, r: Received) {
    start <= r.last <= |log| && r.events == VisibleFrom(sees, log, start, r.last)
  }

  // ---- one connection --------------------------------------------------------------------------

  class Connection {
    const limit: nat
    var cursor: nat
    var page: Page
    var written: seq<Chunk>
    var aborted: bool

    constructor (sees: Event -> bool, log: seq<Event>, after: nat, limit: nat)
      requires after <= |log|
      ensures cursor == after && page == ReadPublicEvents(sees, log, after, limit) && written == [] && !aborted
      ensures this.limit == limit
    {
      this.limit, cursor, written, aborted := limit, after, [], false;
      page := ReadPublicEvents(sees, log, after, limit);
    }

    /** Write a chunk, unless the connection is gone; `breaks`: it breaks while the chunk is written. */
    method WriteStreamChunk(chunk: Chunk, breaks: bool)
      modifies this`written, this`aborted
      ensures written == if old(aborted) then old(written) else old(written) + [chunk]
      ensures aborted == (old(aborted) || breaks)
    {
      if !aborted {
        written := written + [chunk];
        aborted := breaks;
      }
    }

    /** One turn of the loop: the page's events, a checkpoint when its last entries stay unseen, and the next
        page. The connection may break at any write. */
    method Turn(sees: Event -> bool, log: seq<Event>, breaks: seq<bool>)
      requires !aborted && cursor <= page.scannedThrough <= |log| && |breaks| > |page.events|
      modifies this
      ensures old(written) <= written <= old(written) + TurnChunks(old(cursor), old(page))
      ensures !aborted ==> written == old(written) + TurnChunks(old(cursor), old(page))
      ensures !aborted ==>
        cursor == old(page).scannedThrough && page == ReadPublicEvents(sees, log, cursor, limit)
    {
      ghost var all := TurnChunks(cursor, page);
      EventChunksAre(page.events);
      var previousCursor := cursor;
      cursor := page.scannedThrough;
      var i := 0;
      while i < |page.events| && !aborted
        invariant i <= |page.events| && page == old(page) && cursor == page.scannedThrough
        invariant i <= |all| && written == old(written) + all[..i]
      {
        var event := page.events[i];
        assert all[i] == Deliver(event.0, event.1);
        WriteStreamChunk(Deliver(event.0, event.1), breaks[i]);
        assert all[..i + 1] == all[..i] + [Deliver(event.0, event.1)];
        i := i + 1;
      }
      if aborted {
        return;
      }
      if cursor != previousCursor && (|page.events| == 0 || page.events[|page.events| - 1].1 != cursor) {
        WriteStreamChunk(Checkpoint(cursor), breaks[|page.events|]);
        assert all[..|page.events| + 1] == all[..|page.events|] + [Checkpoint(cursor)] == all;
        if aborted {
          return;
        }
      }
      assert all[..|all|] == all;
      page := ReadPublicEvents(sees, log, cursor, limit);
    }
  }

  lemma {:induction false} EventChunksAre(events: seq<(Event, nat)>)
    ensures |EventChunks(events)| == |events|
    ensures forall i :: 0 <= i < |events| ==> EventChunks(events)[i] == Deliver(events[i].0, events[i].1)
  {
    if events != [] { EventChunksAre(events[1..]); }
  }

  // ---- many connections ------------------------------------------------------------------------

  datatype State = State(log: seq<Event>, start: nat, client: Received, connection: Option<(nat, Page)>)

  datatype Step =
    | Append(event: Event)
    | Connect                  // with the last identifier received, or the start cursor
    | Turn(arrived: nat)       // how many chunks of the turn reach the client; fewer than all breaks it
    | Disconnect

  ghost predicate Enabled(s: State, a: Step) {
    match a
    case Turn(n) => s.connection.Some? && n <= |TurnChunks(s.connection.value.0, s.connection.value.1)|
    case Connect => s.connection.None? && s.client.last <= |s.log|
    case _ => true
  }

  ghost function Take(sees: Event -> bool, limit: nat, s: State, a: Step): State
    requires Enabled(s, a)
  {
    match a
    case Append(e) => s.(log := s.log + [e])
    case Connect => s.(connection := Some((s.client.last, ReadPublicEvents(sees, s.log, s.client.last, limit))))
    case Turn(n) =>
      var (cursor, page) := s.connection.value;
      var chunks := TurnChunks(cursor, page);
      s.(client := ReceiveAll(s.client, chunks[..n]),
         connection :=
           if n < |chunks| || page.scannedThrough > |s.log| then None
           else Some((page.scannedThrough, ReadPublicEvents(sees, s.log, page.scannedThrough, limit))))
    case Disconnect => s.(connection := None)
  }

  ghost function Stream(sees: Event -> bool, limit: nat): Machine<State, Step> {
    Machine((s, a) => Enabled(s, a), (s: State, a: Step) => if Enabled(s, a) then Take(sees, limit, s, a) else s)
  }

  /** A page was read at the client's last identifier, in a log that has only grown since. */
  ghost predicate PageHolds(sees: Event -> bool, s: State, cursor: nat, page: Page) {
    && cursor == s.client.last && cursor <= page.scannedThrough <= |s.log|
    && page.events == VisibleFrom(sees, s.log, cursor, page.scannedThrough)
  }

  ghost predicate Good(sees: Event -> bool, s: State) {
    && Exact(sees, s.log, s.start, s.client)
    && (s.connection.Some? ==> PageHolds(sees, s, s.connection.value.0, s.connection.value.1))
  }

  lemma {:induction false} VisibleGrows(sees: Event -> bool, log: seq<Event>, e: Event, from: nat, end: nat)
    requires from <= end <= |log|
    ensures VisibleFrom(sees, log + [e], from, end) == VisibleFrom(sees, log, from, end)
    decreases end
  {
    if end > from {
      assert (log + [e])[end - 1] == log[end - 1];
      VisibleGrows(sees, log, e, from, end - 1);
    }
  }

  lemma {:induction false} VisibleJoins(sees: Event -> bool, log: seq<Event>, from: nat, mid: nat, end: nat)
    requires from <= mid <= end <= |log|
    ensures VisibleFrom(sees, log, from, mid) + VisibleFrom(sees, log, mid, end) == VisibleFrom(sees, log, from, end)
    decreases end
  {
    if end > mid {
      VisibleJoins(sees, log, from, mid, end - 1);
    }
  }

  /** Positions of visible events rise, stay in range, and cut the range where they stand. */
  lemma {:induction false} VisibleAt(sees: Event -> bool, log: seq<Event>, from: nat, end: nat, i: nat)
    requires from <= end <= |log| && i < |VisibleFrom(sees, log, from, end)|
    ensures var v := VisibleFrom(sees, log, from, end);
      from < v[i].1 <= end && v[..i + 1] == VisibleFrom(sees, log, from, v[i].1)
    decreases end
  {
    var v := VisibleFrom(sees, log, from, end);
    var before := VisibleFrom(sees, log, from, end - 1);
    if |before| > i {
      VisibleAt(sees, log, from, end - 1, i);
      assert v[..i + 1] == before[..i + 1];
    } else {
      assert v[..i + 1] == v;
    }
  }

  /** However much of a turn arrives, the client is exact. */
  lemma TurnIsExact(sees: Event -> bool, s: State, cursor: nat, page: Page, n: nat)
    requires Good(sees, s) && PageHolds(sees, s, cursor, page) && n <= |TurnChunks(cursor, page)|
    ensures Exact(sees, s.log, s.start, ReceiveAll(s.client, TurnChunks(cursor, page)[..n]))
    ensures n == |TurnChunks(cursor, page)| ==>
      ReceiveAll(s.client, TurnChunks(cursor, page)).last == page.scannedThrough
  {
    hide VisibleFrom, EventChunks, Exact;
    var m := |page.events|;
    EventsArrive(s.client, cursor, page, if n < m then n else m);
    EventChunksAre(page.events);
    ChunksAre(cursor, page);
    ExactIs(sees, s.log, s.start, s.client);
    VisibleJoins(sees, s.log, s.start, cursor, page.scannedThrough);
    assert page.events[..m] == page.events;
    if n <= m {
      PartIsExact(sees, s, cursor, page, n);
    } else {
      var chunks := TurnChunks(cursor, page);
      assert chunks[..n][..n - 1] == chunks[..m] && chunks[..n] == chunks;
      AllIsExact(sees, s, cursor, page);
    }
    if n == |TurnChunks(cursor, page)| {
      assert TurnChunks(cursor, page)[..n] == TurnChunks(cursor, page);
      NothingSeen(sees, s, cursor, page);
    }
  }

  lemma ChunksAre(cursor: nat, page: Page)
    requires |EventChunks(page.events)| == |page.events|
    ensures var chunks, n := TurnChunks(cursor, page), |page.events|;
      if page.scannedThrough != cursor && (n == 0 || page.events[n - 1].1 != page.scannedThrough)
      then |chunks| == n + 1 && chunks[n] == Checkpoint(page.scannedThrough) else |chunks| == n
  {
    hide EventChunks;
  }

  lemma ExactIs(sees: Event -> bool, log: seq<Event>, start: nat, r: Received)
    requires Exact(sees, log, start, r)
    ensures start <= r.last <= |log| && r.events == VisibleFrom(sees, log, start, r.last)
  {
  }

  /** Some of the events, and nothing else. */
  lemma PartIsExact(sees: Event -> bool, s: State, cursor: nat, page: Page, n: nat)
    requires Good(sees, s) && PageHolds(sees, s, cursor, page) && n <= |page.events|
    ensures Exact(sees, s.log, s.start, Received(s.client.events + page.events[..n],
                                                 if n == 0 then s.client.last else page.events[n - 1].1))
  {
    hide VisibleFrom;
    if n == 0 {
      assert s.client.events + page.events[..0] == s.client.events;
    } else {
      VisibleAt(sees, s.log, cursor, page.scannedThrough, n - 1);
      VisibleJoins(sees, s.log, s.start, cursor, page.events[n - 1].1);
    }
  }

  /** All of the events, and the checkpoint behind them. */
  lemma AllIsExact(sees: Event -> bool, s: State, cursor: nat, page: Page)
    requires Good(sees, s) && PageHolds(sees, s, cursor, page)
    ensures Exact(sees, s.log, s.start, Received(s.client.events + page.events, page.scannedThrough))
  {
    hide VisibleFrom;
    VisibleJoins(sees, s.log, s.start, cursor, page.scannedThrough);
  }

  /** Without a checkpoint, the last event is where the page ends, or nothing was scanned. */
  lemma NothingSeen(sees: Event -> bool, s: State, cursor: nat, page: Page)
    requires PageHolds(sees, s, cursor, page)
    ensures page.scannedThrough == cursor ==> page.events == [] && s.client.last == cursor
  {
  }

  lemma {:induction false} EventsArrive(r: Received, cursor: nat, page: Page, n: nat)
    requires n <= |page.events|
    ensures |EventChunks(page.events)| == |page.events|
    ensures ReceiveAll(r, TurnChunks(cursor, page)[..n])
         == Received(r.events + page.events[..n], if n == 0 then r.last else page.events[n - 1].1)
    decreases n
  {
    EventChunksAre(page.events);
    var chunks := TurnChunks(cursor, page);
    if n == 0 {
      assert page.events[..0] == [] && r.events + [] == r.events;
    } else {
      EventsArrive(r, cursor, page, n - 1);
      assert chunks[..n][..n - 1] == chunks[..n - 1];
      assert chunks[..n][n - 1] == Deliver(page.events[n - 1].0, page.events[n - 1].1);
      assert page.events[..n] == page.events[..n - 1] + [page.events[n - 1]];
    }
  }

  lemma TakeKeeps(sees: Event -> bool, limit: nat, s: State, a: Step)
    requires Good(sees, s) && Enabled(s, a)
    ensures Good(sees, Take(sees, limit, s, a))
  {
    match a
    case Append(e) =>
      VisibleGrows(sees, s.log, e, s.start, s.client.last);
      if s.connection.Some? {
        VisibleGrows(sees, s.log, e, s.connection.value.0, s.connection.value.1.scannedThrough);
      }
    case Turn(n) =>
      var (cursor, page) := s.connection.value;
      TurnIsExact(sees, s, cursor, page, n);
      assert n == |TurnChunks(cursor, page)| ==> TurnChunks(cursor, page)[..n] == TurnChunks(cursor, page);
    case _ =>
  }

  /** Over any number of connections, breaks and appends, what the client has received is exactly what it may
      see of the log between its start and its last identifier: in order, with no gap and no duplicate, and
      hence a prefix of everything visible. */
  lemma StreamResumes(sees: Event -> bool, limit: nat, log: seq<Event>, start: nat, steps: seq<Step>)
    requires start <= |log|
    requires Legal(Stream(sees, limit), State(log, start, Received([], start), None), steps)
    ensures var s := After(Stream(sees, limit), State(log, start, Received([], start), None), steps);
      && Exact(sees, s.log, s.start, s.client)
      && s.client.events <= VisibleFrom(sees, s.log, s.start, |s.log|)
  {
    forall s: State, a: Step | Good(sees, s) && Stream(sees, limit).enabled(s, a)
      ensures Good(sees, Stream(sees, limit).next(s, a))
    {
      TakeKeeps(sees, limit, s, a);
    }
    var initial := State(log, start, Received([], start), None);
    RunKeeps(Stream(sees, limit), (s: State) => Good(sees, s), initial, steps);
    var s := After(Stream(sees, limit), initial, steps);
    VisibleJoins(sees, s.log, s.start, s.client.last, |s.log|);
  }

  // ---- catching up -----------------------------------------------------------------------------

  /** The open page was read just now, at the client's last identifier. */
  ghost predicate ReadsNow(sees: Event -> bool, limit: nat, s: State) {
    s.client.last <= |s.log| &&
    s.connection == Some((s.client.last, ReadPublicEvents(sees, s.log, s.client.last, limit)))
  }

  /** A turn that reaches the client whole. */
  ghost function FullTurn(s: State): Step
    requires s.connection.Some?
  {
    Turn(|TurnChunks(s.connection.value.0, s.connection.value.1)|)
  }

  ghost function FullTurns(sees: Event -> bool, limit: nat, s: State, m: nat): seq<Step>
    decreases m
  {
    if m == 0 || s.connection.None? then []
    else [FullTurn(s)] + FullTurns(sees, limit, Take(sees, limit, s, FullTurn(s)), m - 1)
  }

  lemma FullTurnReads(sees: Event -> bool, limit: nat, s: State)
    requires Good(sees, s) && ReadsNow(sees, limit, s)
    ensures var t := Take(sees, limit, s, FullTurn(s));
      && Good(sees, t) && ReadsNow(sees, limit, t) && t.log == s.log && t.start == s.start
      && t.client.last == Min(|s.log|, s.client.last + limit)
  {
    hide TurnChunks, VisibleFrom, ReceiveAll, Exact;
    var (cursor, page) := s.connection.value;
    var n := |TurnChunks(cursor, page)|;
    TakeKeeps(sees, limit, s, Turn(n));
    TurnIsExact(sees, s, cursor, page, n);
    assert TurnChunks(cursor, page)[..n] == TurnChunks(cursor, page);
  }

  /** A log that stands still is read page by page: `m` whole turns bring the client `m` pages on, and once
      they make up the backlog it has received everything it may see. */
  lemma {:induction false} CaughtUpAfter(sees: Event -> bool, limit: nat, s: State, m: nat)
    requires Good(sees, s) && ReadsNow(sees, limit, s)
    ensures var t := After(Stream(sees, limit), s, FullTurns(sees, limit, s, m));
      && Legal(Stream(sees, limit), s, FullTurns(sees, limit, s, m))
      && ReadsNow(sees, limit, t) && t.log == s.log && t.start == s.start
      && t.client.last == Min(|s.log|, s.client.last + m * limit)
      && (|s.log| <= s.client.last + m * limit ==> t.client.events == VisibleFrom(sees, s.log, s.start, |s.log|))
    decreases m
  {
    hide Good, Take, FullTurn, ReadPublicEvents;
    if |s.log| == s.client.last { AllReceived(sees, s); }
    if m > 0 {
      FullTurnIsEnabled(s);
      FullTurnReads(sees, limit, s);
      var t := Take(sees, limit, s, FullTurn(s));
      CaughtUpAfter(sees, limit, t, m - 1);
      var rest := FullTurns(sees, limit, t, m - 1);
      assert ([FullTurn(s)] + rest)[0] == FullTurn(s) && ([FullTurn(s)] + rest)[1..] == rest;
      OnePageMore(m, limit);
    }
  }

  lemma AllReceived(sees: Event -> bool, s: State)
    requires Good(sees, s) && |s.log| == s.client.last
    ensures s.client.events == VisibleFrom(sees, s.log, s.start, |s.log|)
  {
  }

  lemma FullTurnIsEnabled(s: State)
    requires s.connection.Some?
    ensures Enabled(s, FullTurn(s))
  {
  }

  lemma OnePageMore(m: nat, limit: nat)
    requires m > 0
    ensures m * limit == limit + (m - 1) * limit
  {
  }

  /** A connection reads at the client's last identifier, so a reconnected client catches up as well. */
  lemma ConnectReads(sees: Event -> bool, limit: nat, s: State)
    requires Good(sees, s) && Enabled(s, Connect)
    ensures Good(sees, Take(sees, limit, s, Connect)) && ReadsNow(sees, limit, Take(sees, limit, s, Connect))
  {
    TakeKeeps(sees, limit, s, Connect);
  }

  // ---- what a turn writes ----------------------------------------------------------------------

  ghost function PositionOf(c: Chunk): nat {
    match c
    case Deliver(_, position) => position
    case Checkpoint(position) => position
    case Heartbeat => 0
  }

  /** Nothing is written twice or out of order: the chunks of a turn move the client on, one after the other, to
      the end of what was scanned; and nothing is written when nothing was. */
  lemma TurnMovesOn(sees: Event -> bool, s: State, cursor: nat, page: Page)
    requires PageHolds(sees, s, cursor, page)
    ensures var chunks := TurnChunks(cursor, page);
      && (forall i :: 0 <= i < |chunks| ==> cursor < PositionOf(chunks[i]) <= page.scannedThrough)
      && (forall i, j :: 0 <= i < j < |chunks| ==> PositionOf(chunks[i]) < PositionOf(chunks[j]))
      && (if page.scannedThrough == cursor then chunks == []
          else chunks != [] && PositionOf(chunks[|chunks| - 1]) == page.scannedThrough)
  {
    hide VisibleFrom, EventChunks;
    EventChunksAre(page.events);
    EventsMoveOn(sees, s, cursor, page);
    WrittenInOrder(cursor, page);
  }

  lemma EventsMoveOn(sees: Event -> bool, s: State, cursor: nat, page: Page)
    requires PageHolds(sees, s, cursor, page)
    ensures forall i :: 0 <= i < |page.events| ==> cursor < page.events[i].1 <= page.scannedThrough
    ensures forall i, j :: 0 <= i < j < |page.events| ==> page.events[i].1 < page.events[j].1
  {
    hide VisibleFrom;
    forall i | 0 <= i < |page.events| ensures cursor < page.events[i].1 <= page.scannedThrough {
      VisibleAt(sees, s.log, cursor, page.scannedThrough, i);
    }
    forall i, j | 0 <= i < j < |page.events| ensures page.events[i].1 < page.events[j].1 {
      EventsRise(sees, s.log, cursor, page.scannedThrough, i, j);
    }
  }

  lemma WrittenInOrder(cursor: nat, page: Page)
    requires forall i :: 0 <= i < |page.events| ==> cursor < page.events[i].1 <= page.scannedThrough
    requires forall i, j :: 0 <= i < j < |page.events| ==> page.events[i].1 < page.events[j].1
    requires |EventChunks(page.events)| == |page.events|
    requires forall i :: 0 <= i < |page.events| ==>
      EventChunks(page.events)[i] == Deliver(page.events[i].0, page.events[i].1)
    requires cursor <= page.scannedThrough
    ensures var chunks := TurnChunks(cursor, page);
      && (forall i :: 0 <= i < |chunks| ==> cursor < PositionOf(chunks[i]) <= page.scannedThrough)
      && (forall i, j :: 0 <= i < j < |chunks| ==> PositionOf(chunks[i]) < PositionOf(chunks[j]))
      && (if page.scannedThrough == cursor then chunks == []
          else chunks != [] && PositionOf(chunks[|chunks| - 1]) == page.scannedThrough)
  {
    hide EventChunks, TurnChunks;
    ChunksAre(cursor, page);
    EventsFirst(cursor, page);
  }

  lemma EventsFirst(cursor: nat, page: Page)
    requires |EventChunks(page.events)| == |page.events|
    requires forall i :: 0 <= i < |page.events| ==>
      EventChunks(page.events)[i] == Deliver(page.events[i].0, page.events[i].1)
    ensures var chunks := TurnChunks(cursor, page);
      && |page.events| <= |chunks|
      && forall i :: 0 <= i < |page.events| ==> chunks[i] == Deliver(page.events[i].0, page.events[i].1)
  {
    hide EventChunks;
  }

  lemma EventsRise(sees: Event -> bool, log: seq<Event>, from: nat, end: nat, i: nat, j: nat)
    requires from <= end <= |log| && i < j < |VisibleFrom(sees, log, from, end)|
    ensures VisibleFrom(sees, log, from, end)[i].1 < VisibleFrom(sees, log, from, end)[j].1
    decreases end
  {
    var before := VisibleFrom(sees, log, from, end - 1);
    VisibleAt(sees, log, from, end - 1, i);
    if j < |before| { EventsRise(sees, log, from, end - 1, i, j); }
  }

  /** A page says that there is more exactly when entries were left unscanned. */
  lemma MoreExactly(sees: Event -> bool, log: seq<Event>, after: nat, limit: nat)
    requires after <= |log|
    ensures var page := ReadPublicEvents(sees, log, after, limit);
      && (page.hasMore <==> page.scannedThrough < |log|)
      && (page.scannedThrough < |log| ==> page.scannedThrough == after + limit)
  {
  }
}
