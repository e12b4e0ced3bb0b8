/** The two ends of the live socket: the server coroutine that serves one connection, and the
    browser hook that folds what it receives into a map and counts events per second. */
module LiveView {
  import opened Positions
  import opened Sequences
  import opened Broadcasting
  import opened Snapshots
  import opened Repository
  import S = Sessions

  const EPS_WINDOW_MS: int := 1000

  /** The server side of a socket: everything sent so far. */
  class Socket {
    var sent: seq<Frame>

    constructor ()
      ensures sent == []
    {
      sent := [];
    }

    method SendJson(frame: Frame)
      modifies this
      ensures sent == old(sent) + [frame]
    {
      sent := sent + [frame];
    }
  }

  lemma FramesOfOneMore(taken: seq<Position>, p: Position, rows: seq<Position>, tsMap: map<Tag, int>)
    requires tsMap == SnapshotTimestamps(rows)
    ensures LiveFrames(Filter(UpToDate(TableOf(rows)), taken + [p]))
            == LiveFrames(Filter(UpToDate(TableOf(rows)), taken))
               + if p.ts >= (if p.tag in tsMap then tsMap[p.tag] else 0) then [Live(p)] else []
  {
    TimestampsOfTable(rows);
    FilterOne(UpToDate(TableOf(rows)), taken, p);
    LiveFramesAppend(Filter(UpToDate(TableOf(rows)), taken), [p]);
    assert LiveFrames([p]) == [Live(p)];
  }

  class PositionsEndpoint {
    const db: Database
    const broadcast: Broadcast
    var active: int

    constructor (db: Database, broadcast: Broadcast)
      ensures this.db == db && this.broadcast == broadcast && active == 0
    {
      this.db, this.broadcast := db, broadcast;
      active := 0;
    }

    /** Subscribe, then read the snapshot, then send it. */
    method Connect(socket: Socket) returns (queue: ClientQueue, rows: seq<Position>, tsMap: map<Tag, int>)
      requires db.Valid() && TotalOrder(db.before) && broadcast.Valid()
      modifies this, broadcast, socket
      ensures broadcast.Valid() && broadcast.subscribers == old(broadcast.subscribers) + {queue}
      ensures fresh(queue) && queue.ops == [] && active == old(active) + 1
      ensures Lists(rows, db.current) && TableOf(rows) == db.current
      ensures socket.sent == old(socket.sent) + [Frame.Rows(rows)] && tsMap == SnapshotTimestamps(rows)
    {
      active := active + 1;
      queue := broadcast.Subscribe();
      rows := db.GetAllCurrentPositions();
      SnapshotRoundTrip(rows, db.current);
      socket.SendJson(Frame.Rows(rows));
      tsMap := BuildTimestamps(rows);
    }

    method BuildTimestamps(rows: seq<Position>) returns (tsMap: map<Tag, int>)
      ensures tsMap == SnapshotTimestamps(rows)
    {
      tsMap := map[];
      for i := 0 to |rows|
        invariant tsMap == SnapshotTimestamps(rows[..i])
      {
        tsMap := tsMap[rows[i].tag := rows[i].ts];
        assert rows[..i + 1][..i] == rows[..i];
      }
      assert rows[..|rows|] == rows;
    }

    /** Take one position from the queue; send it unless it is stale. */
    method ForwardOne(queue: ClientQueue, tsMap: map<Tag, int>, socket: Socket) returns (p: Position)
      requires queue.Valid() && queue.items != []
      modifies queue, socket
      ensures queue.Valid() && [p] + queue.items == old(queue.items)
      ensures socket.sent == old(socket.sent)
                             + if p.ts >= (if p.tag in tsMap then tsMap[p.tag] else 0) then [Live(p)] else []
    {
      p := queue.GetItem();
      if !Stale(p, tsMap) {
        socket.SendJson(Live(p));
      }
    }

    /** Forward one more, after `taken`. */
    method ForwardNext(queue: ClientQueue, ghost rows: seq<Position>, tsMap: map<Tag, int>, socket: Socket,
                       ghost before: seq<Frame>, ghost taken: seq<Position>)
      returns (p: Position)
      requires queue.Valid() && queue.items != [] && tsMap == SnapshotTimestamps(rows)
      requires socket.sent == before + LiveFrames(Filter(UpToDate(TableOf(rows)), taken))
      modifies queue, socket
      ensures queue.Valid() && (taken + [p]) + queue.items == taken + old(queue.items) && |queue.items| < |old(queue.items)|
      ensures socket.sent == before + LiveFrames(Filter(UpToDate(TableOf(rows)), taken + [p]))
    {
      p := ForwardOne(queue, tsMap, socket);
      FramesOfOneMore(taken, p, rows, tsMap);
      Reassociate(taken, [p], queue.items);
      Reassociate(before, LiveFrames(Filter(UpToDate(TableOf(rows)), taken)),
                  if p.ts >= (if p.tag in tsMap then tsMap[p.tag] else 0) then [Live(p)] else []);
    }

    /** Work through what is queued now: positions older than the snapshot are skipped, the others are
        sent in order. This is the session's dequeue move repeated until the queue is empty. */
    method StreamQueued(queue: ClientQueue, ghost rows: seq<Position>, tsMap: map<Tag, int>, socket: Socket)
      requires queue.Valid() && tsMap == SnapshotTimestamps(rows)
      modifies queue, socket
      ensures queue.Valid() && queue.items == []
      ensures socket.sent == old(socket.sent) + LiveFrames(Filter(UpToDate(TableOf(rows)), old(queue.items)))
    {
      ghost var all, before := queue.items, socket.sent;
      ghost var taken: seq<Position> := [];
      while queue.items != []
        invariant queue.Valid() && taken + queue.items == all
        invariant socket.sent == before + LiveFrames(Filter(UpToDate(TableOf(rows)), taken))
        decreases |queue.items|
      {
        var p := ForwardNext(queue, rows, tsMap, socket, before, taken);
        taken := taken + [p];
      }
      assert taken == all;
    }

    method Disconnect(queue: ClientQueue)
      requires broadcast.Valid()
      modifies this, broadcast
      ensures broadcast.Valid() && broadcast.subscribers == old(broadcast.subscribers) - {queue}
      ensures active == old(active) - 1
    {
      broadcast.Unsubscribe(queue);
      active := active - 1;
    }
  }

  /** The session after its dequeue move was repeated until the queue is empty. */
  ghost function DequeueAll(current: Table, c: S.Client): S.Client
    requires c.conn.Online? && c.conn.stage.Streaming?
    decreases if c.conn.Online? then |c.conn.queue.items| else 0
  {
    if c.conn.queue.items == [] then c else DequeueAll(current, S.After(current, c, S.Dequeue))
  }

  /** One dequeue move consumes the head and puts on the wire what the filter lets through. */
  lemma DequeueOne(current: Table, c: S.Client)
    requires S.Enabled(current, c, S.Dequeue)
    ensures var c', p := S.After(current, c, S.Dequeue), c.conn.queue.items[0];
            && c'.view == c.view && c'.conn.Online? && c'.conn.stage == c.conn.stage
            && [p] + c'.conn.queue.items == c.conn.queue.items
            && c'.conn.queue.taken == c.conn.queue.taken + [p]
            && c'.conn.wire == c.conn.wire + LiveFrames(Fresh([p], SnapshotTimestamps(c.conn.stage.rows)))
  {
    var p := c.conn.queue.items[0];
    assert [p] == [] + [p];
    FreshOne([], p, SnapshotTimestamps(c.conn.stage.rows));
  }

  /** The repeated move puts on the wire exactly what the streaming loop sends. */
  lemma {:induction false} DequeueAllStreams(current: Table, c: S.Client)
    requires c.conn.Online? && c.conn.stage.Streaming?
    ensures DequeueAll(current, c).conn.Online?
    ensures DequeueAll(current, c).view == c.view && DequeueAll(current, c).conn.stage == c.conn.stage
    ensures DequeueAll(current, c).conn.queue.items == []
    ensures DequeueAll(current, c).conn.queue.taken == c.conn.queue.taken + c.conn.queue.items
    ensures DequeueAll(current, c).conn.wire
            == c.conn.wire + LiveFrames(Fresh(c.conn.queue.items, SnapshotTimestamps(c.conn.stage.rows)))
    decreases if c.conn.Online? then |c.conn.queue.items| else 0
  {
    var items, m := c.conn.queue.items, SnapshotTimestamps(c.conn.stage.rows);
    if items == [] {
      assert c.conn.wire + LiveFrames(Fresh(items, m)) == c.conn.wire;
      assert c.conn.queue.taken + items == c.conn.queue.taken;
    } else {
      var next := S.After(current, c, S.Dequeue);
      DequeueOne(current, c);
      DequeueAllStreams(current, next);
      FreshAppend([items[0]], next.conn.queue.items, m);
      LiveFramesAppend(Fresh([items[0]], m), Fresh(next.conn.queue.items, m));
      Reassociate(c.conn.queue.taken, [items[0]], next.conn.queue.items);
      Reassociate(c.conn.wire, LiveFrames(Fresh([items[0]], m)), LiveFrames(Fresh(next.conn.queue.items, m)));
    }
  }

  lemma Reassociate<T>(a: seq<T>, b: seq<T>, c: seq<T>)
    ensures (a + b) + c == a + (b + c)
  {
  }

  function CountFrom(times: seq<int>, cutoff: int): nat {
    if times == [] then 0
    else CountFrom(times[..|times| - 1], cutoff) + if times[|times| - 1] >= cutoff then 1 else 0
  }

  ghost predicate Ascending(times: seq<int>) {
    forall i, j :: 0 <= i < j < |times| ==> times[i] <= times[j]
  }

  lemma {:induction false} CountIsCardinality(times: seq<int>, cutoff: int)
    ensures CountFrom(times, cutoff) == |set i | 0 <= i < |times| && times[i] >= cutoff|
  {
    var all := set i | 0 <= i < |times| && times[i] >= cutoff;
    if times == [] {
      assert all == {};
    } else {
      var n := |times| - 1;
      var before := times[..n];
      CountIsCardinality(before, cutoff);
      var some := set i | 0 <= i < |before| && before[i] >= cutoff;
      assert all == some + if times[n] >= cutoff then {n} else {};
      assert n !in some;
    }
  }

  lemma {:induction false} CountAppend(a: seq<int>, b: seq<int>, cutoff: int)
    ensures CountFrom(a + b, cutoff) == CountFrom(a, cutoff) + CountFrom(b, cutoff)
  {
    if b == [] {
      assert a + b == a;
    } else {
      assert (a + b)[..|a + b| - 1] == a + b[..|b| - 1];
      CountAppend(a, b[..|b| - 1], cutoff);
    }
  }

  lemma {:induction false} CountNone(times: seq<int>, cutoff: int)
    requires forall i :: 0 <= i < |times| ==> times[i] < cutoff
    ensures CountFrom(times, cutoff) == 0
  {
    if times != [] {
      CountNone(times[..|times| - 1], cutoff);
    }
  }

  lemma {:induction false} CountAll(times: seq<int>, cutoff: int)
    requires forall i :: 0 <= i < |times| ==> times[i] >= cutoff
    ensures CountFrom(times, cutoff) == |times|
  {
    if times != [] {
      CountAll(times[..|times| - 1], cutoff);
    }
  }

  lemma CountSplit(pruned: seq<int>, kept: seq<int>, cutoff: int)
    requires forall i :: 0 <= i < |pruned| ==> pruned[i] < cutoff
    requires forall i :: 0 <= i < |kept| ==> kept[i] >= cutoff
    ensures CountFrom(pruned + kept, cutoff) == |kept|
  {
    CountAppend(pruned, kept, cutoff);
    CountNone(pruned, cutoff);
    CountAll(kept, cutoff);
  }

  /** In an ascending history, dropping everything up to the first entry inside the window keeps
      the count and leaves exactly the entries inside the window. */
  lemma WindowOfHistory(recorded: seq<int>, n: nat, cutoff: int)
    requires Ascending(recorded) && n <= |recorded|
    requires forall i :: 0 <= i < n ==> recorded[i] < cutoff
    requires n < |recorded| ==> recorded[n] >= cutoff
    ensures CountFrom(recorded, cutoff) == |recorded| - n
  {
    forall i | n <= i < |recorded| ensures recorded[i] >= cutoff {
      assert i == n || recorded[n] <= recorded[i];
    }
    assert recorded == recorded[..n] + recorded[n..];
    CountSplit(recorded[..n], recorded[n..], cutoff);
  }

  /** What is kept is the end of the full history; what was pruned is out of every window to come. */
  ghost predicate KeepsWindow(recorded: seq<int>, kept: seq<int>, clock: int) {
    && |kept| <= |recorded|
    && recorded[|recorded| - |kept|..] == kept
    && Ascending(recorded)
    && (forall i :: 0 <= i < |recorded| ==> recorded[i] <= clock)
    && (forall i :: 0 <= i < |recorded| - |kept| ==> recorded[i] < clock - EPS_WINDOW_MS)
  }

  lemma RecordingKeepsWindow(recorded: seq<int>, kept: seq<int>, clock: int, now: int)
    requires KeepsWindow(recorded, kept, clock) && now >= clock
    ensures KeepsWindow(recorded + [now], kept + [now], now) && KeepsWindow(recorded, kept, now)
  {
    var pruned := |recorded| - |kept|;
    assert (recorded + [now])[pruned..] == recorded[pruned..] + [now];
  }

  /** Pruning up to the first entry inside the window loses none of the events it counts. */
  lemma PruningKeepsWindow(recorded: seq<int>, kept: seq<int>, clock: int, now: int, n: nat)
    requires KeepsWindow(recorded, kept, clock) && now >= clock && n <= |kept|
    requires forall i :: 0 <= i < n ==> kept[i] < now - EPS_WINDOW_MS
    requires n < |kept| ==> kept[n] >= now - EPS_WINDOW_MS
    ensures KeepsWindow(recorded, kept[n..], now)
    ensures CountFrom(recorded, now - EPS_WINDOW_MS) == |kept[n..]|
  {
    var pruned := |recorded| - |kept|;
    assert forall i :: 0 <= i < |kept| ==> recorded[pruned + i] == kept[i];
    assert recorded[pruned + n..] == kept[n..];
    forall i | pruned <= i < pruned + n ensures recorded[i] < now - EPS_WINDOW_MS {
      assert recorded[pruned + (i - pruned)] == kept[i - pruned];
    }
    WindowOfHistory(recorded, pruned + n, now - EPS_WINDOW_MS);
  }

  /** The index of the first entry inside the window, or the length when there is none. */
  method FirstFrom(times: seq<int>, cutoff: int) returns (n: nat)
    ensures n <= |times| && (n < |times| ==> times[n] >= cutoff)
    ensures forall i :: 0 <= i < n ==> times[i] < cutoff
  {
    n := 0;
    while n < |times| && times[n] < cutoff
      invariant n <= |times|
      invariant forall i :: 0 <= i < n ==> times[i] < cutoff
    {
      n := n + 1;
    }
  }

  datatype WsState = Connecting | Connected | Reconnecting | Disconnected

  class PositionsHook {
    var positions: Table
    /** What the map holds under no tag at all. */
    var untagged: Option<seq<Position>>
    var connectionState: WsState
    var retries: nat
    var gotSnapshot: bool
    var mounted: bool
    var eventTimestamps: seq<int>
    var eventsPerSec: nat
    var lastEventTs: Option<int>
    /** When every event ever was recorded, and the latest clock reading. */
    ghost var recorded: seq<int>
    ghost var clock: int

    constructor (now: int)
      ensures Valid() && mounted && positions == map[] && untagged.None? && recorded == [] && clock == now
    {
      positions, connectionState, retries, gotSnapshot, mounted := map[], Disconnected, 0, false, true;
      eventTimestamps, eventsPerSec, lastEventTs, untagged := [], 0, None, None;
      recorded, clock := [], now;
    }

    ghost predicate Valid()
      reads this
    {
      KeepsWindow(recorded, eventTimestamps, clock)
    }

    /** A new socket waits for its snapshot; the map on screen stays. */
    method Connect()
      modifies this`connectionState, this`gotSnapshot
      ensures mounted ==> !gotSnapshot && connectionState == if retries > 0 then Reconnecting else Connecting
      ensures !mounted ==> gotSnapshot == old(gotSnapshot) && connectionState == old(connectionState)
    {
      if !mounted { return; }
      connectionState := if retries > 0 then Reconnecting else Connecting;
      gotSnapshot := false;
    }

    method OnOpen()
      modifies this`connectionState, this`retries
      ensures mounted ==> retries == 0 && connectionState == Connected
      ensures !mounted ==> retries == old(retries) && connectionState == old(connectionState)
    {
      if !mounted { return; }
      retries := 0;
      connectionState := Connected;
    }

    method OnClose()
      modifies this`connectionState, this`retries
      ensures mounted ==> retries == old(retries) + 1 && connectionState == Disconnected
      ensures !mounted ==> retries == old(retries) && connectionState == old(connectionState)
    {
      if !mounted { return; }
      connectionState := Disconnected;
      retries := retries + 1;
    }

    method BuildMap(rows: seq<Position>) returns (table: Table)
      ensures table == TableOf(rows)
    {
      table := map[];
      for i := 0 to |rows|
        invariant table == TableOf(rows[..i])
      {
        table := table[rows[i].tag := rows[i]];
        assert rows[..i + 1][..i] == rows[..i];
      }
      assert rows[..|rows|] == rows;
    }

    /** The map and the snapshot flag change as the session's receive move says. A second snapshot on
        one connection, which no session sends, would be taken for a live position without a tag or
        a timestamp. */
    method OnMessage(frame: Frame, now: int)
      requires Valid() && now >= clock
      modifies this
      ensures Valid() && mounted == old(mounted)
      ensures mounted && !(old(gotSnapshot) && frame.Rows?) ==>
                && (positions, gotSnapshot) == S.Show(old(positions), old(gotSnapshot), frame)
                && untagged == if frame.Rows? then None else old(untagged)
      ensures mounted && old(gotSnapshot) && frame.Rows? ==>
                positions == old(positions) && gotSnapshot && untagged == Some(frame.rows)
      ensures !mounted ==> positions == old(positions) && gotSnapshot == old(gotSnapshot) && untagged == old(untagged)
      ensures recorded == old(recorded) + if mounted && (frame.Live? || old(gotSnapshot)) then [now] else []
      ensures lastEventTs == if mounted && frame.Live? then Some(frame.p.ts)
                             else if mounted && old(gotSnapshot) then None else old(lastEventTs)
    {
      RecordingKeepsWindow(recorded, eventTimestamps, clock, now);
      clock := now;
      if !mounted { return; }
      match frame
      case Rows(rows) =>
        if !gotSnapshot {
          gotSnapshot := true;
          positions := BuildMap(rows);
          untagged := None;
        } else {
          RecordEvent(None, now);
          untagged := Some(rows);
        }
      case Live(p) =>
        RecordEvent(Some(p.ts), now);
        if !(p.tag in positions && positions[p.tag].ts > p.ts) {
          positions := positions[p.tag := p];
        }
    }

    method RecordEvent(eventTsMs: Option<int>, now: int)
      requires Valid() && now >= clock
      modifies this`eventTimestamps, this`lastEventTs, this`recorded, this`clock
      ensures Valid() && clock == now
      ensures recorded == old(recorded) + [now] && eventTimestamps == old(eventTimestamps) + [now]
      ensures lastEventTs == eventTsMs
    {
      RecordingKeepsWindow(recorded, eventTimestamps, clock, now);
      eventTimestamps := eventTimestamps + [now];
      lastEventTs := eventTsMs;
      recorded := recorded + [now];
      clock := now;
    }

    /** However much was pruned before, an update reports exactly how many of all the events ever
        recorded lie within the window. */
    method UpdateEps(now: int)
      requires Valid() && now >= clock
      modifies this`eventTimestamps, this`eventsPerSec, this`clock
      ensures Valid() && clock == now
      ensures eventsPerSec == |set i | 0 <= i < |recorded| && recorded[i] >= now - 1000|
    {
      var cutoff := now - EPS_WINDOW_MS;
      var firstValid := FirstFrom(eventTimestamps, cutoff);
      PruningKeepsWindow(recorded, eventTimestamps, clock, now, firstValid);
      CountIsCardinality(recorded, cutoff);
      eventTimestamps := eventTimestamps[firstValid..];
      eventsPerSec := |eventTimestamps|;
      clock := now;
    }
  }
}
