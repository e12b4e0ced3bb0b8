/** One browser and, while it is connected, the server coroutine serving its socket: accept,
    subscribe, read the snapshot on another thread, send it, then stream the queue. The socket
    delivers in order and may close at any time, losing what it still carries. */
module Sessions {
  import opened Positions
  import opened Sequences
  import opened Broadcasting
  import opened Snapshots

  datatype Stage =
    | Accepted
    | Subscribed
    | Snapshotted(rows: seq<Position>)
    | Streaming(rows: seq<Position>)

  /** `wire` is what the socket still carries, `shown` what the browser received from it. */
  datatype Conn =
    | Offline
    | Online(stage: Stage, queue: Queue, wire: seq<Frame>, shown: seq<Frame>, gotSnapshot: bool)

  datatype Client = Client(view: Table, conn: Conn)

  /** What the rest of the system looks like to a session: the committed event log, the table
      of current positions, and everything ever published. */
  datatype World = World(log: seq<Position>, current: Table, published: seq<Position>)

  ghost predicate WorldInv(w: World) {
    && w.current == Fold(map[], w.log)
    && forall p :: p in w.published ==> p in w.log
  }

  datatype Move = Open | Subscribe | ReadSnapshot(rows: seq<Position>) | SendSnapshot | Dequeue | Receive | Close

  predicate HasRows(c: Client) {
    c.conn.Online? && (c.conn.stage.Snapshotted? || c.conn.stage.Streaming?)
  }

  function Rows(c: Client): seq<Position>
    requires HasRows(c)
  {
    c.conn.stage.rows
  }

  function SnapshotTable(c: Client): Table
    requires HasRows(c)
  {
    TableOf(Rows(c))
  }

  /** What the stale filter lets through of the positions taken from the queue so far. */
  function Sent(c: Client): seq<Position>
    requires HasRows(c)
  {
    Fresh(c.conn.queue.taken, SnapshotTimestamps(Rows(c)))
  }

  /** The browser's reaction to one frame: the first snapshot of a connection replaces the map,
      a live position goes through the browser's own recency guard. */
  function Show(view: Table, gotSnapshot: bool, frame: Frame): (Table, bool)
    requires !(gotSnapshot && frame.Rows?)
  {
    match frame
    case Rows(rows) => (TableOf(rows), true)
    case Live(p) => (Upsert(view, p), gotSnapshot)
  }

  ghost predicate Enabled(current: Table, c: Client, move: Move) {
    match move
    case Open => c.conn.Offline?
    case Subscribe => c.conn.Online? && c.conn.stage.Accepted?
    case ReadSnapshot(rows) => c.conn.Online? && c.conn.stage.Subscribed? && Lists(rows, current)
    case SendSnapshot => c.conn.Online? && c.conn.stage.Snapshotted?
    case Dequeue => c.conn.Online? && c.conn.stage.Streaming? && c.conn.queue.items != []
    case Receive => c.conn.Online? && c.conn.wire != [] && !(c.conn.gotSnapshot && c.conn.wire[0].Rows?)
    case Close => c.conn.Online?
  }

  ghost function After(current: Table, c: Client, move: Move): Client
    requires Enabled(current, c, move)
  {
    match move
    case Open => c.(conn := Online(Accepted, EMPTY_QUEUE, [], [], false))
    case Subscribe => c.(conn := c.conn.(stage := Subscribed))
    case ReadSnapshot(rows) => c.(conn := c.conn.(stage := Snapshotted(rows)))
    case SendSnapshot =>
      var rows := c.conn.stage.rows;
      c.(conn := c.conn.(stage := Streaming(rows), wire := c.conn.wire + [Frame.Rows(rows)]))
    case Dequeue =>
      var p := c.conn.queue.items[0];
      var wire := if Stale(p, SnapshotTimestamps(c.conn.stage.rows)) then c.conn.wire else c.conn.wire + [Live(p)];
      c.(conn := c.conn.(queue := Take(c.conn.queue), wire := wire))
    case Receive =>
      var frame := c.conn.wire[0];
      var (view, got) := Show(c.view, c.conn.gotSnapshot, frame);
      Client(view, c.conn.(wire := c.conn.wire[1..], shown := c.conn.shown + [frame], gotSnapshot := got))
    case Close => c.(conn := Offline)
  }

  /** A publication reaches every subscribed session's queue, unless that queue is full. */
  function Offered(maxsize: int, c: Client, p: Position): Client {
    if c.conn.Offline? || c.conn.stage.Accepted? then c
    else c.(conn := c.conn.(queue := Offer(maxsize, c.conn.queue, p)))
  }

  // The session invariant, in five independent parts.

  /** Queue, wire and shown frames together are the snapshot followed by what was published. */
  ghost predicate Plumbing(maxsize: int, c: Client) {
    c.conn.Online? ==>
      && Conserved(maxsize, c.conn.queue)
      && (c.conn.stage.Accepted? ==> c.conn.queue == EMPTY_QUEUE)
      && (!c.conn.stage.Streaming? ==> c.conn.wire == [] && c.conn.shown == [] && !c.conn.gotSnapshot && c.conn.queue.taken == [])
      && (c.conn.stage.Streaming? ==>
            && c.conn.shown + c.conn.wire == [Frame.Rows(Rows(c))] + LiveFrames(Sent(c))
            && c.conn.gotSnapshot == (c.conn.shown != []))
  }

  /** Once the snapshot is shown, the map is the fold of the live positions received since. */
  ghost predicate ViewMatches(c: Client) {
    HasRows(c) && c.conn.shown != [] ==>
      && |c.conn.shown| - 1 <= |Sent(c)|
      && c.view == Fold(SnapshotTable(c), Sent(c)[..|c.conn.shown| - 1])
  }

  /** Nothing shown or about to be shown is ahead of the database, and a snapshot that is yet
      to be shown is not behind what is on screen. */
  ghost predicate NeverAhead(w: World, c: Client) {
    && Behind(c.view, w.current) && DrawnFrom(c.view, w.log)
    && (c.conn.Online? ==> forall p :: p in c.conn.queue.offered ==> p in w.log)
    && (HasRows(c) ==>
          && Behind(SnapshotTable(c), w.current) && DrawnFrom(SnapshotTable(c), w.log)
          && (c.conn.shown == [] ==> Behind(c.view, SnapshotTable(c))))
  }

  predicate Covered(t: Table, p: Position) {
    p.tag in t && p.ts <= t[p.tag].ts
  }

  /** No gap between snapshot and stream: a committed and published record is in the snapshot
      or was offered to this session's queue. */
  ghost predicate NoGap(w: World, c: Client) {
    HasRows(c) ==>
      forall p :: p in w.log && p in w.published ==> Covered(SnapshotTable(c), p) || p in c.conn.queue.offered
  }

  /** What was offered to the queue is the latest of what was published. */
  ghost predicate Tapped(w: World, c: Client) {
    c.conn.Online? ==>
      |c.conn.queue.offered| <= |w.published| && c.conn.queue.offered == w.published[|w.published| - |c.conn.queue.offered|..]
  }

  ghost predicate SessionInv(maxsize: int, w: World, c: Client) {
    Plumbing(maxsize, c) && ViewMatches(c) && NeverAhead(w, c) && NoGap(w, c) && Tapped(w, c)
  }

  lemma LogCovered(w: World, p: Position)
    requires WorldInv(w) && p in w.log
    ensures Covered(w.current, p)
  {
    FoldMax(map[], w.log, p.tag);
  }

  // Moves of the session itself.

  /** The first frame a browser receives is the snapshot, and the only snapshot. */
  lemma NextFrame(maxsize: int, c: Client)
    requires Plumbing(maxsize, c) && c.conn.Online? && c.conn.wire != []
    ensures c.conn.stage.Streaming?
    ensures c.conn.shown == [] ==> c.conn.wire[0] == Frame.Rows(Rows(c)) && !c.conn.gotSnapshot
    ensures c.conn.shown != [] ==> |c.conn.shown| <= |Sent(c)| && c.conn.wire[0] == Live(Sent(c)[|c.conn.shown| - 1])
  {
    var n := |c.conn.shown|;
    assert c.conn.wire[0] == (c.conn.shown + c.conn.wire)[n];
    assert |c.conn.shown + c.conn.wire| == 1 + |Sent(c)|;
  }

  /** And no later one is older than the snapshot's row of its tag. */
  lemma NextFrameIsUpToDate(maxsize: int, c: Client)
    requires Plumbing(maxsize, c) && c.conn.Online? && c.conn.wire != [] && c.conn.shown != []
    ensures c.conn.wire[0].Live?
    ensures var p, snapshot := c.conn.wire[0].p, SnapshotTable(c); p.ts >= if p.tag in snapshot then snapshot[p.tag].ts else 0
  {
    NextFrame(maxsize, c);
    FreshIsUpToDate(Rows(c), c.conn.queue.taken);
    FilterMembers(UpToDate(SnapshotTable(c)), c.conn.queue.taken);
    assert c.conn.wire[0].p in Sent(c);
  }

  lemma MoveKeepsPlumbing(maxsize: int, current: Table, c: Client, move: Move)
    requires Plumbing(maxsize, c) && Enabled(current, c, move)
    ensures Plumbing(maxsize, After(current, c, move))
  {
    var c' := After(current, c, move);
    match move
    case Open => EmptySubsequence<Position>([]); assert EMPTY_QUEUE.Accepted() == [];
    case Dequeue => DequeueKeepsPlumbing(maxsize, current, c);
    case SendSnapshot => assert Sent(c') == [] && LiveFrames(Sent(c')) == [];
    case Receive =>
      NextFrame(maxsize, c);
      assert c'.conn.shown + c'.conn.wire == c.conn.shown + c.conn.wire;
    case _ =>
  }

  lemma DequeueKeepsPlumbing(maxsize: int, current: Table, c: Client)
    requires Plumbing(maxsize, c) && Enabled(current, c, Dequeue)
    ensures Plumbing(maxsize, After(current, c, Dequeue))
    ensures Sent(c) <= Sent(After(current, c, Dequeue))
  {
    var c' := After(current, c, Dequeue);
    var p, m := c.conn.queue.items[0], SnapshotTimestamps(Rows(c));
    ApplyConserves(maxsize, c.conn.queue, Get);
    FreshOne(c.conn.queue.taken, p, m);
    if !Stale(p, m) {
      assert LiveFrames(Sent(c) + [p]) == LiveFrames(Sent(c)) + [Live(p)];
      assert c'.conn.shown + c'.conn.wire == (c.conn.shown + c.conn.wire) + [Live(p)];
      assert [Frame.Rows(Rows(c))] + (LiveFrames(Sent(c)) + [Live(p)]) == ([Frame.Rows(Rows(c))] + LiveFrames(Sent(c))) + [Live(p)];
    }
  }

  lemma ReceiveKeepsViewMatches(maxsize: int, current: Table, c: Client)
    requires Plumbing(maxsize, c) && ViewMatches(c) && Enabled(current, c, Receive)
    ensures ViewMatches(After(current, c, Receive))
  {
    var n := |c.conn.shown|;
    NextFrame(maxsize, c);
    if n > 0 {
      assert Sent(c)[..n] == Sent(c)[..n - 1] + [Sent(c)[n - 1]];
      FoldOne(SnapshotTable(c), Sent(c)[..n - 1], Sent(c)[n - 1]);
    }
  }

  lemma DequeueKeepsViewMatches(maxsize: int, current: Table, c: Client)
    requires Plumbing(maxsize, c) && ViewMatches(c) && Enabled(current, c, Dequeue)
    ensures ViewMatches(After(current, c, Dequeue))
  {
    DequeueKeepsPlumbing(maxsize, current, c);
    if c.conn.shown != [] {
      var n := |c.conn.shown| - 1;
      assert Sent(c)[..n] == Sent(After(current, c, Dequeue))[..n];
    }
  }

  lemma MoveKeepsViewMatches(maxsize: int, current: Table, c: Client, move: Move)
    requires Plumbing(maxsize, c) && ViewMatches(c) && Enabled(current, c, move)
    ensures ViewMatches(After(current, c, move))
  {
    match move
    case Receive => ReceiveKeepsViewMatches(maxsize, current, c);
    case Dequeue => DequeueKeepsViewMatches(maxsize, current, c);
    case _ =>
  }

  lemma MoveKeepsNeverAhead(maxsize: int, w: World, c: Client, move: Move)
    requires WorldInv(w) && Plumbing(maxsize, c) && NeverAhead(w, c) && Enabled(w.current, c, move)
    ensures NeverAhead(w, After(w.current, c, move))
    ensures Behind(c.view, After(w.current, c, move).view)
  {
    match move
    case ReadSnapshot(rows) =>
      SnapshotRoundTrip(rows, w.current);
      FoldDrawn(map[], w.log, w.log);
    case Receive => ReceiveKeepsNeverAhead(maxsize, w, c);
    case _ =>
  }

  lemma ReceiveKeepsNeverAhead(maxsize: int, w: World, c: Client)
    requires WorldInv(w) && Plumbing(maxsize, c) && NeverAhead(w, c) && Enabled(w.current, c, Receive)
    ensures NeverAhead(w, After(w.current, c, Receive))
    ensures Behind(c.view, After(w.current, c, Receive).view)
  {
    var n := |c.conn.shown|;
    NextFrame(maxsize, c);
    if n > 0 {
      var p := Sent(c)[n - 1];
      FreshMembers(c.conn.queue.taken, SnapshotTimestamps(Rows(c)));
      TakenWasOffered(maxsize, c, p);
      LogCovered(w, p);
    }
  }

  lemma TakenWasOffered(maxsize: int, c: Client, p: Position)
    requires c.conn.Online? && Plumbing(maxsize, c) && p in c.conn.queue.taken
    ensures p in c.conn.queue.offered
  {
    AcceptedWasOffered(maxsize, c, p);
  }

  lemma AcceptedWasOffered(maxsize: int, c: Client, p: Position)
    requires c.conn.Online? && Plumbing(maxsize, c) && p in c.conn.queue.Accepted()
    ensures p in c.conn.queue.offered
  {
    var ix: seq<nat> :| Embeds(ix, c.conn.queue.Accepted(), c.conn.queue.offered);
    var k :| 0 <= k < |ix| && c.conn.queue.Accepted()[k] == p;
    assert c.conn.queue.offered[ix[k]] == p;
  }

  lemma MoveKeepsNoGap(w: World, c: Client, move: Move)
    requires WorldInv(w) && NoGap(w, c) && Enabled(w.current, c, move)
    ensures NoGap(w, After(w.current, c, move))
  {
    if move.ReadSnapshot? {
      SnapshotRoundTrip(move.rows, w.current);
      forall p | p in w.log ensures Covered(w.current, p) {
        LogCovered(w, p);
      }
    }
  }

  lemma MoveKeepsSession(maxsize: int, w: World, c: Client, move: Move)
    requires WorldInv(w) && SessionInv(maxsize, w, c) && Enabled(w.current, c, move)
    ensures SessionInv(maxsize, w, After(w.current, c, move))
    ensures Behind(c.view, After(w.current, c, move).view)
  {
    MoveKeepsPlumbing(maxsize, w.current, c, move);
    MoveKeepsViewMatches(maxsize, w.current, c, move);
    MoveKeepsNeverAhead(maxsize, w, c, move);
    MoveKeepsNoGap(w, c, move);
  }

  /** What was put on the wire behind the snapshot: of the positions taken from the queue those, in
      order, that are at least as new as the snapshot's row of their tag, or not negative if it has none. */
  lemma WireIsUpToDate(maxsize: int, c: Client)
    requires Plumbing(maxsize, c) && c.conn.Online? && c.conn.stage.Streaming?
    ensures c.conn.shown + c.conn.wire
            == [Frame.Rows(Rows(c))] + LiveFrames(Filter(UpToDate(SnapshotTable(c)), c.conn.queue.taken))
  {
    FreshIsUpToDate(Rows(c), c.conn.queue.taken);
  }

  // Moves of the rest of the system.

  function Committed(w: World, p: Position): World {
    w.(log := w.log + [p], current := Upsert(w.current, p))
  }

  lemma CommitKeepsWorld(w: World, p: Position)
    requires WorldInv(w)
    ensures WorldInv(Committed(w, p)) && Behind(w.current, Committed(w, p).current)
  {
    FoldOne(map[], w.log, p);
  }

  lemma CommitKeepsSession(maxsize: int, w: World, c: Client, p: Position)
    requires WorldInv(w) && SessionInv(maxsize, w, c)
    ensures SessionInv(maxsize, Committed(w, p), c)
  {
    CommitKeepsWorld(w, p);
  }

  lemma PublishKeepsTapped(maxsize: int, w: World, c: Client, p: Position)
    requires Plumbing(maxsize, c) && Tapped(w, c)
    ensures Tapped(w.(published := w.published + [p]), Offered(maxsize, c, p))
  {
  }

  lemma PublishKeepsSession(maxsize: int, w: World, c: Client, p: Position)
    requires WorldInv(w) && SessionInv(maxsize, w, c) && p in w.log
    ensures SessionInv(maxsize, w.(published := w.published + [p]), Offered(maxsize, c, p))
  {
    if c.conn.Online? {
      ApplyConserves(maxsize, c.conn.queue, Put(p));
      PublishKeepsTapped(maxsize, w, c, p);
    }
  }

  // What the invariant says of a session that has nothing left to deliver.

  /** Streaming, with an empty queue and an empty wire. */
  predicate Drained(c: Client) {
    c.conn.Online? && c.conn.stage.Streaming? && c.conn.queue.items == [] && c.conn.wire == []
  }

  /** Nothing offered to this connection's queue was dropped. */
  predicate NoDrops(c: Client)
    requires c.conn.Online?
  {
    |c.conn.queue.offered| == |c.conn.queue.Accepted()|
  }

  lemma DrainedView(maxsize: int, w: World, c: Client)
    requires SessionInv(maxsize, w, c) && Drained(c)
    ensures c.conn.queue.Accepted() == c.conn.queue.taken
    ensures c.view == Fold(SnapshotTable(c), Sent(c))
  {
    var n := |c.conn.shown|;
    assert c.conn.shown == c.conn.shown + c.conn.wire;
    assert n == 1 + |Sent(c)|;
    assert Sent(c)[..n - 1] == Sent(c);
    assert c.conn.queue.taken + [] == c.conn.queue.taken;
  }

  /** With drops: a drained browser shows the fold of the accepted publications over the
      snapshot, filter or not, so for each tag exactly the newest of those records. It is never
      ahead of the database, and it has caught up on a tag exactly when the snapshot or one
      accepted publication carries the database's timestamp. */
  lemma DrainedUnderDrops(maxsize: int, w: World, c: Client, tag: Tag)
    requires WorldInv(w) && SessionInv(maxsize, w, c) && Drained(c)
    requires NoTagOnlyNegative(SnapshotTable(c), c.conn.queue.Accepted())
    ensures c.view == Fold(SnapshotTable(c), c.conn.queue.Accepted())
    ensures tag in c.view ==> tag in w.current && c.view[tag].ts <= w.current[tag].ts
    ensures tag in w.current ==>
              ((tag in c.view && c.view[tag].ts == w.current[tag].ts)
               <==> (tag in SnapshotTable(c) && SnapshotTable(c)[tag].ts == w.current[tag].ts)
                    || exists p :: p in c.conn.queue.Accepted() && p.tag == tag && p.ts == w.current[tag].ts)
  {
    DrainedView(maxsize, w, c);
    FilterInvisibleIff(Rows(c), c.conn.queue.taken);
    if tag in w.current {
      FoldReaches(SnapshotTable(c), c.conn.queue.taken, tag, w.current[tag].ts);
    }
  }

  /** The server's filter hides a tag's newest record only if it is unknown and negative. */
  ghost predicate NoHiddenTag(w: World, c: Client)
    requires HasRows(c)
  {
    forall k :: k in w.current ==> k in SnapshotTable(c) || w.current[k].ts >= 0
  }

  lemma CurrentIsLogged(w: World, tag: Tag)
    requires WorldInv(w) && tag in w.current
    ensures w.current[tag] in w.log && w.current[tag].tag == tag
  {
    FoldMax(map[], w.log, tag);
  }

  /** A logged position that is neither in the snapshot nor hidden by the filter was sent. */
  lemma LoggedWasSent(maxsize: int, w: World, c: Client, p: Position)
    requires SessionInv(maxsize, w, c) && Drained(c) && NoDrops(c) && p in w.log && p in w.published
    requires !Covered(SnapshotTable(c), p) && (p.tag in SnapshotTable(c) || p.ts >= 0)
    ensures p in Sent(c)
  {
    assert c.conn.queue.taken + [] == c.conn.queue.taken;
    SubsequenceLength(c.conn.queue.Accepted(), c.conn.queue.offered);
    FreshIsUpToDate(Rows(c), c.conn.queue.taken);
    FilterMembers(UpToDate(SnapshotTable(c)), c.conn.queue.taken);
  }

  lemma SentIsShown(c: Client, p: Position)
    requires HasRows(c) && c.view == Fold(SnapshotTable(c), Sent(c)) && (Covered(SnapshotTable(c), p) || p in Sent(c))
    ensures Covered(c.view, p)
  {
    FoldMax(SnapshotTable(c), Sent(c), p.tag);
  }

  lemma CaughtUp(maxsize: int, w: World, c: Client, tag: Tag)
    requires WorldInv(w) && SessionInv(maxsize, w, c) && Drained(c) && NoDrops(c)
    requires forall p :: p in w.log ==> p in w.published
    requires tag in w.current && (tag in SnapshotTable(c) || w.current[tag].ts >= 0)
    ensures tag in c.view && c.view[tag].ts == w.current[tag].ts
  {
    DrainedView(maxsize, w, c);
    CurrentIsLogged(w, tag);
    if !Covered(SnapshotTable(c), w.current[tag]) {
      LoggedWasSent(maxsize, w, c, w.current[tag]);
    }
    SentIsShown(c, w.current[tag]);
  }

  lemma HiddenTagStaysHidden(maxsize: int, w: World, c: Client, tag: Tag)
    requires WorldInv(w) && SessionInv(maxsize, w, c) && Drained(c)
    requires tag in w.current && tag !in SnapshotTable(c) && w.current[tag].ts < 0
    ensures tag !in c.view
  {
    DrainedView(maxsize, w, c);
    var m := SnapshotTimestamps(Rows(c));
    TimestampsOfTable(Rows(c));
    FreshMembers(c.conn.queue.taken, m);
    FoldMax(SnapshotTable(c), Sent(c), tag);
  }

  /** Convergence, exactly: a drained browser that lost nothing shows the database's tags and
      timestamps if and only if no tag unknown to its snapshot has a negative newest timestamp. */
  lemma DrainedConvergesIff(maxsize: int, w: World, c: Client)
    requires WorldInv(w) && SessionInv(maxsize, w, c) && Drained(c) && NoDrops(c)
    requires forall p :: p in w.log ==> p in w.published
    ensures SameTimes(c.view, w.current) <==> NoHiddenTag(w, c)
  {
    if NoHiddenTag(w, c) {
      forall k | k in w.current ensures k in c.view && c.view[k].ts == w.current[k].ts {
        CaughtUp(maxsize, w, c, k);
      }
      assert c.view.Keys == w.current.Keys;
    } else {
      var k :| k in w.current && k !in SnapshotTable(c) && w.current[k].ts < 0;
      HiddenTagStaysHidden(maxsize, w, c, k);
      assert k in w.current.Keys && k !in c.view.Keys;
    }
  }
}
