/** The whole live view: broker, handlers, database, broadcast queues, sockets and browsers,
    interleaved step by step. A run is any legal list of actions from the empty start. */
module Replication {
  import opened Positions
  import opened Sequences
  import opened Snapshots
  import S = Sessions
  import B = Backend

  datatype State = State(backend: B.Backend, clients: map<nat, S.Client>)

  const START := State(B.START, map[])

  datatype Action =
    | Backstage(step: B.Step)
    | NewBrowser(id: nat)
    | Move(id: nat, move: S.Move)

  ghost predicate Can(s: State, a: Action) {
    match a
    case Backstage(step) => B.Enabled(s.backend, step)
    case NewBrowser(id) => id !in s.clients
    case Move(id, move) => id in s.clients && S.Enabled(s.backend.current, s.clients[id], move)
  }

  /** A publication reaches all sessions in one step; a restart of the backend closes all sockets. */
  ghost function Do(maxsize: int, s: State, a: Action): State
    requires Can(s, a)
  {
    match a
    case Backstage(step) =>
      State(B.After(s.backend, step),
            if step.Publish? then map i | i in s.clients :: S.Offered(maxsize, s.clients[i], B.BodyOf(s.backend, step.tag).p)
            else if step.Restart? then map i | i in s.clients :: s.clients[i].(conn := S.Offline)
            else s.clients)
    case NewBrowser(id) => s.(clients := s.clients[id := S.Client(map[], S.Offline)])
    case Move(id, move) => s.(clients := s.clients[id := S.After(s.backend.current, s.clients[id], move)])
  }

  ghost predicate Legal(maxsize: int, s: State, actions: seq<Action>)
    decreases |actions|
  {
    actions != [] ==> Can(s, actions[0]) && Legal(maxsize, Do(maxsize, s, actions[0]), actions[1..])
  }

  ghost function Exec(maxsize: int, s: State, actions: seq<Action>): State
    requires Legal(maxsize, s, actions)
    decreases |actions|
  {
    if actions == [] then s else Exec(maxsize, Do(maxsize, s, actions[0]), actions[1..])
  }

  ghost predicate Reachable(maxsize: int, s: State) {
    exists actions :: Legal(maxsize, START, actions) && Exec(maxsize, START, actions) == s
  }

  function WorldOf(b: B.Backend): S.World {
    S.World(b.log, b.current, b.published)
  }

  ghost predicate Inv(maxsize: int, s: State) {
    && B.Inv(s.backend)
    && forall i :: i in s.clients ==> S.SessionInv(maxsize, WorldOf(s.backend), s.clients[i])
  }

  /** No tag leaves a browser's map and no timestamp on it decreases. */
  ghost predicate ViewsGrow(s: State, s': State) {
    forall i :: i in s.clients ==> i in s'.clients && Behind(s.clients[i].view, s'.clients[i].view)
  }

  lemma StepKeepsSession(maxsize: int, b: B.Backend, c: S.Client, step: B.Step)
    requires B.Inv(b) && B.Enabled(b, step) && S.SessionInv(maxsize, WorldOf(b), c)
    requires !step.Restart?
    ensures S.SessionInv(maxsize, WorldOf(B.After(b, step)),
                         if step.Publish? then S.Offered(maxsize, c, B.BodyOf(b, step.tag).p) else c)
  {
    if step.Commit? || step.CommitUnconfirmed? {
      S.CommitKeepsSession(maxsize, WorldOf(b), c, B.BodyOf(b, step.tag).p);
    } else if step.Publish? {
      assert B.PhaseFits(b, b.handlers[step.tag]);
      S.PublishKeepsSession(maxsize, WorldOf(b), c, B.BodyOf(b, step.tag).p);
    } else {
      assert WorldOf(B.After(b, step)) == WorldOf(b);
    }
  }

  lemma BackstageKeepsSession(maxsize: int, s: State, step: B.Step, i: nat)
    requires Inv(maxsize, s) && Can(s, Backstage(step)) && i in s.clients
    ensures i in Do(maxsize, s, Backstage(step)).clients
    ensures S.SessionInv(maxsize, WorldOf(B.After(s.backend, step)), Do(maxsize, s, Backstage(step)).clients[i])
  {
    if step.Restart? {
      RestartKeepsSession(maxsize, WorldOf(s.backend), s.clients[i]);
    } else {
      StepKeepsSession(maxsize, s.backend, s.clients[i], step);
    }
  }

  lemma RestartKeepsSession(maxsize: int, w: S.World, c: S.Client)
    requires S.SessionInv(maxsize, w, c)
    ensures S.SessionInv(maxsize, w, c.(conn := S.Offline))
  {
  }

  lemma BackstageKeepsInv(maxsize: int, s: State, step: B.Step)
    requires Inv(maxsize, s) && Can(s, Backstage(step))
    ensures Inv(maxsize, Do(maxsize, s, Backstage(step)))
  {
    B.StepKeepsInv(s.backend, step);
    var s' := Do(maxsize, s, Backstage(step));
    forall i | i in s'.clients ensures S.SessionInv(maxsize, WorldOf(s'.backend), s'.clients[i]) {
      BackstageKeepsSession(maxsize, s, step, i);
    }
  }

  lemma MoveKeepsInv(maxsize: int, s: State, id: nat, move: S.Move)
    requires Inv(maxsize, s) && Can(s, Move(id, move))
    ensures Inv(maxsize, Do(maxsize, s, Move(id, move)))
  {
    S.MoveKeepsSession(maxsize, WorldOf(s.backend), s.clients[id], move);
  }

  lemma NewcomerInv(maxsize: int, w: S.World)
    ensures S.SessionInv(maxsize, w, S.Client(map[], S.Offline))
  {
  }

  lemma NewBrowserKeepsInv(maxsize: int, s: State, id: nat)
    requires Inv(maxsize, s) && Can(s, NewBrowser(id))
    ensures Inv(maxsize, Do(maxsize, s, NewBrowser(id)))
  {
    NewcomerInv(maxsize, WorldOf(s.backend));
    var s' := Do(maxsize, s, NewBrowser(id));
    forall i | i in s'.clients ensures S.SessionInv(maxsize, WorldOf(s'.backend), s'.clients[i]) {
      assert i != id ==> s'.clients[i] == s.clients[i];
    }
  }

  lemma ActionKeepsInv(maxsize: int, s: State, a: Action)
    requires Inv(maxsize, s) && Can(s, a)
    ensures Inv(maxsize, Do(maxsize, s, a))
  {
    match a
    case Backstage(step) => BackstageKeepsInv(maxsize, s, step);
    case NewBrowser(id) => NewBrowserKeepsInv(maxsize, s, id);
    case Move(id, move) => MoveKeepsInv(maxsize, s, id, move);
  }

  lemma {:induction false} RunKeepsInv(maxsize: int, s: State, actions: seq<Action>)
    requires Inv(maxsize, s) && Legal(maxsize, s, actions)
    ensures Inv(maxsize, Exec(maxsize, s, actions))
    decreases |actions|
  {
    if actions != [] {
      ActionKeepsInv(maxsize, s, actions[0]);
      RunKeepsInv(maxsize, Do(maxsize, s, actions[0]), actions[1..]);
    }
  }

  lemma BackstageKeepsViews(maxsize: int, s: State, step: B.Step, i: nat)
    requires Can(s, Backstage(step)) && i in s.clients
    ensures i in Do(maxsize, s, Backstage(step)).clients && Do(maxsize, s, Backstage(step)).clients[i].view == s.clients[i].view
  {
  }

  lemma MoveGrowsView(maxsize: int, s: State, id: nat, move: S.Move)
    requires Inv(maxsize, s) && Can(s, Move(id, move))
    ensures Behind(s.clients[id].view, Do(maxsize, s, Move(id, move)).clients[id].view)
  {
    S.MoveKeepsSession(maxsize, WorldOf(s.backend), s.clients[id], move);
  }

  lemma ActionGrowsViews(maxsize: int, s: State, a: Action)
    requires Inv(maxsize, s) && Can(s, a)
    ensures ViewsGrow(s, Do(maxsize, s, a))
  {
    var s' := Do(maxsize, s, a);
    forall i | i in s.clients ensures i in s'.clients && Behind(s.clients[i].view, s'.clients[i].view) {
      if a.Backstage? {
        BackstageKeepsViews(maxsize, s, a.step, i);
      } else if a.Move? && a.id == i {
        MoveGrowsView(maxsize, s, i, a.move);
      }
    }
  }

  lemma ViewsGrowTrans(s: State, s': State, s'': State)
    requires ViewsGrow(s, s') && ViewsGrow(s', s'')
    ensures ViewsGrow(s, s'')
  {
  }

  lemma {:induction false} RunGrowsViews(maxsize: int, s: State, actions: seq<Action>)
    requires Inv(maxsize, s) && Legal(maxsize, s, actions)
    ensures ViewsGrow(s, Exec(maxsize, s, actions))
    decreases |actions|
  {
    if actions != [] {
      var s' := Do(maxsize, s, actions[0]);
      ActionKeepsInv(maxsize, s, actions[0]);
      ActionGrowsViews(maxsize, s, actions[0]);
      RunGrowsViews(maxsize, s', actions[1..]);
      ViewsGrowTrans(s, s', Exec(maxsize, s', actions[1..]));
    }
  }

  lemma ReachableInv(maxsize: int, s: State)
    requires Reachable(maxsize, s)
    ensures Inv(maxsize, s)
  {
    B.StartInv();
    var actions :| Legal(maxsize, START, actions) && Exec(maxsize, START, actions) == s;
    RunKeepsInv(maxsize, START, actions);
  }

  // Main results.

  /** Never backwards: whatever happens from a reachable state on, with any number of
      disconnects, reconnects, snapshots, drops and restarts, no browser loses a tag or shows an
      older timestamp for one. */
  lemma NeverBackwards(maxsize: int, s: State, actions: seq<Action>, id: nat)
    requires Reachable(maxsize, s) && Legal(maxsize, s, actions) && id in s.clients
    ensures id in Exec(maxsize, s, actions).clients
    ensures Behind(s.clients[id].view, Exec(maxsize, s, actions).clients[id].view)
  {
    ReachableInv(maxsize, s);
    RunGrowsViews(maxsize, s, actions);
  }

  /** Never ahead: in every reachable state, whatever was dropped and whatever the timestamps, a
      browser shows committed records only, none newer than the database's for its tag. */
  lemma NeverAhead(maxsize: int, s: State, id: nat)
    requires Reachable(maxsize, s) && id in s.clients
    ensures Behind(s.clients[id].view, s.backend.current) && DrawnFrom(s.clients[id].view, s.backend.log)
  {
    ReachableInv(maxsize, s);
    assert S.NeverAhead(WorldOf(s.backend), s.clients[id]);
  }

  /** Every committed record has been published at some time. */
  ghost predicate Settled(b: B.Backend) {
    forall p :: p in b.log ==> p in b.published
  }

  ghost predicate Quiet(s: State, id: nat) {
    id in s.clients && S.Drained(s.clients[id]) && S.NoDrops(s.clients[id]) && Settled(s.backend)
  }

  /** Convergence, exactly: in every reachable state a browser that is drained and lost nothing,
      when no committed record awaits publication, shows the database's tags with the database's
      timestamps if and only if no tag its snapshot lacked has a negative newest timestamp. */
  lemma ConvergenceIff(maxsize: int, s: State, id: nat)
    requires Reachable(maxsize, s) && Quiet(s, id)
    ensures SameTimes(s.clients[id].view, s.backend.current)
            <==> forall k :: k in s.backend.current ==>
                               k in S.SnapshotTable(s.clients[id]) || s.backend.current[k].ts >= 0
  {
    ReachableInv(maxsize, s);
    S.DrainedConvergesIff(maxsize, WorldOf(s.backend), s.clients[id]);
  }

  /** With timestamps that are not negative the view converges, and to the very same records
      when no two different records tie at a tag's newest timestamp. */
  lemma Convergence(maxsize: int, s: State, id: nat)
    requires Reachable(maxsize, s) && Quiet(s, id)
    requires forall p :: p in s.backend.log ==> p.ts >= 0
    ensures SameTimes(s.clients[id].view, s.backend.current)
    ensures TopDetermined(s.backend.log) ==> s.clients[id].view == s.backend.current
  {
    ReachableInv(maxsize, s);
    FoldDrawn(map[], s.backend.log, s.backend.log);
    ConvergenceIff(maxsize, s, id);
    if TopDetermined(s.backend.log) {
      SameTimesSameNewest(s.clients[id].view, s.backend.log);
    }
  }

  /** With drops: a drained browser shows the snapshot overlaid with the accepted publications, and
      agrees with the database on a tag exactly when the snapshot or an accepted publication carries
      the tag's newest timestamp. */
  lemma ConvergenceUnderDrops(maxsize: int, s: State, id: nat, tag: Tag)
    requires Reachable(maxsize, s) && id in s.clients && S.Drained(s.clients[id])
    requires forall p :: p in s.backend.log ==> p.ts >= 0
    ensures s.clients[id].view == Fold(S.SnapshotTable(s.clients[id]), s.clients[id].conn.queue.Accepted())
    ensures Behind(s.clients[id].view, s.backend.current)
    ensures tag in s.backend.current ==>
              ((tag in s.clients[id].view && s.clients[id].view[tag].ts == s.backend.current[tag].ts)
               <==> (tag in S.SnapshotTable(s.clients[id])
                     && S.SnapshotTable(s.clients[id])[tag].ts == s.backend.current[tag].ts)
                    || exists p :: p in s.clients[id].conn.queue.Accepted() && p.tag == tag
                                   && p.ts == s.backend.current[tag].ts)
  {
    ReachableInv(maxsize, s);
    var c := s.clients[id];
    forall p | p in c.conn.queue.Accepted() ensures p.ts >= 0 {
      S.AcceptedWasOffered(maxsize, c, p);
    }
    S.DrainedUnderDrops(maxsize, WorldOf(s.backend), c, tag);
  }

  /** What a connection carries, in every reachable state: the snapshot, and then of the positions taken
      from the queue exactly those, in order, whose timestamp is at least that of their tag's row in
      the snapshot, or at least 0 if it has none. */
  lemma StreamIsUpToDate(maxsize: int, s: State, id: nat)
    requires Reachable(maxsize, s) && id in s.clients && s.clients[id].conn.Online? && s.clients[id].conn.stage.Streaming?
    ensures var c := s.clients[id];
            c.conn.shown + c.conn.wire
            == [Frame.Rows(S.Rows(c))] + LiveFrames(Filter(UpToDate(S.SnapshotTable(c)), c.conn.queue.taken))
  {
    ReachableInv(maxsize, s);
    S.WireIsUpToDate(maxsize, s.clients[id]);
  }

  /** Per connection: consumed then queued is an in-order subsequence of the latest publications,
      within the bound. (`Accounting.QueueAccounting` says since when, and counts the drops.) */
  lemma QueuesConserved(maxsize: int, s: State, id: nat)
    requires Reachable(maxsize, s) && id in s.clients && s.clients[id].conn.Online?
    ensures Subsequence(s.clients[id].conn.queue.taken + s.clients[id].conn.queue.items, s.clients[id].conn.queue.offered)
    ensures maxsize > 0 ==> |s.clients[id].conn.queue.items| <= maxsize
    ensures var n := |s.backend.published| - |s.clients[id].conn.queue.offered|;
            n >= 0 && s.clients[id].conn.queue.offered == s.backend.published[n..]
  {
    ReachableInv(maxsize, s);
    var c := s.clients[id];
    assert S.Plumbing(maxsize, c) && S.Tapped(WorldOf(s.backend), c);
  }

  /** The current table is a correct index of the log in every reachable state: a row for exactly
      the logged tags, and the row is the last-applied of the tag's newest events. */
  lemma CurrentIsIndexOfLog(maxsize: int, s: State, tag: Tag)
    requires Reachable(maxsize, s)
    ensures tag in s.backend.current <==> exists p :: p in s.backend.log && p.tag == tag
    ensures tag in s.backend.current ==>
              exists i: nat :: Latest(s.backend.log, tag, i) && s.backend.current[tag] == s.backend.log[i]
  {
    ReachableInv(maxsize, s);
    FoldIsIndex(s.backend.log, tag);
  }

  /** No valid message is lost: an acknowledged one is in the log and was published, and any
      other one is ready at the broker or out with exactly one live handler. */
  lemma NoValidMessageLost(maxsize: int, s: State, msg: nat)
    requires Reachable(maxsize, s) && msg in s.backend.bodies
    ensures msg in s.backend.acked ==>
              var body := s.backend.bodies[msg];
              body.NotJson? || body.NoTagId? || (body.Valid? && body.p in s.backend.log && body.p in s.backend.published)
    ensures msg !in s.backend.acked ==> (msg in s.backend.ready <==> msg !in B.Unacked(s.backend))
    ensures forall t, u :: (t in B.LiveTags(s.backend) && u in B.LiveTags(s.backend)
                            && s.backend.handlers[t].msg == msg && s.backend.handlers[u].msg == msg)
                           ==> t == u
  {
    ReachableInv(maxsize, s);
  }

  /** Every valid message produced so far has been acknowledged. */
  ghost predicate AllHandled(b: B.Backend) {
    forall m :: m in b.bodies && b.bodies[m].Valid? ==> m in b.acked
  }

  /** Once nothing valid is left at the broker, every committed record has been published. */
  lemma BrokerDrainedSettles(maxsize: int, s: State)
    requires Reachable(maxsize, s)
    requires AllHandled(s.backend)
    ensures Settled(s.backend)
  {
    ReachableInv(maxsize, s);
  }

  /** With no handler mid-flight, the acknowledgements and the ones a lost channel prevented are
      together exactly the processed, malformed and tag-less messages; never more than the
      prefetch limit are out at once. */
  lemma AcksAddUp(maxsize: int, s: State)
    requires Reachable(maxsize, s)
    ensures |B.LiveTags(s.backend)| <= 10
    ensures |B.LiveTags(s.backend)| < 10 ==>
              forall msg, tag :: msg in s.backend.ready && tag !in s.backend.handlers ==> Can(s, Backstage(B.Deliver(msg, tag)))
    ensures s.backend.handlers == map[] ==>
              s.backend.counters.acks + s.backend.counters.unackable
              == s.backend.counters.processed + s.backend.counters.malformedJson + s.backend.counters.missingTagId
  {
    ReachableInv(maxsize, s);
    if s.backend.handlers == map[] {
      assert B.DoneTags(s.backend) == {};
    }
  }

  /** A record is committed before it is published: whatever a handler may publish is logged. */
  lemma CommitBeforePublish(maxsize: int, s: State, tag: nat)
    requires Reachable(maxsize, s) && Can(s, Backstage(B.Publish(tag)))
    ensures B.BodyOf(s.backend, tag).p in s.backend.log
    ensures B.BodyOf(s.backend, tag).p.tag in s.backend.current
    ensures B.BodyOf(s.backend, tag).p.ts <= s.backend.current[B.BodyOf(s.backend, tag).p.tag].ts
  {
    ReachableInv(maxsize, s);
    assert B.PhaseFits(s.backend, s.backend.handlers[tag]);
    FoldMax(map[], s.backend.log, B.BodyOf(s.backend, tag).p.tag);
  }

  // At-least-once delivery.

  lemma {:induction false} RunKeepsSourced(maxsize: int, s: State, actions: seq<Action>)
    requires B.Sourced(s.backend) && Legal(maxsize, s, actions)
    ensures B.Sourced(Exec(maxsize, s, actions).backend)
    decreases |actions|
  {
    if actions != [] {
      if actions[0].Backstage? {
        B.StepKeepsSourced(s.backend, actions[0].step);
      }
      RunKeepsSourced(maxsize, Do(maxsize, s, actions[0]), actions[1..]);
    }
  }

  /** With every valid message acknowledged the log holds the produced positions and no others,
      whatever the order in which they were committed and however often they were redelivered. */
  lemma LogIsMessages(maxsize: int, s: State)
    requires Reachable(maxsize, s) && AllHandled(s.backend)
    ensures forall p :: p in s.backend.log <==> B.MessageOf(s.backend, p)
  {
    ReachableInv(maxsize, s);
    var actions :| Legal(maxsize, START, actions) && Exec(maxsize, START, actions) == s;
    RunKeepsSourced(maxsize, START, actions);
    forall p | B.MessageOf(s.backend, p) ensures p in s.backend.log {
      var m :| m in s.backend.bodies && s.backend.bodies[m] == B.Valid(p);
      assert m in s.backend.acked;
    }
  }

  /** The table of current positions is then determined by the messages alone: it has a row for
      exactly the tags they name, at the newest timestamp among them, and the row is one of them. */
  lemma CurrentIsNewestMessage(maxsize: int, s: State, tag: Tag)
    requires Reachable(maxsize, s) && AllHandled(s.backend)
    ensures tag in s.backend.current <==> exists p :: B.MessageOf(s.backend, p) && p.tag == tag
    ensures forall p :: B.MessageOf(s.backend, p) && p.tag == tag ==> p.ts <= s.backend.current[tag].ts
    ensures tag in s.backend.current ==>
              B.MessageOf(s.backend, s.backend.current[tag]) && s.backend.current[tag].tag == tag
  {
    ReachableInv(maxsize, s);
    LogIsMessages(maxsize, s);
    FoldMax(map[], s.backend.log, tag);
  }

  ghost predicate SameMessages(b: B.Backend, c: B.Backend) {
    forall p :: B.MessageOf(b, p) <==> B.MessageOf(c, p)
  }

  /** At-least-once insensitivity: any two runs that handled the same messages, in any order, with
      any redeliveries, failures and restarts, end with the same tags and timestamps, and with the
      same table when no two messages tie at a tag's newest timestamp. */
  lemma SameMessagesSameTable(maxsize: int, s: State, maxsize': int, s': State)
    requires Reachable(maxsize, s) && Reachable(maxsize', s')
    requires AllHandled(s.backend) && AllHandled(s'.backend) && SameMessages(s.backend, s'.backend)
    ensures SameTimes(s.backend.current, s'.backend.current)
    ensures TopDetermined(s.backend.log) ==> s.backend.current == s'.backend.current
  {
    ReachableInv(maxsize, s);
    ReachableInv(maxsize', s');
    LogIsMessages(maxsize, s);
    LogIsMessages(maxsize', s');
    OrderInsensitiveTimes(s.backend.log, s'.backend.log);
    if TopDetermined(s.backend.log) {
      SameElementsSameTable(s.backend.log, s'.backend.log);
    }
  }

  /** End to end: two browsers of any two such runs, both drained and without drops, show the same
      tags and timestamps. */
  lemma SameMessagesSameScreens(maxsize: int, s: State, id: nat, maxsize': int, s': State, id': nat)
    requires Reachable(maxsize, s) && Reachable(maxsize', s')
    requires AllHandled(s.backend) && AllHandled(s'.backend) && SameMessages(s.backend, s'.backend)
    requires forall p :: B.MessageOf(s.backend, p) ==> p.ts >= 0
    requires id in s.clients && S.Drained(s.clients[id]) && S.NoDrops(s.clients[id])
    requires id' in s'.clients && S.Drained(s'.clients[id']) && S.NoDrops(s'.clients[id'])
    ensures SameTimes(s.clients[id].view, s'.clients[id'].view)
  {
    SameMessagesSameTable(maxsize, s, maxsize', s');
    LogIsMessages(maxsize, s);
    LogIsMessages(maxsize', s');
    BrokerDrainedSettles(maxsize, s);
    BrokerDrainedSettles(maxsize', s');
    Convergence(maxsize, s, id);
    Convergence(maxsize', s', id');
  }
}
