/** Particular runs: one handler running alone, a browser draining its queue, a reconnect that
    heals what drops lost, and a drop that leaves a browser behind. */
module Scenarios {
  import opened Positions
  import opened Broadcasting
  import opened Snapshots
  import opened Replication
  import S = Sessions
  import B = Backend

  /** `states` is the path that `actions` take. */
  ghost predicate Path(maxsize: int, states: seq<State>, actions: seq<Action>) {
    && |states| == |actions| + 1
    && forall i :: 0 <= i < |actions| ==> Can(states[i], actions[i]) && states[i + 1] == Do(maxsize, states[i], actions[i])
  }

  lemma {:induction false} PathRuns(maxsize: int, states: seq<State>, actions: seq<Action>)
    requires Path(maxsize, states, actions)
    ensures Legal(maxsize, states[0], actions)
    ensures Exec(maxsize, states[0], actions) == states[|actions|]
    decreases |actions|
  {
    if actions != [] {
      PathRuns(maxsize, states[1..], actions[1..]);
    }
  }

  lemma {:induction false} RunsCompose(maxsize: int, s: State, a: seq<Action>, b: seq<Action>)
    requires Legal(maxsize, s, a) && Legal(maxsize, Exec(maxsize, s, a), b)
    ensures Legal(maxsize, s, a + b) && Exec(maxsize, s, a + b) == Exec(maxsize, Exec(maxsize, s, a), b)
    decreases |a|
  {
    if a == [] {
      assert a + b == b;
    } else {
      RunsCompose(maxsize, Do(maxsize, s, a[0]), a[1..], b);
      assert (a + b)[0] == a[0] && (a + b)[1..] == a[1..] + b;
    }
  }

  lemma ReachFurther(maxsize: int, s: State, actions: seq<Action>)
    requires Reachable(maxsize, s) && Legal(maxsize, s, actions)
    ensures Reachable(maxsize, Exec(maxsize, s, actions))
  {
    var before :| Legal(maxsize, START, before) && Exec(maxsize, START, before) == s;
    RunsCompose(maxsize, START, before, actions);
  }

  lemma OneStep(maxsize: int, s: State, a: Action) returns (s': State)
    requires Reachable(maxsize, s) && Can(s, a)
    ensures s' == Do(maxsize, s, a) && Reachable(maxsize, s')
  {
    s' := Do(maxsize, s, a);
    PathRuns(maxsize, [s, s'], [a]);
    ReachFurther(maxsize, s, [a]);
  }

  // One message handled without interruption.

  /** The part of the backend that handling one message changes, besides the broker's custody. */
  datatype Ledger = Ledger(log: seq<Position>, current: Table, published: seq<Position>, counters: B.Counters)

  function LedgerOf(b: B.Backend): Ledger {
    Ledger(b.log, b.current, b.published, b.counters)
  }

  predicate Acknowledges(body: B.Body, writeFails: bool) {
    body.NotJson? || body.NoTagId? || (body.Valid? && !writeFails)
  }

  function Recorded(l: Ledger, body: B.Body, writeFails: bool): Ledger {
    var c := l.counters;
    match body
    case NotJson => l.(counters := c.(malformedJson := c.malformedJson + 1, acks := c.acks + 1))
    case NoTagId => l.(counters := c.(missingTagId := c.missingTagId + 1, acks := c.acks + 1))
    case NotObject => l
    case Unwritable => l.(counters := c.(dbError := c.dbError + 1))
    case Valid(p) =>
      if writeFails then l.(counters := c.(dbError := c.dbError + 1))
      else Ledger(l.log + [p], Upsert(l.current, p), l.published + [p], c.(processed := c.processed + 1, acks := c.acks + 1))
  }

  /** What handling a message leaves behind: the changed ledger, and the message acknowledged or
      still ready. */
  function Handled(b: B.Backend, msg: nat, writeFails: bool): B.Backend
    requires msg in b.bodies
  {
    var l := Recorded(LedgerOf(b), b.bodies[msg], writeFails);
    var b' := b.(log := l.log, current := l.current, published := l.published, counters := l.counters);
    if Acknowledges(b.bodies[msg], writeFails) then b'.(ready := b.ready - {msg}, acked := b.acked + {msg}) else b'
  }

  /** The positions handling a message hands to the broadcast. */
  function Announced(body: B.Body, writeFails: bool): seq<Position> {
    if body.Valid? && Acknowledges(body, writeFails) then [body.p] else []
  }

  function Handling(body: B.Body, msg: nat, tag: nat, writeFails: bool): seq<Action> {
    var start := [Backstage(B.Deliver(msg, tag)), Backstage(B.Decode(tag))];
    match body
    case NotJson => start + [Backstage(B.Ack(tag))]
    case NoTagId => start + [Backstage(B.Ack(tag))]
    case NotObject => start + [Backstage(B.Requeue(tag))]
    case Unwritable => start + [Backstage(B.WriteFails(tag)), Backstage(B.Requeue(tag))]
    case Valid(_) =>
      if writeFails then start + [Backstage(B.WriteFails(tag)), Backstage(B.Requeue(tag))]
      else start + [Backstage(B.Commit(tag)), Backstage(B.Publish(tag)), Backstage(B.Ack(tag))]
  }

  function OfferedAll(maxsize: int, clients: map<nat, S.Client>, ps: seq<Position>): map<nat, S.Client> {
    if ps == [] then clients else map i | i in clients :: S.Offered(maxsize, clients[i], ps[0])
  }

  ghost predicate CanHandle(s: State, msg: nat, tag: nat) {
    && msg in s.backend.bodies && msg in s.backend.ready && tag !in s.backend.handlers
    && |B.LiveTags(s.backend)| < B.PREFETCH
  }

  /** The run leads from one state to the other. */
  ghost predicate Takes(maxsize: int, s: State, actions: seq<Action>, s': State) {
    Legal(maxsize, s, actions) && Exec(maxsize, s, actions) == s'
  }

  lemma TakesOne(maxsize: int, s: State, a: Action, s': State)
    requires Can(s, a) && Do(maxsize, s, a) == s'
    ensures Takes(maxsize, s, [a], s')
  {
    PathRuns(maxsize, [s, s'], [a]);
  }

  lemma TakesMore(maxsize: int, s: State, actions: seq<Action>, s': State, a: Action, s'': State)
    requires Takes(maxsize, s, actions, s') && Can(s', a) && Do(maxsize, s', a) == s''
    ensures Takes(maxsize, s, actions + [a], s'')
  {
    TakesOne(maxsize, s', a, s'');
    RunsCompose(maxsize, s, actions, [a]);
  }

  ghost predicate HandlesAs(maxsize: int, s: State, msg: nat, tag: nat, writeFails: bool) {
    CanHandle(s, msg, tag) &&
    var body := s.backend.bodies[msg];
    Takes(maxsize, s, Handling(body, msg, tag, writeFails),
          State(Handled(s.backend, msg, writeFails), OfferedAll(maxsize, s.clients, Announced(body, writeFails))))
  }

  // What each step of a handler leaves, seen from the state without the handler.

  ghost predicate Waits(s: State, msg: nat, tag: nat) {
    msg in s.backend.bodies && msg in s.backend.ready && tag !in s.backend.handlers
  }

  /** Message `msg` is out with handler `tag`, which is in the given phase. */
  function With(s: State, msg: nat, tag: nat, phase: B.Phase): State {
    s.(backend := s.backend.(ready := s.backend.ready - {msg},
                             handlers := s.backend.handlers[tag := B.Handler(msg, true, phase)]))
  }

  function Counting(s: State, c: B.Counters): State {
    s.(backend := s.backend.(counters := c))
  }

  function Stored(s: State, p: Position): State {
    s.(backend := s.backend.(log := s.backend.log + [p], current := Upsert(s.backend.current, p)))
  }

  function Told(maxsize: int, s: State, p: Position): State {
    var c := s.backend.counters;
    State(s.backend.(published := s.backend.published + [p], counters := c.(processed := c.processed + 1)),
          OfferedAll(maxsize, s.clients, [p]))
  }

  function Acknowledged(s: State, msg: nat): State {
    var c := s.backend.counters;
    s.(backend := s.backend.(ready := s.backend.ready - {msg}, acked := s.backend.acked + {msg}, counters := c.(acks := c.acks + 1)))
  }

  function DecodedPhase(body: B.Body): B.Phase {
    if body.NotJson? || body.NoTagId? then B.Done else if body.NotObject? then B.Failed else B.Writing
  }

  function DecodedCounters(c: B.Counters, body: B.Body): B.Counters {
    if body.NotJson? then c.(malformedJson := c.malformedJson + 1)
    else if body.NoTagId? then c.(missingTagId := c.missingTagId + 1)
    else c
  }

  lemma Reenter(s: State, msg: nat, tag: nat, phase: B.Phase, phase': B.Phase)
    ensures B.Enter(With(s, msg, tag, phase).backend, tag, phase') == With(s, msg, tag, phase').backend
  {
    assert s.backend.handlers[tag := B.Handler(msg, true, phase)][tag := B.Handler(msg, true, phase')]
        == s.backend.handlers[tag := B.Handler(msg, true, phase')];
  }

  lemma Depart(s: State, msg: nat, tag: nat, phase: B.Phase)
    requires Waits(s, msg, tag)
    ensures B.Leave(With(s, msg, tag, phase).backend, tag) == s.backend.(ready := s.backend.ready - {msg})
  {
    assert s.backend.handlers[tag := B.Handler(msg, true, phase)] - {tag} == s.backend.handlers;
  }

  lemma DeliverStep(maxsize: int, s: State, msg: nat, tag: nat)
    requires CanHandle(s, msg, tag)
    ensures Can(s, Backstage(B.Deliver(msg, tag)))
    ensures Do(maxsize, s, Backstage(B.Deliver(msg, tag))) == With(s, msg, tag, B.Received)
  {
  }

  lemma DecodeStep(maxsize: int, s: State, msg: nat, tag: nat)
    requires Waits(s, msg, tag)
    ensures Can(With(s, msg, tag, B.Received), Backstage(B.Decode(tag)))
    ensures var body := s.backend.bodies[msg];
            Do(maxsize, With(s, msg, tag, B.Received), Backstage(B.Decode(tag)))
            == With(Counting(s, DecodedCounters(s.backend.counters, body)), msg, tag, DecodedPhase(body))
  {
    Reenter(s, msg, tag, B.Received, DecodedPhase(s.backend.bodies[msg]));
  }

  lemma WriteFailsStep(maxsize: int, s: State, msg: nat, tag: nat)
    requires Waits(s, msg, tag)
    ensures Can(With(s, msg, tag, B.Writing), Backstage(B.WriteFails(tag)))
    ensures var c := s.backend.counters;
            Do(maxsize, With(s, msg, tag, B.Writing), Backstage(B.WriteFails(tag)))
            == With(Counting(s, c.(dbError := c.dbError + 1)), msg, tag, B.Failed)
  {
    Reenter(s, msg, tag, B.Writing, B.Failed);
  }

  lemma RequeueStep(maxsize: int, s: State, msg: nat, tag: nat)
    requires Waits(s, msg, tag)
    ensures Can(With(s, msg, tag, B.Failed), Backstage(B.Requeue(tag)))
    ensures Do(maxsize, With(s, msg, tag, B.Failed), Backstage(B.Requeue(tag))) == s
  {
    Depart(s, msg, tag, B.Failed);
    assert s.backend.ready - {msg} + {msg} == s.backend.ready;
  }

  lemma AckStep(maxsize: int, s: State, msg: nat, tag: nat)
    requires Waits(s, msg, tag)
    ensures Can(With(s, msg, tag, B.Done), Backstage(B.Ack(tag)))
    ensures Do(maxsize, With(s, msg, tag, B.Done), Backstage(B.Ack(tag))) == Acknowledged(s, msg)
  {
    Depart(s, msg, tag, B.Done);
  }

  lemma CommitStep(maxsize: int, s: State, msg: nat, tag: nat)
    requires Waits(s, msg, tag) && s.backend.bodies[msg].Valid?
    ensures Can(With(s, msg, tag, B.Writing), Backstage(B.Commit(tag)))
    ensures Do(maxsize, With(s, msg, tag, B.Writing), Backstage(B.Commit(tag)))
            == With(Stored(s, s.backend.bodies[msg].p), msg, tag, B.Committed)
  {
    Reenter(Stored(s, s.backend.bodies[msg].p), msg, tag, B.Writing, B.Committed);
  }

  lemma PublishStep(maxsize: int, s: State, msg: nat, tag: nat)
    requires Waits(s, msg, tag) && s.backend.bodies[msg].Valid?
    ensures Can(With(s, msg, tag, B.Committed), Backstage(B.Publish(tag)))
    ensures Do(maxsize, With(s, msg, tag, B.Committed), Backstage(B.Publish(tag)))
            == With(Told(maxsize, s, s.backend.bodies[msg].p), msg, tag, B.Done)
  {
    Reenter(s, msg, tag, B.Committed, B.Done);
  }

  // The handlings, chained from these steps.

  function Starting(msg: nat, tag: nat): seq<Action> {
    [Backstage(B.Deliver(msg, tag))] + [Backstage(B.Decode(tag))]
  }

  lemma Starts(maxsize: int, s: State, msg: nat, tag: nat)
    requires CanHandle(s, msg, tag)
    ensures var body := s.backend.bodies[msg];
            Takes(maxsize, s, Starting(msg, tag),
                  With(Counting(s, DecodedCounters(s.backend.counters, body)), msg, tag, DecodedPhase(body)))
  {
    var body := s.backend.bodies[msg];
    DeliverStep(maxsize, s, msg, tag);
    TakesOne(maxsize, s, Backstage(B.Deliver(msg, tag)), With(s, msg, tag, B.Received));
    DecodeStep(maxsize, s, msg, tag);
    TakesMore(maxsize, s, [Backstage(B.Deliver(msg, tag))], With(s, msg, tag, B.Received), Backstage(B.Decode(tag)),
              With(Counting(s, DecodedCounters(s.backend.counters, body)), msg, tag, DecodedPhase(body)));
  }

  lemma ReachesWriting(maxsize: int, s: State, msg: nat, tag: nat)
    requires CanHandle(s, msg, tag) && (s.backend.bodies[msg].Valid? || s.backend.bodies[msg].Unwritable?)
    ensures Takes(maxsize, s, Starting(msg, tag), With(s, msg, tag, B.Writing))
  {
    Starts(maxsize, s, msg, tag);
    assert Counting(s, s.backend.counters) == s;
  }

  lemma ReachesCommitted(maxsize: int, s: State, msg: nat, tag: nat)
    requires CanHandle(s, msg, tag) && s.backend.bodies[msg].Valid?
    ensures Takes(maxsize, s, Starting(msg, tag) + [Backstage(B.Commit(tag))],
                  With(Stored(s, s.backend.bodies[msg].p), msg, tag, B.Committed))
  {
    ReachesWriting(maxsize, s, msg, tag);
    CommitStep(maxsize, s, msg, tag);
    TakesMore(maxsize, s, Starting(msg, tag), With(s, msg, tag, B.Writing), Backstage(B.Commit(tag)),
              With(Stored(s, s.backend.bodies[msg].p), msg, tag, B.Committed));
  }

  lemma AcceptedAlone(maxsize: int, s: State, msg: nat, tag: nat)
    requires CanHandle(s, msg, tag) && s.backend.bodies[msg].Valid?
    ensures HandlesAs(maxsize, s, msg, tag, false)
  {
    var p := s.backend.bodies[msg].p;
    var s1, s2 := Stored(s, p), Told(maxsize, Stored(s, p), p);
    ReachesCommitted(maxsize, s, msg, tag);
    PublishStep(maxsize, s1, msg, tag);
    var run := Starting(msg, tag) + [Backstage(B.Commit(tag))];
    TakesMore(maxsize, s, run, With(s1, msg, tag, B.Committed), Backstage(B.Publish(tag)), With(s2, msg, tag, B.Done));
    AckStep(maxsize, s2, msg, tag);
    TakesMore(maxsize, s, run + [Backstage(B.Publish(tag))], With(s2, msg, tag, B.Done), Backstage(B.Ack(tag)), Acknowledged(s2, msg));
    assert run + [Backstage(B.Publish(tag))] + [Backstage(B.Ack(tag))] == Handling(B.Valid(p), msg, tag, false);
  }

  lemma FailedAlone(maxsize: int, s: State, msg: nat, tag: nat, writeFails: bool)
    requires CanHandle(s, msg, tag)
    requires s.backend.bodies[msg].Unwritable? || (s.backend.bodies[msg].Valid? && writeFails)
    ensures HandlesAs(maxsize, s, msg, tag, writeFails)
  {
    var c := s.backend.counters;
    var s' := Counting(s, c.(dbError := c.dbError + 1));
    ReachesWriting(maxsize, s, msg, tag);
    WriteFailsStep(maxsize, s, msg, tag);
    var run := Starting(msg, tag) + [Backstage(B.WriteFails(tag))];
    TakesMore(maxsize, s, Starting(msg, tag), With(s, msg, tag, B.Writing), Backstage(B.WriteFails(tag)), With(s', msg, tag, B.Failed));
    RequeueStep(maxsize, s', msg, tag);
    TakesMore(maxsize, s, run, With(s', msg, tag, B.Failed), Backstage(B.Requeue(tag)), s');
    assert run + [Backstage(B.Requeue(tag))] == Handling(s.backend.bodies[msg], msg, tag, writeFails);
  }

  lemma RejectedAlone(maxsize: int, s: State, msg: nat, tag: nat, writeFails: bool)
    requires CanHandle(s, msg, tag)
    requires s.backend.bodies[msg].NotJson? || s.backend.bodies[msg].NoTagId?
    ensures HandlesAs(maxsize, s, msg, tag, writeFails)
  {
    var s' := Counting(s, DecodedCounters(s.backend.counters, s.backend.bodies[msg]));
    Starts(maxsize, s, msg, tag);
    AckStep(maxsize, s', msg, tag);
    TakesMore(maxsize, s, Starting(msg, tag), With(s', msg, tag, B.Done), Backstage(B.Ack(tag)), Acknowledged(s', msg));
    assert Starting(msg, tag) + [Backstage(B.Ack(tag))] == Handling(s.backend.bodies[msg], msg, tag, writeFails);
  }

  lemma RaisedAlone(maxsize: int, s: State, msg: nat, tag: nat, writeFails: bool)
    requires CanHandle(s, msg, tag) && s.backend.bodies[msg].NotObject?
    ensures HandlesAs(maxsize, s, msg, tag, writeFails)
  {
    Starts(maxsize, s, msg, tag);
    assert Counting(s, s.backend.counters) == s;
    RequeueStep(maxsize, s, msg, tag);
    TakesMore(maxsize, s, Starting(msg, tag), With(s, msg, tag, B.Failed), Backstage(B.Requeue(tag)), s);
    assert Starting(msg, tag) + [Backstage(B.Requeue(tag))] == Handling(B.NotObject, msg, tag, writeFails);
  }

  /** A message handled alone goes through the interleaved system's own steps and leaves exactly
      what `Handled` says: acknowledged, or back in the broker with nothing written. */
  lemma HandlingAlone(maxsize: int, s: State, msg: nat, tag: nat, writeFails: bool)
    requires CanHandle(s, msg, tag)
    ensures HandlesAs(maxsize, s, msg, tag, writeFails)
  {
    var body := s.backend.bodies[msg];
    if body.Valid? && !writeFails {
      AcceptedAlone(maxsize, s, msg, tag);
    } else if body.Valid? || body.Unwritable? {
      FailedAlone(maxsize, s, msg, tag, writeFails);
    } else if body.NotObject? {
      RaisedAlone(maxsize, s, msg, tag, writeFails);
    } else {
      RejectedAlone(maxsize, s, msg, tag, writeFails);
    }
  }

  /** No handler runs, and the messages, all numbered below `n`, are acknowledged. */
  ghost predicate Idle(maxsize: int, s: State, n: nat) {
    Reachable(maxsize, s) && s.backend.handlers == map[] && forall m :: m in s.backend.bodies ==> m < n && m in s.backend.acked
  }

  /** One more message is produced and handled alone. */
  lemma ServeOne(maxsize: int, s: State, n: nat, p: Position) returns (s': State)
    requires Idle(maxsize, s, n)
    ensures Idle(maxsize, s', n + 1)
    ensures s'.backend.log == s.backend.log + [p] && s'.backend.published == s.backend.published + [p]
    ensures s'.clients == OfferedAll(maxsize, s.clients, [p])
  {
    var s1 := OneStep(maxsize, s, Backstage(B.Produce(n, B.Valid(p))));
    assert B.LiveTags(s1.backend) == {};
    HandlingAlone(maxsize, s1, n, 0, false);
    var run := Handling(B.Valid(p), n, 0, false);
    ReachFurther(maxsize, s1, run);
    s' := Exec(maxsize, s1, run);
  }

  // One browser moving on its own.

  /** A streaming browser with an empty wire or not. */
  ghost predicate Streams(s: State, id: nat) {
    id in s.clients && s.clients[id].conn.Online? && s.clients[id].conn.stage.Streaming?
  }

  function Pending(c: S.Client): nat
    requires c.conn.Online?
  {
    2 * |c.conn.queue.items| + |c.conn.wire|
  }

  /** The browser took in something it had accepted before. */
  ghost predicate TakesIn(s: State, s': State, id: nat)
    requires Streams(s, id)
  {
    && Streams(s', id) && s'.backend == s.backend
    && s'.clients[id].conn.stage == s.clients[id].conn.stage
    && s'.clients[id].conn.queue.Accepted() == s.clients[id].conn.queue.Accepted()
    && s'.clients[id].conn.queue.offered == s.clients[id].conn.queue.offered
  }

  lemma ReceiveNext(maxsize: int, s: State, id: nat)
    requires Inv(maxsize, s) && Streams(s, id) && s.clients[id].conn.wire != []
    ensures Can(s, Move(id, S.Receive)) && TakesIn(s, Do(maxsize, s, Move(id, S.Receive)), id)
    ensures Pending(Do(maxsize, s, Move(id, S.Receive)).clients[id]) < Pending(s.clients[id])
  {
    S.NextFrame(maxsize, s.clients[id]);
  }

  lemma DequeueNext(maxsize: int, s: State, id: nat)
    requires Inv(maxsize, s) && Streams(s, id) && s.clients[id].conn.queue.items != []
    ensures Can(s, Move(id, S.Dequeue)) && TakesIn(s, Do(maxsize, s, Move(id, S.Dequeue)), id)
    ensures Pending(Do(maxsize, s, Move(id, S.Dequeue)).clients[id]) < Pending(s.clients[id])
  {
    ApplyConserves(maxsize, s.clients[id].conn.queue, Get);
  }

  /** A streaming browser can always drain by its own moves, losing nothing it had accepted; the
      drained state that the convergence results speak of is never out of reach. */
  lemma {:induction false} CanDrain(maxsize: int, s: State, id: nat) returns (actions: seq<Action>)
    requires Reachable(maxsize, s) && Streams(s, id)
    ensures Legal(maxsize, s, actions) && forall i :: 0 <= i < |actions| ==> actions[i].Move?
    ensures TakesIn(s, Exec(maxsize, s, actions), id) && S.Drained(Exec(maxsize, s, actions).clients[id])
    decreases Pending(s.clients[id])
  {
    ReachableInv(maxsize, s);
    var c := s.clients[id];
    if S.Drained(c) {
      actions := [];
    } else {
      var first := Move(id, if c.conn.wire != [] then S.Receive else S.Dequeue);
      if c.conn.wire != [] {
        ReceiveNext(maxsize, s, id);
      } else {
        DequeueNext(maxsize, s, id);
      }
      var s' := OneStep(maxsize, s, first);
      var rest := CanDrain(maxsize, s', id);
      TakesOne(maxsize, s, first, s');
      RunsCompose(maxsize, s, [first], rest);
      actions := [first] + rest;
    }
  }

  function Reconnect(id: nat, rows: seq<Position>): seq<Action> {
    [Move(id, S.Open), Move(id, S.Subscribe), Move(id, S.ReadSnapshot(rows)), Move(id, S.SendSnapshot), Move(id, S.Receive)]
  }

  /** The state with another condition of browser `id`. */
  function As(s: State, id: nat, c: S.Client): State {
    s.(clients := s.clients[id := c])
  }

  lemma TakesMove(maxsize: int, s: State, actions: seq<Action>, id: nat, c: S.Client, move: S.Move)
    requires Takes(maxsize, s, actions, As(s, id, c)) && S.Enabled(s.backend.current, c, move)
    ensures Takes(maxsize, s, actions + [Move(id, move)], As(s, id, S.After(s.backend.current, c, move)))
  {
    assert s.clients[id := c][id := S.After(s.backend.current, c, move)] == s.clients[id := S.After(s.backend.current, c, move)];
    TakesMore(maxsize, s, actions, As(s, id, c), Move(id, move), As(s, id, S.After(s.backend.current, c, move)));
  }

  /** A browser that has shown the snapshot `rows` of a new connection, and nothing since. */
  function JustShown(rows: seq<Position>): S.Client {
    S.Client(TableOf(rows), S.Online(S.Streaming(rows), EMPTY_QUEUE, [], [Frame.Rows(rows)], true))
  }

  lemma ReconnectRuns(maxsize: int, s: State, id: nat, rows: seq<Position>)
    requires id in s.clients && s.clients[id].conn.Offline? && Lists(rows, s.backend.current)
    ensures Takes(maxsize, s, Reconnect(id, rows), As(s, id, JustShown(rows)))
  {
    var current, c0 := s.backend.current, s.clients[id];
    assert Takes(maxsize, s, [], s) && As(s, id, c0) == s;
    TakesMove(maxsize, s, [], id, c0, S.Open);
    var c1 := S.After(current, c0, S.Open);
    TakesMove(maxsize, s, [] + [Move(id, S.Open)], id, c1, S.Subscribe);
    var c2 := S.After(current, c1, S.Subscribe);
    TakesMove(maxsize, s, [] + [Move(id, S.Open)] + [Move(id, S.Subscribe)], id, c2, S.ReadSnapshot(rows));
    SnapshotShown(maxsize, s, id, rows, c2);
  }

  /** From the snapshot's reading on. */
  lemma SnapshotShown(maxsize: int, s: State, id: nat, rows: seq<Position>, c2: S.Client)
    requires Lists(rows, s.backend.current) && c2.conn == S.Online(S.Subscribed, EMPTY_QUEUE, [], [], false)
    requires Takes(maxsize, s, [] + [Move(id, S.Open)] + [Move(id, S.Subscribe)] + [Move(id, S.ReadSnapshot(rows))],
                   As(s, id, S.After(s.backend.current, c2, S.ReadSnapshot(rows))))
    ensures Takes(maxsize, s, Reconnect(id, rows), As(s, id, JustShown(rows)))
  {
    var current := s.backend.current;
    var run := [] + [Move(id, S.Open)] + [Move(id, S.Subscribe)] + [Move(id, S.ReadSnapshot(rows))];
    var c3 := S.After(current, c2, S.ReadSnapshot(rows));
    TakesMove(maxsize, s, run, id, c3, S.SendSnapshot);
    var c4 := S.After(current, c3, S.SendSnapshot);
    assert c4.conn.wire == [Frame.Rows(rows)];
    TakesMove(maxsize, s, run + [Move(id, S.SendSnapshot)], id, c4, S.Receive);
    assert run + [Move(id, S.SendSnapshot)] + [Move(id, S.Receive)] == Reconnect(id, rows);
    assert [Frame.Rows(rows)][1..] == [] && [] + [Frame.Rows(rows)] == [Frame.Rows(rows)];
    assert S.After(current, c4, S.Receive) == JustShown(rows);
  }

  /** Reconnecting heals whatever drops or lost frames cost: after the new snapshot is shown the
      browser holds the database's table, record by record, negative timestamps included. */
  lemma ReconnectHeals(maxsize: int, s: State, id: nat, rows: seq<Position>)
    requires id in s.clients && s.clients[id].conn.Offline? && Lists(rows, s.backend.current)
    ensures Legal(maxsize, s, Reconnect(id, rows))
    ensures Exec(maxsize, s, Reconnect(id, rows)) == As(s, id, JustShown(rows)) && JustShown(rows).view == s.backend.current
  {
    ReconnectRuns(maxsize, s, id, rows);
    SnapshotRoundTrip(rows, s.backend.current);
  }

  // Drops do cost something.

  function Tick(i: nat): Position {
    Position("tag", i, "")
  }

  function Ticks(n: nat): seq<Position> {
    seq(n, i requires 0 <= i < n => Tick(i))
  }

  function Min(a: nat, b: nat): nat {
    if a < b then a else b
  }

  /** Browser 0 streams after an empty snapshot and has taken nothing from its queue while `n`
      reports of one tag, timestamps 0 to n - 1, were committed and published. */
  ghost predicate Flooded(maxsize: nat, s: State, n: nat) {
    && Idle(maxsize, s, n)
    && s.backend.log == Ticks(n) && s.backend.published == Ticks(n)
    && 0 in s.clients && s.clients[0].conn.Online? && s.clients[0].conn.stage == S.Streaming([])
    && s.clients[0].conn.queue == Queue(Ticks(Min(n, maxsize)), [], Ticks(n))
  }

  lemma StartStreaming(maxsize: nat) returns (s: State)
    requires maxsize > 0
    ensures Flooded(maxsize, s, 0)
  {
    assert Legal(maxsize, START, []) && Exec(maxsize, START, []) == START;
    var s0 := OneStep(maxsize, START, NewBrowser(0));
    ReconnectHeals(maxsize, s0, 0, []);
    ReachFurther(maxsize, s0, Reconnect(0, []));
    s := As(s0, 0, JustShown([]));
  }

  lemma FloodOneMore(maxsize: nat, s: State, n: nat) returns (s': State)
    requires maxsize > 0 && Flooded(maxsize, s, n)
    ensures Flooded(maxsize, s', n + 1)
  {
    s' := ServeOne(maxsize, s, n, Tick(n));
    assert Ticks(n + 1) == Ticks(n) + [Tick(n)];
    assert s'.clients[0] == S.Offered(maxsize, s.clients[0], Tick(n));
    if n < maxsize {
      assert Ticks(Min(n + 1, maxsize)) == Ticks(n) + [Tick(n)];
    }
  }

  lemma {:induction false} Flood(maxsize: nat, n: nat) returns (s: State)
    requires maxsize > 0
    ensures Flooded(maxsize, s, n)
  {
    if n == 0 {
      s := StartStreaming(maxsize);
    } else {
      var before := Flood(maxsize, n - 1);
      s := FloodOneMore(maxsize, before, n - 1);
    }
  }

  lemma TicksReach(n: nat)
    requires n > 0
    ensures "tag" in Fold(map[], Ticks(n)) && Fold(map[], Ticks(n))["tag"].ts == n - 1
    ensures forall p :: p in Ticks(n) ==> p.ts >= 0
  {
    FoldMax(map[], Ticks(n), "tag");
    assert Ticks(n)[n - 1] == Tick(n - 1);
  }

  lemma FloodedThenDrained(maxsize: nat, s: State)
    requires maxsize > 0 && Reachable(maxsize, s) && s.backend.log == Ticks(maxsize + 1)
    requires 0 in s.clients && S.Drained(s.clients[0]) && s.clients[0].conn.stage == S.Streaming([])
    requires s.clients[0].conn.queue.Accepted() == Ticks(maxsize)
    ensures !SameTimes(s.clients[0].view, s.backend.current)
  {
    TicksReach(maxsize + 1);
    TicksReach(maxsize);
    ReachableInv(maxsize, s);
    ConvergenceUnderDrops(maxsize, s, 0, "tag");
    assert S.SnapshotTable(s.clients[0]) == map[];
  }

  /** Convergence does need the no-drop condition: for every queue bound there is a run without a
      negative timestamp, everything committed being published, after which a drained browser
      still shows an older timestamp than the database. */
  lemma DropsCanLeaveBehind(maxsize: nat) returns (s: State)
    requires maxsize > 0
    ensures Reachable(maxsize, s) && Settled(s.backend)
    ensures forall p :: p in s.backend.log ==> p.ts >= 0
    ensures 0 in s.clients && S.Drained(s.clients[0]) && !SameTimes(s.clients[0].view, s.backend.current)
  {
    var flooded := Flood(maxsize, maxsize + 1);
    var actions := CanDrain(maxsize, flooded, 0);
    ReachFurther(maxsize, flooded, actions);
    s := Exec(maxsize, flooded, actions);
    assert [] + Ticks(maxsize) == Ticks(maxsize);
    FloodedThenDrained(maxsize, s);
    TicksReach(maxsize + 1);
  }

  // The server's filter does cost something.

  /** Convergence does need the condition on timestamps: a run without a drop, everything committed
      being published, after which a drained browser does not show the tag that reported first at
      time -1. */
  lemma NegativeTimeLeavesBehind(maxsize: nat) returns (s: State)
    requires maxsize > 0
    ensures Reachable(maxsize, s) && Quiet(s, 0) && !SameTimes(s.clients[0].view, s.backend.current)
  {
    var p := Position("tag", -1, "");
    var s0 := StartStreaming(maxsize);
    var s1 := ServeOne(maxsize, s0, 0, p);
    assert s1.clients[0] == S.Offered(maxsize, s0.clients[0], p);
    assert s1.clients[0].conn.queue.Accepted() == [p];
    var actions := CanDrain(maxsize, s1, 0);
    ReachFurther(maxsize, s1, actions);
    s := Exec(maxsize, s1, actions);
    HiddenInTheEnd(maxsize, s, p);
  }

  lemma HiddenInTheEnd(maxsize: nat, s: State, p: Position)
    requires Reachable(maxsize, s) && s.backend.log == [p] && s.backend.published == [p] && p.ts < 0
    requires 0 in s.clients && S.Drained(s.clients[0]) && s.clients[0].conn.stage == S.Streaming([])
    requires s.clients[0].conn.queue.Accepted() == [p] == s.clients[0].conn.queue.offered
    ensures Quiet(s, 0) && !SameTimes(s.clients[0].view, s.backend.current)
  {
    ReachableInv(maxsize, s);
    FoldMax(map[], [p], p.tag);
    ConvergenceIff(maxsize, s, 0);
  }
}
