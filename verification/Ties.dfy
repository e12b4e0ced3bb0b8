/** Different records with equal timestamps: the database keeps the one committed last, a browser
    the one published last, and commits and publications of concurrent handlers may cross. */
module Ties {
  import opened Positions
  import opened Broadcasting
  import opened Replication
  import opened Scenarios
  import opened Settling
  import S = Sessions
  import B = Backend

  // In one state.

  /** What a session's browser got to know of a tag: its row of the snapshot, then what the queue
      accepted. */
  function Received(c: S.Client, tag: Tag): seq<Position>
    requires S.HasRows(c)
  {
    RowOf(S.SnapshotTable(c), tag) + c.conn.queue.Accepted()
  }

  /** The last received of a tag's newest records is the last committed of them. */
  ghost predicate SameLast(s: State, id: nat, tag: Tag)
    requires id in s.clients && S.HasRows(s.clients[id])
  {
    forall i: nat, j: nat :: Latest(Received(s.clients[id], tag), tag, i) && Latest(s.backend.log, tag, j)
                   ==> Received(s.clients[id], tag)[i] == s.backend.log[j]
  }

  lemma SameLastIff(maxsize: int, s: State, id: nat, tag: Tag)
    requires Reachable(maxsize, s) && Quiet(s, id) && (forall p :: p in s.backend.log ==> p.ts >= 0)
    requires tag in s.backend.current
    ensures tag in s.clients[id].view
    ensures s.clients[id].view[tag] == s.backend.current[tag] <==> SameLast(s, id, tag)
  {
    var c := s.clients[id];
    ReachableInv(maxsize, s);
    Convergence(maxsize, s, id);
    ConvergenceUnderDrops(maxsize, s, id, tag);
    FoldFromRow(S.SnapshotTable(c), c.conn.queue.Accepted(), tag);
    SameRow(c.view, Fold(map[], Received(c, tag)), tag);
    SameLatestIff(Received(c, tag), s.backend.log, tag);
  }

  /** Record by record: a drained, drop-free browser shows exactly the database's table if and only
      if for every tag the last received of the newest records is the last committed. */
  lemma RecordsAgreeIff(maxsize: int, s: State, id: nat)
    requires Reachable(maxsize, s) && Quiet(s, id) && (forall p :: p in s.backend.log ==> p.ts >= 0)
    ensures s.clients[id].view == s.backend.current <==> forall tag :: tag in s.backend.current ==> SameLast(s, id, tag)
  {
    Convergence(maxsize, s, id);
    forall tag | tag in s.backend.current
      ensures s.clients[id].view[tag] == s.backend.current[tag] <==> SameLast(s, id, tag)
    {
      SameLastIff(maxsize, s, id, tag);
    }
    assert s.clients[id].view.Keys == s.backend.current.Keys;
  }

  // A run in which a tie leaves them different.

  lemma ServeAll(maxsize: int, ps: seq<Position>) returns (s: State)
    ensures Idle(maxsize, s, |ps|) && s.clients == map[] && s.backend.log == ps
  {
    if ps == [] {
      assert Legal(maxsize, START, []) && Exec(maxsize, START, []) == START;
      s := START;
    } else {
      var n := |ps| - 1;
      var before := ServeAll(maxsize, ps[..n]);
      s := ServeOne(maxsize, before, n, ps[n]);
      assert ps == ps[..n] + [ps[n]];
    }
  }

  lemma TakeToWriting(maxsize: int, s: State, msg: nat, tag: nat) returns (s': State)
    requires Reachable(maxsize, s) && CanHandle(s, msg, tag) && s.backend.bodies[msg].Valid?
    ensures Reachable(maxsize, s') && s' == With(s, msg, tag, B.Writing)
  {
    ReachesWriting(maxsize, s, msg, tag);
    ReachFurther(maxsize, s, Starting(msg, tag));
    s' := With(s, msg, tag, B.Writing);
  }

  /** Two handlers, for messages `n` and `n + 1`. */
  function Both(n: nat, phase: B.Phase, phase': B.Phase): map<nat, B.Handler> {
    map[0 := B.Handler(n, true, phase), 1 := B.Handler(n + 1, true, phase')]
  }

  /** Two messages that were written in this order and are both about to be announced. */
  ghost predicate Racing(s: State, s': State, n: nat, p: Position, q: Position) {
    && s'.clients == s.clients
    && s'.backend.bodies == s.backend.bodies[n := B.Valid(p)][n + 1 := B.Valid(q)]
    && s'.backend.acked == s.backend.acked
    && s'.backend.log == s.backend.log + [p, q]
    && s'.backend.current == Upsert(Upsert(s.backend.current, p), q)
    && s'.backend.handlers == Both(n, B.Committed, B.Committed)
  }

  lemma BothProduced(maxsize: int, s: State, n: nat, p: Position, q: Position) returns (s': State)
    requires Idle(maxsize, s, n)
    ensures Reachable(maxsize, s')
    ensures s' == s.(backend := s.backend.(bodies := s.backend.bodies[n := B.Valid(p)][n + 1 := B.Valid(q)],
                                           ready := s.backend.ready + {n} + {n + 1}))
  {
    var s1 := OneStep(maxsize, s, Backstage(B.Produce(n, B.Valid(p))));
    s' := OneStep(maxsize, s1, Backstage(B.Produce(n + 1, B.Valid(q))));
  }

  lemma BothWriting(maxsize: int, s: State, n: nat) returns (s': State)
    requires Reachable(maxsize, s) && s.backend.handlers == map[] && n in s.backend.ready && n + 1 in s.backend.ready
    requires n in s.backend.bodies && s.backend.bodies[n].Valid? && n + 1 in s.backend.bodies && s.backend.bodies[n + 1].Valid?
    ensures Reachable(maxsize, s')
    ensures s' == s.(backend := s.backend.(ready := s.backend.ready - {n} - {n + 1}, handlers := Both(n, B.Writing, B.Writing)))
  {
    assert B.LiveTags(s.backend) == {};
    var s1 := TakeToWriting(maxsize, s, n, 0);
    assert B.LiveTags(s1.backend) == {0};
    s' := TakeToWriting(maxsize, s1, n + 1, 1);
  }

  lemma FirstWritten(maxsize: int, s: State, n: nat) returns (s': State)
    requires Reachable(maxsize, s) && s.backend.handlers == Both(n, B.Writing, B.Writing)
    requires n in s.backend.bodies && s.backend.bodies[n].Valid?
    ensures Reachable(maxsize, s')
    ensures s' == s.(backend := B.Written(s.backend, s.backend.bodies[n].p).(handlers := Both(n, B.Committed, B.Writing)))
  {
    s' := OneStep(maxsize, s, Backstage(B.Commit(0)));
    assert s'.backend.handlers == Both(n, B.Committed, B.Writing);
  }

  lemma SecondWritten(maxsize: int, s: State, n: nat) returns (s': State)
    requires Reachable(maxsize, s) && s.backend.handlers == Both(n, B.Committed, B.Writing)
    requires n + 1 in s.backend.bodies && s.backend.bodies[n + 1].Valid?
    ensures Reachable(maxsize, s')
    ensures s' == s.(backend := B.Written(s.backend, s.backend.bodies[n + 1].p).(handlers := Both(n, B.Committed, B.Committed)))
  {
    s' := OneStep(maxsize, s, Backstage(B.Commit(1)));
    assert s'.backend.handlers == Both(n, B.Committed, B.Committed);
  }

  lemma Race(maxsize: int, s: State, n: nat, p: Position, q: Position) returns (s': State)
    requires Idle(maxsize, s, n)
    ensures Reachable(maxsize, s') && Racing(s, s', n, p, q)
  {
    var s1 := BothProduced(maxsize, s, n, p, q);
    var s2 := BothWriting(maxsize, s1, n);
    var s3 := FirstWritten(maxsize, s2, n);
    s' := SecondWritten(maxsize, s3, n);
    assert s.backend.log + [p, q] == (s.backend.log + [p]) + [q];
  }

  /** Announced in the other order than they were written. */
  /** Both messages of a race are acknowledged, and so are the others before it. */
  lemma RaceHandled(maxsize: int, s: State, s1: State, s': State, n: nat, p: Position, q: Position)
    requires Idle(maxsize, s, n) && Racing(s, s1, n, p, q)
    requires s'.backend.bodies == s1.backend.bodies && s'.backend.acked == s1.backend.acked + {n + 1} + {n}
    ensures AllHandled(s'.backend)
  {
  }

  lemma RaceWithoutSecond(n: nat)
    ensures Both(n, B.Committed, B.Committed) - {1} == map[0 := B.Handler(n, true, B.Committed)]
  {
  }

  /** The second message is announced first. */
  lemma SecondAnnounced(maxsize: int, s: State, s1: State, id: nat, n: nat, p: Position, q: Position) returns (s': State)
    requires Reachable(maxsize, s1) && Racing(s, s1, n, p, q) && Following(s1, id) && s1.clients[id].conn.queue == EMPTY_QUEUE
    ensures Reachable(maxsize, s') && Following(s', id) && s'.clients[id].conn.stage == s1.clients[id].conn.stage
    ensures s'.backend.log == s1.backend.log && s'.backend.current == s1.backend.current && s'.backend.bodies == s1.backend.bodies
    ensures s'.backend.acked == s1.backend.acked + {n + 1} && s'.backend.handlers == map[0 := B.Handler(n, true, B.Committed)]
    ensures s'.clients[id].conn.queue.Accepted() == [q] == s'.clients[id].conn.queue.offered
  {
    s' := AnnounceAndDrain(maxsize, s1, id, 1);
    RaceWithoutSecond(n);
  }

  lemma RaceAnnounced(maxsize: int, s: State, s1: State, id: nat, n: nat, p: Position, q: Position) returns (s': State)
    requires Reachable(maxsize, s1) && Racing(s, s1, n, p, q) && Following(s1, id) && s1.clients[id].conn.queue == EMPTY_QUEUE
    ensures Reachable(maxsize, s') && s'.backend.log == s1.backend.log && s'.backend.current == s1.backend.current
    ensures s'.backend.bodies == s1.backend.bodies && s'.backend.acked == s1.backend.acked + {n + 1} + {n}
    ensures id in s'.clients && S.Drained(s'.clients[id]) && s'.clients[id].conn.stage == s1.clients[id].conn.stage
    ensures s'.clients[id].conn.queue.Accepted() == [q, p] == s'.clients[id].conn.queue.offered
  {
    var s2 := SecondAnnounced(maxsize, s, s1, id, n, p, q);
    s' := AnnounceAndDrain(maxsize, s2, id, 0);
  }

  lemma AnnounceCrossed(maxsize: int, s: State, id: nat, n: nat, p: Position, q: Position) returns (s': State)
    requires Idle(maxsize, s, n) && Following(s, id) && s.clients[id].conn.queue == EMPTY_QUEUE
    ensures Reachable(maxsize, s') && AllHandled(s'.backend) && s'.backend.log == s.backend.log + [p, q]
    ensures s'.backend.current == Upsert(Upsert(s.backend.current, p), q)
    ensures id in s'.clients && S.Drained(s'.clients[id]) && s'.clients[id].conn.stage == s.clients[id].conn.stage
    ensures s'.clients[id].conn.queue.Accepted() == [q, p] == s'.clients[id].conn.queue.offered
  {
    var s1 := Race(maxsize, s, n, p, q);
    s' := RaceAnnounced(maxsize, s, s1, id, n, p, q);
    RaceHandled(maxsize, s, s1, s', n, p, q);
  }

  /** A run whose messages are `ps` has ended: all of them are acknowledged, and browser `id` is
      drained and lost nothing. */
  ghost predicate Ends(maxsize: int, s: State, id: nat, ps: seq<Position>) {
    && Reachable(maxsize, s) && AllHandled(s.backend) && (forall p :: B.MessageOf(s.backend, p) <==> p in ps)
    && id in s.clients && S.Drained(s.clients[id]) && S.NoDrops(s.clients[id])
  }

  lemma LastTwoOfTies(t: Table, p: Position, q: Position)
    requires p.tag == q.tag && p.ts == q.ts && (p.tag in t ==> t[p.tag].ts <= p.ts)
    ensures p.tag in Fold(t, [q, p]) && Fold(t, [q, p])[p.tag] == p
    ensures p.tag in Upsert(Upsert(t, p), q) && Upsert(Upsert(t, p), q)[p.tag] == q
  {
    FoldOne(t, [q], p);
    FoldOne(t, [], q);
    assert [q] + [p] == [q, p] && [] + [q] == [q];
  }

  lemma NewestIsHeld(ps: seq<Position>, p: Position)
    requires Newest(ps, p)
    ensures p.tag in Fold(map[], ps) && Fold(map[], ps)[p.tag].ts == p.ts
  {
    FoldMax(map[], ps, p.tag);
  }

  /** Given messages that tie at a tag's newest time, some run ends with one of them in the table
      and the other on screen, whatever the bound of the queues. */
  lemma TieKeepsApart(maxsize: int, ps: seq<Position>, p: Position, q: Position) returns (s: State)
    requires Newest(ps, p) && q in ps && p.tag == q.tag && p.ts == q.ts
    requires forall r :: r in ps ==> r.ts >= 0
    ensures Ends(maxsize, s, 0, ps)
    ensures p.tag in s.backend.current && s.backend.current[p.tag] == q
    ensures p.tag in s.clients[0].view && s.clients[0].view[p.tag] == p
  {
    var s0 := ServeAll(maxsize, ps);
    var s1 := Arrive(maxsize, s0, 0);
    s := AnnounceCrossed(maxsize, s1, 0, |ps|, p, q);
    ReachableInv(maxsize, s0);
    NewestIsHeld(ps, p);
    LogIsMessages(maxsize, s);
    ConvergenceUnderDrops(maxsize, s, 0, p.tag);
    LastTwoOfTies(s0.backend.current, p, q);
  }

  // Over all runs.

  lemma EndsQuietly(maxsize: int, s: State, id: nat, ps: seq<Position>)
    requires Ends(maxsize, s, id, ps)
    ensures Quiet(s, id) && SameElements(s.backend.log, ps)
  {
    BrokerDrainedSettles(maxsize, s);
    LogIsMessages(maxsize, s);
  }

  lemma EndsAlike(maxsize: int, s: State, id: nat, ps: seq<Position>)
    requires Ends(maxsize, s, id, ps) && TopDetermined(ps) && (forall r :: r in ps ==> r.ts >= 0)
    ensures s.clients[id].view == s.backend.current == Fold(map[], ps)
  {
    EndsQuietly(maxsize, s, id, ps);
    ReachableInv(maxsize, s);
    SameElementsSameTable(ps, s.backend.log);
    Convergence(maxsize, s, id);
  }

  /** Record-level convergence, exactly: every run that handles the messages `ps` ends with the
      database's very records on its drained, drop-free browsers if and only if no two different
      messages tie at a tag's newest time. */
  lemma RecordsConvergeIff(maxsize: int, ps: seq<Position>)
    requires forall r :: r in ps ==> r.ts >= 0
    ensures (forall s, id :: Ends(maxsize, s, id, ps) ==> s.clients[id].view == s.backend.current) <==> TopDetermined(ps)
  {
    if TopDetermined(ps) {
      forall s, id | Ends(maxsize, s, id, ps) ensures s.clients[id].view == s.backend.current {
        EndsAlike(maxsize, s, id, ps);
      }
    } else {
      var p, q :| p in ps && q in ps && p.tag == q.tag && p.ts == q.ts && Newest(ps, p) && p != q;
      var s := TieKeepsApart(maxsize, ps, p, q);
      assert Ends(maxsize, s, 0, ps) && s.clients[0].view != s.backend.current;
    }
  }

  ghost predicate SameScreens(maxsize: int, ps: seq<Position>) {
    forall s, id, s', id' :: Ends(maxsize, s, id, ps) && Ends(maxsize, s', id', ps) ==> s.clients[id].view == s'.clients[id'].view
  }

  /** The same for any two browsers of any two runs over the same messages. */
  lemma ScreensAgreeIff(maxsize: int, ps: seq<Position>)
    requires forall r :: r in ps ==> r.ts >= 0
    ensures SameScreens(maxsize, ps) <==> TopDetermined(ps)
  {
    if TopDetermined(ps) {
      forall s, id, s', id' | Ends(maxsize, s, id, ps) && Ends(maxsize, s', id', ps)
        ensures s.clients[id].view == s'.clients[id'].view
      {
        EndsAlike(maxsize, s, id, ps);
        EndsAlike(maxsize, s', id', ps);
      }
    } else {
      var p, q :| p in ps && q in ps && p.tag == q.tag && p.ts == q.ts && Newest(ps, p) && p != q;
      var s := TieKeepsApart(maxsize, ps, p, q);
      var s' := TieKeepsApart(maxsize, ps, q, p);
      assert Ends(maxsize, s, 0, ps) && Ends(maxsize, s', 0, ps) && s.clients[0].view != s'.clients[0].view;
    }
  }
}
