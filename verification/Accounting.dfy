/** Bookkeeping over whole runs: what a queue was offered and dropped since it was subscribed, which
    runs lose an acknowledgement, and what it takes to acknowledge a message whose write failed. */
module Accounting {
  import opened Sequences
  import opened Broadcasting
  import opened Replication
  import opened Scenarios
  import S = Sessions
  import B = Backend

  // Queues.

  ghost predicate Listening(s: State, id: nat) {
    id in s.clients && s.clients[id].conn.Online? && !s.clients[id].conn.stage.Accepted?
  }

  /** Nothing closes the connection. */
  ghost predicate StaysOpen(actions: seq<Action>, id: nat) {
    forall i :: 0 <= i < |actions| ==> actions[i] != Move(id, S.Close) && actions[i] != Backstage(B.Restart)
  }

  /** The action is a publication that meets the connection's queue holding exactly the bound. */
  ghost predicate DropsFor(maxsize: int, s: State, a: Action, id: nat) {
    && a.Backstage? && a.step.Publish? && Listening(s, id)
    && maxsize > 0 && |s.clients[id].conn.queue.items| == maxsize
  }

  ghost function DroppedFor(maxsize: int, s: State, actions: seq<Action>, id: nat): nat
    requires Legal(maxsize, s, actions)
    decreases |actions|
  {
    if actions == [] then 0
    else (if DropsFor(maxsize, s, actions[0], id) then 1 else 0) + DroppedFor(maxsize, Do(maxsize, s, actions[0]), actions[1..], id)
  }

  function Outstanding(q: Queue): nat {
    |q.taken| + |q.items|
  }

  /** Between two states the queue of a listening connection was offered exactly what was published,
      and of that took in all but `drops`. */
  ghost predicate Accounts(s: State, s': State, id: nat, drops: nat) {
    && Listening(s, id) && Listening(s', id) && s.backend.published <= s'.backend.published
    && s'.clients[id].conn.queue.offered == s.clients[id].conn.queue.offered + s'.backend.published[|s.backend.published|..]
    && Outstanding(s'.clients[id].conn.queue) + drops
       == Outstanding(s.clients[id].conn.queue) + |s'.backend.published| - |s.backend.published|
  }

  lemma AccountsAdd(s: State, s': State, s'': State, id: nat, drops: nat, drops': nat)
    requires Accounts(s, s', id, drops) && Accounts(s', s'', id, drops')
    ensures Accounts(s, s'', id, drops + drops')
  {
    var n, n' := |s.backend.published|, |s'.backend.published|;
    assert s''.backend.published[n..] == s'.backend.published[n..] + s''.backend.published[n'..];
  }

  lemma NothingPublished(s: State, s': State, id: nat)
    requires Listening(s, id) && Listening(s', id) && s'.backend.published == s.backend.published
    requires s'.clients[id].conn.queue.offered == s.clients[id].conn.queue.offered
    requires Outstanding(s'.clients[id].conn.queue) == Outstanding(s.clients[id].conn.queue)
    ensures Accounts(s, s', id, 0)
  {
  }

  lemma PublishAccounts(maxsize: int, s: State, step: B.Step, id: nat)
    requires Listening(s, id) && S.Plumbing(maxsize, s.clients[id]) && step.Publish? && Can(s, Backstage(step))
    ensures Accounts(s, Do(maxsize, s, Backstage(step)), id, if DropsFor(maxsize, s, Backstage(step), id) then 1 else 0)
  {
    var s' := Do(maxsize, s, Backstage(step));
    assert s'.backend.published[|s.backend.published|..] == [B.BodyOf(s.backend, step.tag).p];
  }

  lemma MoveAccounts(maxsize: int, s: State, move: S.Move, id: nat)
    requires Listening(s, id) && !move.Close? && Can(s, Move(id, move))
    ensures Accounts(s, Do(maxsize, s, Move(id, move)), id, 0)
  {
    NothingPublished(s, Do(maxsize, s, Move(id, move)), id);
  }

  lemma OtherAccounts(maxsize: int, s: State, a: Action, id: nat)
    requires Listening(s, id) && Can(s, a)
    requires if a.Backstage? then !a.step.Publish? && !a.step.Restart? else a.id != id
    ensures Accounts(s, Do(maxsize, s, a), id, 0)
  {
    NothingPublished(s, Do(maxsize, s, a), id);
  }

  lemma StepAccounts(maxsize: int, s: State, a: Action, id: nat)
    requires Inv(maxsize, s) && Can(s, a) && Listening(s, id) && a != Move(id, S.Close) && a != Backstage(B.Restart)
    ensures Accounts(s, Do(maxsize, s, a), id, if DropsFor(maxsize, s, a, id) then 1 else 0)
  {
    assert S.Plumbing(maxsize, s.clients[id]);
    if a.Backstage? && a.step.Publish? {
      PublishAccounts(maxsize, s, a.step, id);
    } else if a.Move? && a.id == id {
      MoveAccounts(maxsize, s, a.move, id);
    } else {
      assert !a.Backstage? ==> a.id != id;
      OtherAccounts(maxsize, s, a, id);
    }
  }

  lemma {:induction false} RunAccounts(maxsize: int, s: State, actions: seq<Action>, id: nat)
    requires Inv(maxsize, s) && Legal(maxsize, s, actions) && Listening(s, id) && StaysOpen(actions, id)
    ensures Accounts(s, Exec(maxsize, s, actions), id, DroppedFor(maxsize, s, actions, id))
    decreases |actions|
  {
    if actions == [] {
      NothingPublished(s, s, id);
    } else {
      var s' := Do(maxsize, s, actions[0]);
      StepAccounts(maxsize, s, actions[0], id);
      ActionKeepsInv(maxsize, s, actions[0]);
      RunAccounts(maxsize, s', actions[1..], id);
      AccountsAdd(s, s', Exec(maxsize, s', actions[1..]), id, if DropsFor(maxsize, s, actions[0], id) then 1 else 0,
                  DroppedFor(maxsize, s', actions[1..], id));
    }
  }

  lemma SubscribeListens(maxsize: int, s: State, id: nat)
    requires Inv(maxsize, s) && Can(s, Move(id, S.Subscribe))
    ensures var s0 := Do(maxsize, s, Move(id, S.Subscribe));
            && Inv(maxsize, s0) && Listening(s0, id) && s0.clients[id].conn.queue == EMPTY_QUEUE
            && s0.backend == s.backend
  {
    ActionKeepsInv(maxsize, s, Move(id, S.Subscribe));
    assert S.Plumbing(maxsize, s.clients[id]);
  }

  /** From the moment a connection subscribes and for as long as it stays open, whatever else goes on:
      its queue was offered exactly what was published since; consumed then queued is an in-order
      subsequence of that; and published = consumed + queued + dropped, where each drop is a
      publication that met exactly the bound outstanding. */
  lemma QueueAccounting(maxsize: int, s: State, actions: seq<Action>, id: nat)
    requires Reachable(maxsize, s) && Can(s, Move(id, S.Subscribe))
    requires Legal(maxsize, Do(maxsize, s, Move(id, S.Subscribe)), actions) && StaysOpen(actions, id)
    ensures var s0 := Do(maxsize, s, Move(id, S.Subscribe));
            var s' := Exec(maxsize, s0, actions);
            && Listening(s', id) && s.backend.published <= s'.backend.published
            && var since, q := s'.backend.published[|s.backend.published|..], s'.clients[id].conn.queue;
               && q.offered == since
               && Subsequence(q.taken + q.items, since)
               && |since| == |q.taken| + |q.items| + DroppedFor(maxsize, s0, actions, id)
  {
    var s0 := Do(maxsize, s, Move(id, S.Subscribe));
    ReachableInv(maxsize, s);
    SubscribeListens(maxsize, s, id);
    RunAccounts(maxsize, s0, actions, id);
    RunKeepsInv(maxsize, s0, actions);
    var s' := Exec(maxsize, s0, actions);
    assert S.Plumbing(maxsize, s'.clients[id]);
    assert [] + s'.backend.published[|s.backend.published|..] == s'.backend.published[|s.backend.published|..];
  }

  // One browser among others.

  /** The action of another browser than `id`. */
  predicate Elsewhere(a: Action, id: nat) {
    !a.Backstage? && a.id != id
  }

  /** The run without what other browsers do. */
  function Apart(actions: seq<Action>, id: nat): seq<Action> {
    if actions == [] then []
    else if Elsewhere(actions[0], id) then Apart(actions[1..], id)
    else [actions[0]] + Apart(actions[1..], id)
  }

  /** Two states that differ in other browsers only. */
  ghost predicate Alike(s: State, s': State, id: nat) {
    && s.backend == s'.backend && (id in s.clients <==> id in s'.clients)
    && (id in s.clients ==> s.clients[id] == s'.clients[id])
  }

  lemma ElsewhereChangesNothing(maxsize: int, s: State, a: Action, id: nat)
    requires Can(s, a) && Elsewhere(a, id)
    ensures Alike(Do(maxsize, s, a), s, id)
  {
  }

  lemma StepAlike(maxsize: int, s: State, s': State, a: Action, id: nat)
    requires Alike(s, s', id) && Can(s, a) && !Elsewhere(a, id)
    ensures Can(s', a) && Alike(Do(maxsize, s, a), Do(maxsize, s', a), id)
  {
  }

  /** Isolation: leaving out of any run whatever other browsers do, however slow or fast they are and
      whether they are there at all, gives a run that ends with the same backend and with the same
      map, queue and socket for browser `id`. */
  lemma {:induction false} OthersDoNotMatter(maxsize: int, s: State, s': State, actions: seq<Action>, id: nat)
    requires Alike(s, s', id) && Legal(maxsize, s, actions)
    ensures Legal(maxsize, s', Apart(actions, id))
    ensures Alike(Exec(maxsize, s, actions), Exec(maxsize, s', Apart(actions, id)), id)
    decreases |actions|
  {
    if actions != [] {
      var a, rest := actions[0], Apart(actions[1..], id);
      if Elsewhere(a, id) {
        ElsewhereChangesNothing(maxsize, s, a, id);
        OthersDoNotMatter(maxsize, Do(maxsize, s, a), s', actions[1..], id);
      } else {
        StepAlike(maxsize, s, s', a, id);
        OthersDoNotMatter(maxsize, Do(maxsize, s, a), Do(maxsize, s', a), actions[1..], id);
        assert ([a] + rest)[0] == a && ([a] + rest)[1..] == rest;
      }
    }
  }

  // Acknowledgements.

  /** The action gives up a finished handling whose channel is gone. */
  ghost predicate LosesAck(s: State, a: Action) {
    a.Backstage? && a.step.Abandon? && a.step.tag in s.backend.handlers && s.backend.handlers[a.step.tag].phase == B.Done
  }

  ghost predicate NoRestart(actions: seq<Action>) {
    forall i :: 0 <= i < |actions| ==> actions[i] != Backstage(B.Restart)
  }

  /** An acknowledgement is lost in the run, and no restart after it clears the counters. */
  ghost predicate AckLost(maxsize: int, s: State, actions: seq<Action>)
    requires Legal(maxsize, s, actions)
    decreases |actions|
  {
    actions != [] &&
    ((LosesAck(s, actions[0]) && NoRestart(actions[1..])) || AckLost(maxsize, Do(maxsize, s, actions[0]), actions[1..]))
  }

  lemma StepCountsLost(maxsize: int, s: State, a: Action)
    requires Can(s, a)
    ensures Do(maxsize, s, a).backend.counters.unackable > 0
            <==> LosesAck(s, a) || (s.backend.counters.unackable > 0 && a != Backstage(B.Restart))
  {
  }

  lemma {:induction false} RunCountsLost(maxsize: int, s: State, actions: seq<Action>)
    requires Legal(maxsize, s, actions)
    ensures Exec(maxsize, s, actions).backend.counters.unackable > 0
            <==> AckLost(maxsize, s, actions) || (s.backend.counters.unackable > 0 && NoRestart(actions))
    decreases |actions|
  {
    if actions != [] {
      StepCountsLost(maxsize, s, actions[0]);
      RunCountsLost(maxsize, Do(maxsize, s, actions[0]), actions[1..]);
      assert NoRestart(actions) <==> actions[0] != Backstage(B.Restart) && NoRestart(actions[1..]) by {
        assert actions == [actions[0]] + actions[1..];
      }
    }
  }

  /** With no handler mid-flight, acknowledgements equal processed + malformed + tag-less if and only
      if no finished handling was given up for want of its channel since the last restart. */
  lemma AcksEqualOutcomesIff(maxsize: int, actions: seq<Action>)
    requires Legal(maxsize, START, actions) && Exec(maxsize, START, actions).backend.handlers == map[]
    ensures var c := Exec(maxsize, START, actions).backend.counters;
            c.acks == c.processed + c.malformedJson + c.missingTagId <==> !AckLost(maxsize, START, actions)
  {
    AcksAddUp(maxsize, Exec(maxsize, START, actions));
    RunCountsLost(maxsize, START, actions);
  }

  lemma GiveUp(maxsize: int, s: State, tag: nat) returns (s': State)
    requires Reachable(maxsize, s) && s.backend.handlers.Keys == {tag} && B.At(s.backend, tag, B.Done) && !s.backend.handlers[tag].live
    ensures Reachable(maxsize, s') && s'.backend.handlers == map[] && s'.backend.counters.unackable > 0
  {
    s' := OneStep(maxsize, s, Backstage(B.Abandon(tag)));
    assert s'.backend.handlers.Keys == {};
  }

  /** The only handler publishes, and then its channel goes away. */
  lemma LoseAck(maxsize: int, s: State, tag: nat) returns (s': State)
    requires Reachable(maxsize, s) && Can(s, Backstage(B.Publish(tag))) && s.backend.handlers.Keys == {tag}
    ensures Reachable(maxsize, s') && s'.backend.handlers == map[]
    ensures s'.backend.counters.unackable > 0
  {
    var s1 := OneStep(maxsize, s, Backstage(B.Publish(tag)));
    assert s1.backend.handlers.Keys == {tag};
    var s2 := OneStep(maxsize, s1, Backstage(B.ChannelLost));
    assert s2.backend.handlers.Keys == {tag};
    s' := GiveUp(maxsize, s2, tag);
  }

  lemma ProducedOne(maxsize: int) returns (s: State)
    ensures Reachable(maxsize, s) && s.backend.handlers == map[] && CanHandle(s, 0, 0) && s.backend.bodies[0].Valid?
  {
    assert Legal(maxsize, START, []) && Exec(maxsize, START, []) == START;
    s := OneStep(maxsize, START, Backstage(B.Produce(0, B.Valid(Tick(0)))));
    assert B.LiveTags(s.backend) == {};
  }

  lemma WithOne(s: State, msg: nat, tag: nat, phase: B.Phase)
    requires s.backend.handlers == map[]
    ensures With(s, msg, tag, phase).backend.handlers.Keys == {tag}
  {
  }

  lemma AboutToPublish(maxsize: int) returns (s: State)
    ensures Reachable(maxsize, s) && Can(s, Backstage(B.Publish(0))) && s.backend.handlers.Keys == {0}
  {
    var s1 := ProducedOne(maxsize);
    var s2 := Stored(s1, s1.backend.bodies[0].p);
    ReachesCommitted(maxsize, s1, 0, 0);
    ReachFurther(maxsize, s1, Starting(0, 0) + [Backstage(B.Commit(0))]);
    s := With(s2, 0, 0, B.Committed);
    WithOne(s2, 0, 0, B.Committed);
    PublishStep(maxsize, s2, 0, 0);
  }

  /** The balance can fail: a run that processes a message and loses the channel before acknowledging. */
  lemma AckCanBeLost(maxsize: int) returns (s: State)
    ensures Reachable(maxsize, s) && s.backend.handlers == map[]
    ensures var c := s.backend.counters; c.acks != c.processed + c.malformedJson + c.missingTagId
  {
    var s1 := AboutToPublish(maxsize);
    s := LoseAck(maxsize, s1, 0);
    AcksAddUp(maxsize, s);
  }

  // What each counter counts.

  datatype Outcome = Processed | MalformedJson | MissingTagId | DbError | Acked

  ghost predicate Counts(s: State, a: Action, o: Outcome) {
    a.Backstage? &&
    match o
    case Processed => a.step.Publish?
    case MalformedJson => a.step.Decode? && B.At(s.backend, a.step.tag, B.Received) && B.BodyOf(s.backend, a.step.tag).NotJson?
    case MissingTagId => a.step.Decode? && B.At(s.backend, a.step.tag, B.Received) && B.BodyOf(s.backend, a.step.tag).NoTagId?
    case DbError => a.step.WriteFails? || a.step.CommitUnconfirmed?
    case Acked => a.step.Ack?
  }

  function Counter(c: B.Counters, o: Outcome): nat {
    match o
    case Processed => c.processed
    case MalformedJson => c.malformedJson
    case MissingTagId => c.missingTagId
    case DbError => c.dbError
    case Acked => c.acks
  }

  ghost function Occurrences(maxsize: int, s: State, actions: seq<Action>, o: Outcome): nat
    requires Legal(maxsize, s, actions)
    decreases |actions|
  {
    if actions == [] then 0
    else (if Counts(s, actions[0], o) then 1 else 0) + Occurrences(maxsize, Do(maxsize, s, actions[0]), actions[1..], o)
  }

  lemma StepCounts(maxsize: int, s: State, a: Action, o: Outcome)
    requires Can(s, a) && a != Backstage(B.Restart)
    ensures Counter(Do(maxsize, s, a).backend.counters, o) == Counter(s.backend.counters, o) + if Counts(s, a, o) then 1 else 0
  {
  }

  /** Between restarts every counter goes up by one exactly when what it is named after happens: a
      publication, a body that is not JSON, one without a tag, a write that fails, an acknowledgement. */
  lemma {:induction false} CountersCount(maxsize: int, s: State, actions: seq<Action>, o: Outcome)
    requires Legal(maxsize, s, actions) && NoRestart(actions)
    ensures Counter(Exec(maxsize, s, actions).backend.counters, o)
            == Counter(s.backend.counters, o) + Occurrences(maxsize, s, actions, o)
    decreases |actions|
  {
    if actions != [] {
      assert NoRestart(actions[1..]) && actions[0] != Backstage(B.Restart);
      StepCounts(maxsize, s, actions[0], o);
      CountersCount(maxsize, Do(maxsize, s, actions[0]), actions[1..], o);
    }
  }

  // After a failed write.

  /** Some action of the run commits the message. */
  ghost predicate CommitsMessage(maxsize: int, s: State, actions: seq<Action>, msg: nat)
    requires Legal(maxsize, s, actions)
    decreases |actions|
  {
    actions != [] && (Commits(s, actions[0], msg) || CommitsMessage(maxsize, Do(maxsize, s, actions[0]), actions[1..], msg))
  }

  ghost predicate Commits(s: State, a: Action, msg: nat) {
    a.Backstage? && a.step.Commit? && a.step.tag in s.backend.handlers && s.backend.handlers[a.step.tag].msg == msg
  }

  /** The message may be stored at all, is not acknowledged, and no live handler has stored it. */
  ghost predicate Unstored(b: B.Backend, msg: nat) {
    && msg in b.bodies && !b.bodies[msg].NotJson? && !b.bodies[msg].NoTagId? && msg !in b.acked
    && forall t :: t in b.handlers && b.handlers[t].live && b.handlers[t].msg == msg
                   ==> b.handlers[t].phase != B.Committed && b.handlers[t].phase != B.Done
  }

  /** No live handler of the message becomes one that has stored it. */
  lemma HandlerStaysUnstored(b: B.Backend, step: B.Step, msg: nat, t: nat)
    requires B.Enabled(b, step) && Unstored(b, msg) && t in B.After(b, step).handlers
    requires step.Commit? ==> b.handlers[step.tag].msg != msg
    requires B.After(b, step).handlers[t].live && B.After(b, step).handlers[t].msg == msg
    ensures B.After(b, step).handlers[t].phase != B.Committed && B.After(b, step).handlers[t].phase != B.Done
  {
  }

  lemma StaysUnacked(b: B.Backend, step: B.Step, msg: nat)
    requires B.Enabled(b, step) && Unstored(b, msg)
    ensures msg in B.After(b, step).bodies && B.After(b, step).bodies[msg] == b.bodies[msg] && msg !in B.After(b, step).acked
  {
  }

  lemma StepKeepsUnstored(maxsize: int, s: State, a: Action, msg: nat)
    requires Can(s, a) && Unstored(s.backend, msg) && !Commits(s, a, msg)
    ensures Unstored(Do(maxsize, s, a).backend, msg)
  {
    if a.Backstage? {
      var b' := B.After(s.backend, a.step);
      StaysUnacked(s.backend, a.step, msg);
      forall t | t in b'.handlers && b'.handlers[t].live && b'.handlers[t].msg == msg
        ensures b'.handlers[t].phase != B.Committed && b'.handlers[t].phase != B.Done
      {
        HandlerStaysUnstored(s.backend, a.step, msg, t);
      }
    }
  }

  lemma {:induction false} RunKeepsUnstored(maxsize: int, s: State, actions: seq<Action>, msg: nat)
    requires Legal(maxsize, s, actions) && Unstored(s.backend, msg) && !CommitsMessage(maxsize, s, actions, msg)
    ensures msg !in Exec(maxsize, s, actions).backend.acked
    decreases |actions|
  {
    if actions != [] {
      StepKeepsUnstored(maxsize, s, actions[0], msg);
      RunKeepsUnstored(maxsize, Do(maxsize, s, actions[0]), actions[1..], msg);
    }
  }

  /** A message whose handler failed is not acknowledged, and whatever happens afterwards it is not
      acknowledged before a handler commits it. */
  lemma FailedNeedsRetry(maxsize: int, s: State, tag: nat, actions: seq<Action>)
    requires Reachable(maxsize, s) && Legal(maxsize, s, actions)
    requires tag in s.backend.handlers && s.backend.handlers[tag].phase == B.Failed && s.backend.handlers[tag].live
    ensures var msg := s.backend.handlers[tag].msg;
            && msg !in s.backend.acked
            && (msg in Exec(maxsize, s, actions).backend.acked ==> CommitsMessage(maxsize, s, actions, msg))
  {
    ReachableInv(maxsize, s);
    var msg := s.backend.handlers[tag].msg;
    assert B.PhaseFits(s.backend, s.backend.handlers[tag]);
    if !CommitsMessage(maxsize, s, actions, msg) {
      RunKeepsUnstored(maxsize, s, actions, msg);
    }
  }
}
