/** The quiet state that convergence speaks of is never out of reach: from every reachable state the
    backend can finish all its work and a browser can follow it, without a restart or a lost channel. */
module Settling {
  import opened Positions
  import opened Broadcasting
  import opened Snapshots
  import opened Replication
  import opened Scenarios
  import S = Sessions
  import B = Backend

  /** Nothing goes wrong in the run: no restart, no lost channel. */
  ghost predicate Calm(actions: seq<Action>) {
    forall i :: 0 <= i < |actions| ==> actions[i] != Backstage(B.Restart) && actions[i] != Backstage(B.ChannelLost)
  }

  /** A calm run leads from one state to the other. */
  ghost predicate Leads(maxsize: int, s: State, s': State) {
    exists actions :: Legal(maxsize, s, actions) && Calm(actions) && Exec(maxsize, s, actions) == s'
  }

  lemma RunLeads(maxsize: int, s: State, actions: seq<Action>)
    requires Legal(maxsize, s, actions) && Calm(actions)
    ensures Leads(maxsize, s, Exec(maxsize, s, actions))
  {
  }

  lemma LeadsOn(maxsize: int, s: State, s': State, s'': State)
    requires Leads(maxsize, s, s') && Leads(maxsize, s', s'')
    ensures Leads(maxsize, s, s'')
  {
    var a :| Legal(maxsize, s, a) && Calm(a) && Exec(maxsize, s, a) == s';
    var b :| Legal(maxsize, s', b) && Calm(b) && Exec(maxsize, s', b) == s'';
    RunsCompose(maxsize, s, a, b);
    RunLeads(maxsize, s, a + b);
  }

  lemma StepLeads(maxsize: int, s: State, a: Action)
    requires Reachable(maxsize, s) && Can(s, a) && a != Backstage(B.Restart) && a != Backstage(B.ChannelLost)
    ensures Leads(maxsize, s, Do(maxsize, s, a)) && Reachable(maxsize, Do(maxsize, s, a))
  {
    PathRuns(maxsize, [s, Do(maxsize, s, a)], [a]);
    RunLeads(maxsize, s, [a]);
    ReachFurther(maxsize, s, [a]);
  }

  // A browser that follows.

  /** Browser `id` is streaming and has taken all its queue accepted. */
  ghost predicate Following(s: State, id: nat) {
    && id in s.clients && s.clients[id].conn.Online? && s.clients[id].conn.stage.Streaming?
    && s.clients[id].conn.queue.items == []
  }

  /** And it has lost nothing. */
  ghost predicate Attentive(s: State, id: nat) {
    Following(s, id) && S.NoDrops(s.clients[id])
  }

  lemma DrainLeads(maxsize: int, s: State, id: nat) returns (s': State)
    requires Reachable(maxsize, s) && Streams(s, id)
    ensures Leads(maxsize, s, s') && Reachable(maxsize, s') && s'.backend == s.backend
    ensures Following(s', id) && S.Drained(s'.clients[id])
    ensures s'.clients[id].conn.stage == s.clients[id].conn.stage
    ensures s'.clients[id].conn.queue.Accepted() == s.clients[id].conn.queue.Accepted()
    ensures s'.clients[id].conn.queue.offered == s.clients[id].conn.queue.offered
  {
    var actions := CanDrain(maxsize, s, id);
    RunLeads(maxsize, s, actions);
    ReachFurther(maxsize, s, actions);
    s' := Exec(maxsize, s, actions);
  }

  lemma ReconnectLeads(maxsize: int, s: State, id: nat) returns (s': State)
    requires Reachable(maxsize, s) && id in s.clients && s.clients[id].conn.Offline?
    ensures Leads(maxsize, s, s') && Reachable(maxsize, s') && s'.backend == s.backend && Following(s', id)
    ensures var c := s'.clients[id];
            S.SnapshotTable(c) == c.view == s.backend.current && c.conn.queue == EMPTY_QUEUE
  {
    var rows := CurrentHasListing(maxsize, s);
    ReconnectHeals(maxsize, s, id, rows);
    RunLeads(maxsize, s, Reconnect(id, rows));
    ReachFurther(maxsize, s, Reconnect(id, rows));
    s' := As(s, id, JustShown(rows));
  }

  lemma CurrentHasListing(maxsize: int, s: State) returns (rows: seq<Position>)
    requires Reachable(maxsize, s)
    ensures Lists(rows, s.backend.current)
  {
    ReachableInv(maxsize, s);
    FoldDrawn(map[], s.backend.log, s.backend.log);
    rows := TableHasListing(s.backend.current);
  }

  /** A new browser arrives and streams. */
  lemma Arrive(maxsize: int, s: State, id: nat) returns (s': State)
    requires Reachable(maxsize, s) && id !in s.clients
    ensures Reachable(maxsize, s') && s'.backend == s.backend && Following(s', id)
    ensures S.SnapshotTable(s'.clients[id]) == s.backend.current && s'.clients[id].conn.queue == EMPTY_QUEUE
  {
    var s1 := OneStep(maxsize, s, NewBrowser(id));
    s' := ReconnectLeads(maxsize, s1, id);
  }

  /** A browser in whatever condition can start over, and then has lost nothing. */
  lemma StartOver(maxsize: int, s: State, id: nat) returns (s': State)
    requires Reachable(maxsize, s) && id in s.clients
    ensures Leads(maxsize, s, s') && Reachable(maxsize, s') && s'.backend == s.backend && Attentive(s', id)
    ensures s'.clients[id].view == s.backend.current
  {
    if s.clients[id].conn.Online? {
      StepLeads(maxsize, s, Move(id, S.Close));
      var s1 := Do(maxsize, s, Move(id, S.Close));
      s' := ReconnectLeads(maxsize, s1, id);
      LeadsOn(maxsize, s, s1, s');
    } else {
      s' := ReconnectLeads(maxsize, s, id);
    }
  }

  /** One announcement, acknowledged, after which browser `id` drains. */
  lemma AnnounceAndDrain(maxsize: int, s: State, id: nat, tag: nat) returns (s': State)
    requires Reachable(maxsize, s) && Following(s, id) && Can(s, Backstage(B.Publish(tag))) && s.backend.handlers[tag].live
    ensures Leads(maxsize, s, s') && Reachable(maxsize, s') && Following(s', id) && S.Drained(s'.clients[id])
    ensures s'.backend.bodies == s.backend.bodies && s'.backend.log == s.backend.log && s'.backend.current == s.backend.current
    ensures s'.backend.handlers == s.backend.handlers - {tag} && s'.backend.acked == s.backend.acked + {s.backend.handlers[tag].msg}
    ensures s'.clients[id].conn.stage == s.clients[id].conn.stage
    ensures s'.clients[id].conn.queue.Accepted() == s.clients[id].conn.queue.Accepted() + [B.BodyOf(s.backend, tag).p]
    ensures s'.clients[id].conn.queue.offered == s.clients[id].conn.queue.offered + [B.BodyOf(s.backend, tag).p]
  {
    var s2 := Announced(maxsize, s, id, tag);
    OfferAccepted(maxsize, s.clients[id], B.BodyOf(s.backend, tag).p);
    s' := DrainLeads(maxsize, s2, id);
    LeadsOn(maxsize, s, s2, s');
  }

  lemma OfferAccepted(maxsize: int, c: S.Client, p: Position)
    requires c.conn.Online? && c.conn.stage.Streaming? && c.conn.queue.items == []
    ensures S.Offered(maxsize, c, p).conn.Online? && S.Offered(maxsize, c, p).conn.stage == c.conn.stage
    ensures S.Offered(maxsize, c, p).conn.queue.Accepted() == c.conn.queue.Accepted() + [p]
    ensures S.Offered(maxsize, c, p).conn.queue.offered == c.conn.queue.offered + [p]
  {
  }

  lemma PublishLeads(maxsize: int, s: State, id: nat, tag: nat) returns (s': State)
    requires Reachable(maxsize, s) && id in s.clients && Can(s, Backstage(B.Publish(tag)))
    ensures Leads(maxsize, s, s') && Reachable(maxsize, s')
    ensures s'.backend.bodies == s.backend.bodies && s'.backend.log == s.backend.log && s'.backend.current == s.backend.current
    ensures s'.backend.handlers == s.backend.handlers[tag := s.backend.handlers[tag].(phase := B.Done)]
    ensures s'.backend.acked == s.backend.acked
    ensures id in s'.clients && s'.clients[id] == S.Offered(maxsize, s.clients[id], B.BodyOf(s.backend, tag).p)
  {
    StepLeads(maxsize, s, Backstage(B.Publish(tag)));
    s' := Do(maxsize, s, Backstage(B.Publish(tag)));
  }

  lemma AckLeads(maxsize: int, s: State, tag: nat) returns (s': State)
    requires Reachable(maxsize, s) && Can(s, Backstage(B.Ack(tag)))
    ensures Leads(maxsize, s, s') && Reachable(maxsize, s') && s'.clients == s.clients
    ensures s'.backend.bodies == s.backend.bodies && s'.backend.log == s.backend.log && s'.backend.current == s.backend.current
    ensures s'.backend.handlers == s.backend.handlers - {tag} && s'.backend.acked == s.backend.acked + {s.backend.handlers[tag].msg}
  {
    StepLeads(maxsize, s, Backstage(B.Ack(tag)));
    s' := Do(maxsize, s, Backstage(B.Ack(tag)));
  }

  lemma ReenteredGone(handlers: map<nat, B.Handler>, tag: nat, h: B.Handler)
    ensures handlers[tag := h] - {tag} == handlers - {tag}
  {
  }

  lemma Announced(maxsize: int, s: State, id: nat, tag: nat) returns (s': State)
    requires Reachable(maxsize, s) && Following(s, id) && Can(s, Backstage(B.Publish(tag))) && s.backend.handlers[tag].live
    ensures Leads(maxsize, s, s') && Reachable(maxsize, s')
    ensures s'.backend.bodies == s.backend.bodies && s'.backend.log == s.backend.log && s'.backend.current == s.backend.current
    ensures s'.backend.handlers == s.backend.handlers - {tag} && s'.backend.acked == s.backend.acked + {s.backend.handlers[tag].msg}
    ensures id in s'.clients && s'.clients[id] == S.Offered(maxsize, s.clients[id], B.BodyOf(s.backend, tag).p)
  {
    var s1 := PublishLeads(maxsize, s, id, tag);
    s' := AckLeads(maxsize, s1, tag);
    ReenteredGone(s.backend.handlers, tag, s.backend.handlers[tag].(phase := B.Done));
    LeadsOn(maxsize, s, s1, s');
  }

  // The backend.

  /** A handler is finished: the others go on, nothing acknowledged is lost, the browser keeps up. */
  ghost predicate Finished(maxsize: int, s: State, s': State, id: nat, tag: nat) {
    && Leads(maxsize, s, s') && Reachable(maxsize, s') && Attentive(s', id)
    && s'.backend.bodies == s.backend.bodies && s.backend.acked <= s'.backend.acked
    && s'.backend.handlers == s.backend.handlers - {tag}
  }

  /** A step of handler `tag` only, which no browser notices. */
  ghost predicate Advanced(maxsize: int, s: State, s': State, id: nat, tag: nat) {
    && Leads(maxsize, s, s') && Reachable(maxsize, s') && Attentive(s', id)
    && s'.backend.bodies == s.backend.bodies && s.backend.acked <= s'.backend.acked
    && tag in s'.backend.handlers && s'.backend.handlers - {tag} == s.backend.handlers - {tag}
  }

  lemma FinishLater(maxsize: int, s: State, s': State, s'': State, id: nat, tag: nat)
    requires Advanced(maxsize, s, s', id, tag) && Finished(maxsize, s', s'', id, tag)
    ensures Finished(maxsize, s, s'', id, tag)
  {
    LeadsOn(maxsize, s, s', s'');
  }

  lemma FinishDone(maxsize: int, s: State, id: nat, tag: nat) returns (s': State)
    requires Reachable(maxsize, s) && Attentive(s, id) && B.At(s.backend, tag, B.Done) && s.backend.handlers[tag].live
    ensures Finished(maxsize, s, s', id, tag)
  {
    s' := AckLeads(maxsize, s, tag);
  }

  lemma FinishFailed(maxsize: int, s: State, id: nat, tag: nat) returns (s': State)
    requires Reachable(maxsize, s) && Attentive(s, id) && B.At(s.backend, tag, B.Failed) && s.backend.handlers[tag].live
    ensures Finished(maxsize, s, s', id, tag)
  {
    StepLeads(maxsize, s, Backstage(B.Requeue(tag)));
    s' := Do(maxsize, s, Backstage(B.Requeue(tag)));
  }

  lemma CanPublish(maxsize: int, s: State, tag: nat)
    requires Reachable(maxsize, s) && B.At(s.backend, tag, B.Committed)
    ensures Can(s, Backstage(B.Publish(tag)))
  {
    ReachableInv(maxsize, s);
    assert B.PhaseFits(s.backend, s.backend.handlers[tag]);
  }

  lemma FinishCommitted(maxsize: int, s: State, id: nat, tag: nat) returns (s': State)
    requires Reachable(maxsize, s) && Attentive(s, id) && B.At(s.backend, tag, B.Committed) && s.backend.handlers[tag].live
    ensures Finished(maxsize, s, s', id, tag)
  {
    CanPublish(maxsize, s, tag);
    s' := AnnounceAndDrain(maxsize, s, id, tag);
  }

  lemma FinishWriting(maxsize: int, s: State, id: nat, tag: nat) returns (s': State)
    requires Reachable(maxsize, s) && Attentive(s, id) && B.At(s.backend, tag, B.Writing) && s.backend.handlers[tag].live
    ensures Finished(maxsize, s, s', id, tag)
  {
    var step := if B.BodyOf(s.backend, tag).Valid? then B.Commit(tag) else B.WriteFails(tag);
    StepLeads(maxsize, s, Backstage(step));
    var s1 := Do(maxsize, s, Backstage(step));
    assert s1.backend.handlers - {tag} == s.backend.handlers - {tag};
    if step.Commit? {
      s' := FinishCommitted(maxsize, s1, id, tag);
    } else {
      s' := FinishFailed(maxsize, s1, id, tag);
    }
    FinishLater(maxsize, s, s1, s', id, tag);
  }

  lemma FinishDecoded(maxsize: int, s: State, id: nat, tag: nat) returns (s': State)
    requires Reachable(maxsize, s) && Attentive(s, id) && tag in B.LiveTags(s.backend) && s.backend.handlers[tag].msg in s.backend.bodies
    requires !s.backend.handlers[tag].phase.Received?
    ensures Finished(maxsize, s, s', id, tag)
  {
    match s.backend.handlers[tag].phase
    case Writing => s' := FinishWriting(maxsize, s, id, tag);
    case Committed => s' := FinishCommitted(maxsize, s, id, tag);
    case Done => s' := FinishDone(maxsize, s, id, tag);
    case Failed => s' := FinishFailed(maxsize, s, id, tag);
  }

  lemma DecodeOnlyEnters(b: B.Backend, tag: nat)
    requires B.At(b, tag, B.Received)
    ensures var b' := B.Decoded(b, tag);
            && b'.bodies == b.bodies && b'.acked == b.acked && tag in b'.handlers
            && b'.handlers - {tag} == b.handlers - {tag}
            && b'.handlers[tag].msg == b.handlers[tag].msg && b'.handlers[tag].live == b.handlers[tag].live
            && !b'.handlers[tag].phase.Received?
  {
  }

  lemma DecodeAdvances(maxsize: int, s: State, id: nat, tag: nat) returns (s': State)
    requires Reachable(maxsize, s) && Attentive(s, id) && B.At(s.backend, tag, B.Received) && s.backend.handlers[tag].live
    ensures Advanced(maxsize, s, s', id, tag)
    ensures tag in B.LiveTags(s'.backend) && s'.backend.handlers[tag].msg in s'.backend.bodies
    ensures !s'.backend.handlers[tag].phase.Received?
  {
    StepLeads(maxsize, s, Backstage(B.Decode(tag)));
    s' := State(B.Decoded(s.backend, tag), s.clients);
    DecodeOnlyEnters(s.backend, tag);
  }

  /** Every live handler can be finished, in whatever phase it is. */
  lemma Finish(maxsize: int, s: State, id: nat, tag: nat) returns (s': State)
    requires Reachable(maxsize, s) && Attentive(s, id) && tag in B.LiveTags(s.backend)
    ensures Finished(maxsize, s, s', id, tag)
  {
    ReachableInv(maxsize, s);
    if s.backend.handlers[tag].phase.Received? {
      var s1 := DecodeAdvances(maxsize, s, id, tag);
      s' := FinishDecoded(maxsize, s1, id, tag);
      FinishLater(maxsize, s, s1, s', id, tag);
    } else {
      s' := FinishDecoded(maxsize, s, id, tag);
    }
  }

  lemma {:induction false} FinishAll(maxsize: int, s: State, id: nat) returns (s': State)
    requires Reachable(maxsize, s) && Attentive(s, id)
    ensures Leads(maxsize, s, s') && Reachable(maxsize, s') && Attentive(s', id) && B.LiveTags(s'.backend) == {}
    decreases |B.LiveTags(s.backend)|
  {
    if B.LiveTags(s.backend) == {} {
      s' := s;
      NoStepLeads(maxsize, s);
    } else {
      var tag :| tag in B.LiveTags(s.backend);
      var s1 := Finish(maxsize, s, id, tag);
      assert B.LiveTags(s1.backend) == B.LiveTags(s.backend) - {tag};
      s' := FinishAll(maxsize, s1, id);
      LeadsOn(maxsize, s, s1, s');
    }
  }

  lemma NoStepLeads(maxsize: int, s: State)
    ensures Leads(maxsize, s, s)
  {
    assert Legal(maxsize, s, []) && Exec(maxsize, s, []) == s;
    RunLeads(maxsize, s, []);
  }

  /** The valid messages that are not acknowledged. */
  function Unhandled(b: B.Backend): set<nat> {
    set m | m in b.bodies && b.bodies[m].Valid? && m !in b.acked
  }

  lemma {:induction false} FreshTag(tags: set<nat>) returns (tag: nat)
    ensures tag !in tags && forall t :: t in tags ==> t < tag
  {
    if tags == {} {
      tag := 0;
    } else {
      var t :| t in tags;
      var rest := FreshTag(tags - {t});
      tag := if rest > t then rest else t + 1;
      assert tags == (tags - {t}) + {t};
    }
  }

  lemma HandlingIsCalm(body: B.Body, msg: nat, tag: nat)
    ensures Calm(Handling(body, msg, tag, false))
  {
  }

  lemma CanBeHandled(maxsize: int, s: State, msg: nat) returns (tag: nat)
    requires Reachable(maxsize, s) && B.LiveTags(s.backend) == {} && msg in Unhandled(s.backend)
    ensures CanHandle(s, msg, tag)
  {
    ReachableInv(maxsize, s);
    forall t | t in s.backend.handlers ensures !s.backend.handlers[t].live {
      assert t !in B.LiveTags(s.backend);
    }
    assert B.Unacked(s.backend) == {};
    tag := FreshTag(s.backend.handlers.Keys);
  }

  lemma AloneLeads(maxsize: int, s: State, msg: nat, tag: nat) returns (s': State)
    requires Reachable(maxsize, s) && CanHandle(s, msg, tag) && s.backend.bodies[msg].Valid?
    ensures Leads(maxsize, s, s') && Reachable(maxsize, s')
    ensures s'.backend == Handled(s.backend, msg, false) && s'.clients == OfferedAll(maxsize, s.clients, [s.backend.bodies[msg].p])
  {
    HandlingAlone(maxsize, s, msg, tag, false);
    var run := Handling(s.backend.bodies[msg], msg, tag, false);
    HandlingIsCalm(s.backend.bodies[msg], msg, tag);
    RunLeads(maxsize, s, run);
    ReachFurther(maxsize, s, run);
    s' := Exec(maxsize, s, run);
  }

  lemma HandledLeavesOthers(b: B.Backend, msg: nat)
    requires msg in b.bodies && b.bodies[msg].Valid?
    ensures Unhandled(Handled(b, msg, false)) == Unhandled(b) - {msg} && B.LiveTags(Handled(b, msg, false)) == B.LiveTags(b)
  {
  }

  lemma OfferToFollower(maxsize: int, s: State, s': State, id: nat, p: Position)
    requires Attentive(s, id) && s'.clients == OfferedAll(maxsize, s.clients, [p])
    ensures id in s'.clients && s'.clients[id].conn.Online? && s'.clients[id].conn.stage.Streaming? && S.NoDrops(s'.clients[id])
  {
  }

  /** With no live handler, a waiting message can be handled, and the browser follows. */
  lemma HandleOne(maxsize: int, s: State, id: nat, msg: nat) returns (s': State)
    requires Reachable(maxsize, s) && Attentive(s, id) && B.LiveTags(s.backend) == {} && msg in Unhandled(s.backend)
    ensures Leads(maxsize, s, s') && Reachable(maxsize, s') && Attentive(s', id) && B.LiveTags(s'.backend) == {}
    ensures Unhandled(s'.backend) == Unhandled(s.backend) - {msg}
  {
    var tag := CanBeHandled(maxsize, s, msg);
    var s1 := AloneLeads(maxsize, s, msg, tag);
    HandledLeavesOthers(s.backend, msg);
    OfferToFollower(maxsize, s, s1, id, s.backend.bodies[msg].p);
    s' := DrainLeads(maxsize, s1, id);
    LeadsOn(maxsize, s, s1, s');
  }

  lemma {:induction false} HandleAll(maxsize: int, s: State, id: nat) returns (s': State)
    requires Reachable(maxsize, s) && Attentive(s, id) && B.LiveTags(s.backend) == {}
    ensures Leads(maxsize, s, s') && Reachable(maxsize, s') && Attentive(s', id) && AllHandled(s'.backend)
    decreases |Unhandled(s.backend)|
  {
    if msg :| msg in Unhandled(s.backend) {
      var s1 := HandleOne(maxsize, s, id, msg);
      s' := HandleAll(maxsize, s1, id);
      LeadsOn(maxsize, s, s1, s');
    } else {
      assert Unhandled(s.backend) == {};
      NothingUnhandled(s.backend);
      s' := s;
      NoStepLeads(maxsize, s);
    }
  }

  lemma NothingUnhandled(b: B.Backend)
    requires Unhandled(b) == {}
    ensures AllHandled(b)
  {
    forall m | m in b.bodies && b.bodies[m].Valid? ensures m in b.acked {
      assert m !in Unhandled(b);
    }
  }

  /** From every reachable state, for every browser, some run without a restart or a lost channel
      acknowledges every valid message and leaves the browser drained, having lost nothing: the
      state in which it agrees with the database. */
  lemma CanSettle(maxsize: int, s: State, id: nat) returns (s': State)
    requires Reachable(maxsize, s) && id in s.clients
    ensures Leads(maxsize, s, s') && Reachable(maxsize, s') && AllHandled(s'.backend) && Quiet(s', id)
  {
    var s1 := StartOver(maxsize, s, id);
    var s2 := FinishAll(maxsize, s1, id);
    var s3 := HandleAll(maxsize, s2, id);
    s' := DrainLeads(maxsize, s3, id);
    LeadsOn(maxsize, s, s1, s2);
    LeadsOn(maxsize, s, s2, s3);
    LeadsOn(maxsize, s, s3, s');
    BrokerDrainedSettles(maxsize, s');
  }

  /** And if the browser then reconnects once more it shows the database's very table, whatever the
      timestamps and ties. */
  lemma CanAgree(maxsize: int, s: State, id: nat) returns (s': State)
    requires Reachable(maxsize, s) && id in s.clients
    ensures Leads(maxsize, s, s') && Reachable(maxsize, s') && AllHandled(s'.backend)
    ensures id in s'.clients && s'.clients[id].view == s'.backend.current
  {
    var s1 := CanSettle(maxsize, s, id);
    s' := StartOver(maxsize, s1, id);
    LeadsOn(maxsize, s, s1, s');
  }
}
