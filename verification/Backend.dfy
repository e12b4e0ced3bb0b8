/** The broker, the message handlers and the database. A message stays with the broker until
    it is acknowledged; each delivery runs one handler, whose effects (database write,
    publication, acknowledgement) are separate steps that interleave with other handlers'. */
module Backend {
  import opened Positions

  const PREFETCH: nat := 10

  /** What a message body turns out to be. `Unwritable` has a tag id but lacks a column the
      database needs, such as the timestamp. */
  datatype Body = NotJson | NotObject | NoTagId | Unwritable | Valid(p: Position)

  datatype Phase = Received | Writing | Committed | Done | Failed

  /** `live` is false once the channel that delivered the message is gone. */
  datatype Handler = Handler(msg: nat, live: bool, phase: Phase)

  datatype Counters = Counters(processed: nat, malformedJson: nat, missingTagId: nat, dbError: nat,
                               acks: nat, unackable: nat)

  const ZERO := Counters(0, 0, 0, 0, 0, 0)

  datatype Backend = Backend(
    bodies: map<nat, Body>, ready: set<nat>, handlers: map<nat, Handler>, acked: set<nat>,
    log: seq<Position>, current: Table, published: seq<Position>, counters: Counters)

  const START := Backend(map[], {}, map[], {}, [], map[], [], ZERO)

  datatype Step =
    | Produce(msg: nat, body: Body)
    | Deliver(msg: nat, tag: nat)
    | Decode(tag: nat)
    | Commit(tag: nat)
    | WriteFails(tag: nat)
    | CommitUnconfirmed(tag: nat)
    | Publish(tag: nat)
    | Ack(tag: nat)
    | Requeue(tag: nat)
    | Abandon(tag: nat)
    | ChannelLost
    | Restart

  function LiveTags(b: Backend): set<nat> {
    set t | t in b.handlers && b.handlers[t].live
  }

  function Unacked(b: Backend): set<nat> {
    set t | t in b.handlers && b.handlers[t].live :: b.handlers[t].msg
  }

  function DoneTags(b: Backend): set<nat> {
    set t | t in b.handlers && b.handlers[t].phase == Done
  }

  /** The handler exists, is in the given phase, and its message is known to the broker. */
  predicate At(b: Backend, tag: nat, phase: Phase) {
    tag in b.handlers && b.handlers[tag].phase == phase && b.handlers[tag].msg in b.bodies
  }

  function BodyOf(b: Backend, tag: nat): Body
    requires tag in b.handlers && b.handlers[tag].msg in b.bodies
  {
    b.bodies[b.handlers[tag].msg]
  }

  predicate Enabled(b: Backend, step: Step) {
    match step
    case Produce(msg, _) => msg !in b.bodies
    case Deliver(msg, tag) => msg in b.ready && tag !in b.handlers && |LiveTags(b)| < PREFETCH
    case Decode(tag) => At(b, tag, Received)
    case Commit(tag) => At(b, tag, Writing) && BodyOf(b, tag).Valid?
    case WriteFails(tag) => At(b, tag, Writing)
    case CommitUnconfirmed(tag) => At(b, tag, Writing) && BodyOf(b, tag).Valid?
    case Publish(tag) => At(b, tag, Committed) && BodyOf(b, tag).Valid?
    case Ack(tag) => At(b, tag, Done) && b.handlers[tag].live
    case Requeue(tag) => At(b, tag, Failed) && b.handlers[tag].live
    case Abandon(tag) => (At(b, tag, Done) || At(b, tag, Failed)) && !b.handlers[tag].live
    case ChannelLost => true
    case Restart => true
  }

  function Enter(b: Backend, tag: nat, phase: Phase): Backend
    requires tag in b.handlers
  {
    b.(handlers := b.handlers[tag := b.handlers[tag].(phase := phase)])
  }

  function Leave(b: Backend, tag: nat): Backend {
    b.(handlers := b.handlers - {tag})
  }

  function Written(b: Backend, p: Position): Backend {
    b.(log := b.log + [p], current := Upsert(b.current, p))
  }

  function Count(b: Backend, c: Counters): Backend {
    b.(counters := c)
  }

  /** Parsing and classifying the body: malformed and tag-less messages are counted and will be
      acknowledged; a body that is JSON but not an object raises. */
  function Decoded(b: Backend, tag: nat): Backend
    requires At(b, tag, Received)
  {
    var c := b.counters;
    match BodyOf(b, tag)
    case NotJson => Count(Enter(b, tag, Done), c.(malformedJson := c.malformedJson + 1))
    case NoTagId => Count(Enter(b, tag, Done), c.(missingTagId := c.missingTagId + 1))
    case NotObject => Enter(b, tag, Failed)
    case _ => Enter(b, tag, Writing)
  }

  function After(b: Backend, step: Step): Backend
    requires Enabled(b, step)
  {
    var c := b.counters;
    match step
    case Produce(msg, body) => b.(bodies := b.bodies[msg := body], ready := b.ready + {msg})
    case Deliver(msg, tag) => b.(ready := b.ready - {msg}, handlers := b.handlers[tag := Handler(msg, true, Received)])
    case Decode(tag) => Decoded(b, tag)
    case Commit(tag) => Enter(Written(b, BodyOf(b, tag).p), tag, Committed)
    case WriteFails(tag) => Count(Enter(b, tag, Failed), c.(dbError := c.dbError + 1))
    case CommitUnconfirmed(tag) => Count(Enter(Written(b, BodyOf(b, tag).p), tag, Failed), c.(dbError := c.dbError + 1))
    case Publish(tag) =>
      Count(Enter(b, tag, Done).(published := b.published + [BodyOf(b, tag).p]), c.(processed := c.processed + 1))
    case Ack(tag) => Count(Leave(b, tag), c.(acks := c.acks + 1)).(acked := b.acked + {b.handlers[tag].msg})
    case Requeue(tag) => Leave(b, tag).(ready := b.ready + {b.handlers[tag].msg})
    case Abandon(tag) =>
      Count(Leave(b, tag), if b.handlers[tag].phase == Done then c.(unackable := c.unackable + 1) else c)
    case ChannelLost =>
      b.(ready := b.ready + Unacked(b), handlers := map t | t in b.handlers :: b.handlers[t].(live := false))
    case Restart => b.(ready := b.ready + Unacked(b), handlers := map[], counters := ZERO)
  }

  // The invariant, in independent parts.

  /** The broker holds every message exactly once: ready, out with one live handler, or acknowledged. */
  ghost predicate Custody(b: Backend) {
    && b.ready + Unacked(b) + b.acked == b.bodies.Keys
    && b.ready !! b.acked
    && (forall t :: t in b.handlers ==> b.handlers[t].msg in b.bodies)
    && (forall t :: t in b.handlers && b.handlers[t].live ==> b.handlers[t].msg !in b.ready && b.handlers[t].msg !in b.acked)
    && (forall t, u :: t in b.handlers && u in b.handlers && b.handlers[t].live && b.handlers[u].live && t != u
                       ==> b.handlers[t].msg != b.handlers[u].msg)
  }

  /** The current table is the index of the log, and only logged records are published. */
  ghost predicate Stored(b: Backend) {
    && b.current == Fold(map[], b.log)
    && forall p :: p in b.published ==> p in b.log
  }

  /** A body whose handling may end in an acknowledgement. */
  ghost predicate Settled(b: Backend, body: Body) {
    body.NotJson? || body.NoTagId? || (body.Valid? && body.p in b.log && body.p in b.published)
  }

  ghost predicate PhaseFits(b: Backend, h: Handler) {
    h.msg in b.bodies ==>
      match h.phase
      case Received => true
      case Writing => b.bodies[h.msg].Unwritable? || b.bodies[h.msg].Valid?
      case Committed => b.bodies[h.msg].Valid? && b.bodies[h.msg].p in b.log
      case Done => Settled(b, b.bodies[h.msg])
      case Failed => !b.bodies[h.msg].NotJson? && !b.bodies[h.msg].NoTagId?
  }

  /** A message that holds a committed but unpublished record. */
  ghost predicate Holds(b: Backend, m: nat, p: Position) {
    m in b.bodies && m !in b.acked && b.bodies[m] == Valid(p)
  }

  /** No valid message is lost: an acknowledged message was rejected as malformed or tag-less, or
      it was committed and published; and a committed record that is not yet published belongs
      to a message the broker still holds. */
  ghost predicate NothingLost(b: Backend) {
    && (forall t :: t in b.handlers ==> PhaseFits(b, b.handlers[t]))
    && (forall m :: m in b.acked && m in b.bodies ==> Settled(b, b.bodies[m]))
    && (forall p :: p in b.log && p !in b.published ==>
                      exists m :: Holds(b, m, p))
  }

  /** Every finished handling is counted once, under one of three reasons. */
  ghost predicate Counted(b: Backend) {
    b.counters.acks + b.counters.unackable + |DoneTags(b)|
    == b.counters.processed + b.counters.malformedJson + b.counters.missingTagId
  }

  ghost predicate Inv(b: Backend) {
    Custody(b) && Stored(b) && NothingLost(b) && Counted(b) && |LiveTags(b)| <= PREFETCH
  }

  lemma StartInv()
    ensures Inv(START)
  {
    assert Fold(map[], []) == map[];
  }

  /** Two backends whose handlers differ in their phases only. */
  ghost predicate SameDeliveries(b: Backend, b': Backend) {
    && b'.bodies == b.bodies && b'.ready == b.ready && b'.acked == b.acked
    && b'.handlers.Keys == b.handlers.Keys
    && forall t :: t in b.handlers ==> b'.handlers[t].live == b.handlers[t].live && b'.handlers[t].msg == b.handlers[t].msg
  }

  lemma SameDeliveriesKeepCustody(b: Backend, b': Backend)
    requires Custody(b) && SameDeliveries(b, b')
    ensures Custody(b')
  {
    assert forall t :: t in b.handlers <==> t in b'.handlers;
    assert Unacked(b') == Unacked(b);
  }

  lemma ProduceKeepsCustody(b: Backend, msg: nat, body: Body)
    requires Custody(b) && Enabled(b, Produce(msg, body))
    ensures Custody(After(b, Produce(msg, body)))
  {
    assert Unacked(After(b, Produce(msg, body))) == Unacked(b);
  }

  lemma DeliverKeepsCustody(b: Backend, msg: nat, tag: nat)
    requires Custody(b) && Enabled(b, Deliver(msg, tag))
    ensures Custody(After(b, Deliver(msg, tag)))
  {
    var b' := After(b, Deliver(msg, tag));
    assert b'.handlers[tag].msg == msg;
    assert forall t :: t in b.handlers ==> b'.handlers[t] == b.handlers[t];
    assert Unacked(b') == Unacked(b) + {msg};
  }

  lemma UnackedAfterLeaving(b: Backend, tag: nat)
    requires Custody(b) && tag in b.handlers
    ensures Unacked(Leave(b, tag)) == if b.handlers[tag].live then Unacked(b) - {b.handlers[tag].msg} else Unacked(b)
  {
    var b' := Leave(b, tag);
    forall m | m in Unacked(b) && (b.handlers[tag].live ==> m != b.handlers[tag].msg) ensures m in Unacked(b') {
      var t :| t in b.handlers && b.handlers[t].live && b.handlers[t].msg == m;
      assert t in b'.handlers && b'.handlers[t] == b.handlers[t];
    }
  }

  /** A live handler that ends hands its message either back or over to the acknowledged ones. */
  lemma LeavingKeepsCustody(b: Backend, b': Backend, tag: nat)
    requires Custody(b) && tag in b.handlers && b'.bodies == b.bodies && b'.handlers == Leave(b, tag).handlers
    requires if b.handlers[tag].live
             then (b'.ready == b.ready + {b.handlers[tag].msg} && b'.acked == b.acked)
                  || (b'.ready == b.ready && b'.acked == b.acked + {b.handlers[tag].msg})
             else b'.ready == b.ready && b'.acked == b.acked
    ensures Custody(b')
  {
    UnackedAfterLeaving(b, tag);
    assert Unacked(b') == Unacked(Leave(b, tag));
  }

  lemma DisconnectingKeepsCustody(b: Backend, b': Backend)
    requires Custody(b) && b'.bodies == b.bodies && b'.acked == b.acked && b'.ready == b.ready + Unacked(b)
    requires forall t :: t in b'.handlers ==> !b'.handlers[t].live && t in b.handlers && b'.handlers[t].msg == b.handlers[t].msg
    ensures Custody(b')
  {
    assert Unacked(b') == {};
  }

  lemma PhaseStepsKeepDeliveries(b: Backend, step: Step)
    requires step.Decode? || step.Commit? || step.WriteFails? || step.CommitUnconfirmed? || step.Publish?
    requires Enabled(b, step)
    ensures SameDeliveries(b, After(b, step))
  {
  }

  lemma StepKeepsCustody(b: Backend, step: Step)
    requires Custody(b) && Enabled(b, step)
    ensures Custody(After(b, step))
  {
    var b' := After(b, step);
    match step
    case Produce(msg, body) => ProduceKeepsCustody(b, msg, body);
    case Deliver(msg, tag) => DeliverKeepsCustody(b, msg, tag);
    case Ack(tag) => LeavingKeepsCustody(b, b', tag);
    case Requeue(tag) => LeavingKeepsCustody(b, b', tag);
    case Abandon(tag) => LeavingKeepsCustody(b, b', tag);
    case ChannelLost => DisconnectingKeepsCustody(b, b');
    case Restart => DisconnectingKeepsCustody(b, b');
    case _ =>
      PhaseStepsKeepDeliveries(b, step);
      SameDeliveriesKeepCustody(b, b');
  }

  lemma StepKeepsStored(b: Backend, step: Step)
    requires Stored(b) && NothingLost(b) && Enabled(b, step)
    ensures Stored(After(b, step))
  {
    if step.Commit? || step.CommitUnconfirmed? {
      FoldOne(map[], b.log, BodyOf(b, step.tag).p);
    }
  }

  lemma StepKeepsPhases(b: Backend, step: Step)
    requires Custody(b) && NothingLost(b) && Enabled(b, step)
    ensures forall t :: t in After(b, step).handlers ==> PhaseFits(After(b, step), After(b, step).handlers[t])
  {
    var b' := After(b, step);
    forall t | t in b'.handlers ensures PhaseFits(b', b'.handlers[t]) {
      if t in b.handlers {
        StepKeepsPhase(b, step, t);
      }
    }
  }

  /** Messages, the log and the publications only ever grow. */
  ghost predicate Grows(b: Backend, b': Backend) {
    && (forall m :: m in b.bodies ==> m in b'.bodies && b'.bodies[m] == b.bodies[m])
    && (forall p :: p in b.log ==> p in b'.log)
    && (forall p :: p in b.published ==> p in b'.published)
  }

  lemma StepGrows(b: Backend, step: Step)
    requires Enabled(b, step)
    ensures Grows(b, After(b, step))
  {
  }

  lemma PhaseFitsLater(b: Backend, b': Backend, h: Handler)
    requires Grows(b, b') && h.msg in b.bodies && PhaseFits(b, h)
    ensures PhaseFits(b', h) && PhaseFits(b', h.(live := false))
  {
  }

  /** The phase a step puts its handler in fits what the step did. */
  lemma EnteredPhaseFits(b: Backend, step: Step)
    requires step.Decode? || step.Commit? || step.WriteFails? || step.CommitUnconfirmed? || step.Publish?
    requires Enabled(b, step) && PhaseFits(b, b.handlers[step.tag])
    ensures PhaseFits(After(b, step), After(b, step).handlers[step.tag])
  {
  }

  /** All other handlers keep their phase, and perhaps lose their channel. */
  lemma OtherHandlers(b: Backend, step: Step, t: nat)
    requires Enabled(b, step) && t in b.handlers && t in After(b, step).handlers
    requires (step.Decode? || step.Commit? || step.WriteFails? || step.CommitUnconfirmed? || step.Publish?) ==> t != step.tag
    ensures After(b, step).handlers[t] == b.handlers[t] || After(b, step).handlers[t] == b.handlers[t].(live := false)
  {
  }

  lemma StepKeepsPhase(b: Backend, step: Step, t: nat)
    requires Custody(b) && Enabled(b, step) && t in b.handlers && PhaseFits(b, b.handlers[t])
    requires t in After(b, step).handlers
    ensures PhaseFits(After(b, step), After(b, step).handlers[t])
  {
    if (step.Decode? || step.Commit? || step.WriteFails? || step.CommitUnconfirmed? || step.Publish?) && t == step.tag {
      EnteredPhaseFits(b, step);
    } else {
      StepGrows(b, step);
      PhaseFitsLater(b, After(b, step), b.handlers[t]);
      OtherHandlers(b, step, t);
    }
  }

  lemma DoneIsSettled(b: Backend, tag: nat)
    requires NothingLost(b) && At(b, tag, Done)
    ensures Settled(b, BodyOf(b, tag))
  {
    assert PhaseFits(b, b.handlers[tag]);
  }

  lemma StepKeepsAcked(b: Backend, step: Step)
    requires Custody(b) && NothingLost(b) && Enabled(b, step)
    ensures forall m :: m in After(b, step).acked && m in After(b, step).bodies ==> Settled(After(b, step), After(b, step).bodies[m])
  {
    var b' := After(b, step);
    forall m | m in b'.acked && m in b'.bodies ensures Settled(b', b'.bodies[m]) {
      if m in b.acked {
        assert m in b.bodies && b'.bodies[m] == b.bodies[m];
      } else {
        DoneIsSettled(b, step.tag);
      }
    }
  }

  /** A message is acknowledged only after its record was published. */
  lemma StaysHeld(b: Backend, step: Step, m: nat, p: Position)
    requires NothingLost(b) && Enabled(b, step) && Holds(b, m, p) && p !in b.published
    ensures Holds(After(b, step), m, p)
  {
    if step.Ack? {
      DoneIsSettled(b, step.tag);
    }
  }

  lemma CommitIsHeld(b: Backend, step: Step, p: Position)
    requires NothingLost(b) && Custody(b) && Enabled(b, step)
    requires p !in b.log && p in After(b, step).log && p !in After(b, step).published
    ensures exists m :: Holds(After(b, step), m, p)
  {
    assert step.Commit? || step.CommitUnconfirmed?;
    assert Holds(After(b, step), b.handlers[step.tag].msg, p);
  }

  lemma StepKeepsHeld(b: Backend, step: Step, p: Position)
    requires Custody(b) && NothingLost(b) && Enabled(b, step)
    requires p in After(b, step).log && p !in After(b, step).published
    ensures exists m :: Holds(After(b, step), m, p)
  {
    if p in b.log {
      StepGrows(b, step);
      assert p !in b.published;
      var m :| Holds(b, m, p);
      StaysHeld(b, step, m, p);
    } else {
      CommitIsHeld(b, step, p);
    }
  }

  lemma StepKeepsNothingLost(b: Backend, step: Step)
    requires Custody(b) && NothingLost(b) && Enabled(b, step)
    ensures NothingLost(After(b, step))
  {
    StepKeepsPhases(b, step);
    StepKeepsAcked(b, step);
    forall p | p in After(b, step).log && p !in After(b, step).published
      ensures exists m :: Holds(After(b, step), m, p)
    {
      StepKeepsHeld(b, step, p);
    }
  }

  lemma DoneAfterEntering(b: Backend, tag: nat, phase: Phase)
    requires tag in b.handlers && b.handlers[tag].phase != Done
    ensures |DoneTags(Enter(b, tag, phase))| == |DoneTags(b)| + if phase == Done then 1 else 0
  {
    assert DoneTags(Enter(b, tag, phase)) == DoneTags(b) + if phase == Done then {tag} else {};
  }

  lemma DoneAfterLeaving(b: Backend, tag: nat)
    requires tag in b.handlers
    ensures |DoneTags(Leave(b, tag))| == |DoneTags(b)| - if b.handlers[tag].phase == Done then 1 else 0
  {
    assert DoneTags(Leave(b, tag)) == DoneTags(b) - if b.handlers[tag].phase == Done then {tag} else {};
  }

  /** The acknowledgements and the prevented ones, less the outcomes that were counted. */
  function Balance(c: Counters): int {
    c.acks + c.unackable - c.processed - c.malformedJson - c.missingTagId
  }

  lemma EnteringKeepsCounted(b: Backend, b': Backend, tag: nat, phase: Phase)
    requires Counted(b) && tag in b.handlers && b.handlers[tag].phase != Done && b'.handlers == Enter(b, tag, phase).handlers
    requires Balance(b'.counters) == Balance(b.counters) - if phase == Done then 1 else 0
    ensures Counted(b')
  {
    DoneAfterEntering(b, tag, phase);
    assert DoneTags(b') == DoneTags(Enter(b, tag, phase));
  }

  lemma LeavingKeepsCounted(b: Backend, b': Backend, tag: nat)
    requires Counted(b) && tag in b.handlers && b'.handlers == Leave(b, tag).handlers
    requires Balance(b'.counters) == Balance(b.counters) + if b.handlers[tag].phase == Done then 1 else 0
    ensures Counted(b')
  {
    DoneAfterLeaving(b, tag);
    assert DoneTags(b') == DoneTags(Leave(b, tag));
  }

  lemma SameDoneKeepsCounted(b: Backend, b': Backend)
    requires Counted(b) && b'.counters == b.counters && DoneTags(b') == DoneTags(b)
    ensures Counted(b')
  {
  }

  lemma RestKeepsDone(b: Backend, step: Step)
    requires Enabled(b, step) && (step.Produce? || step.Deliver? || step.ChannelLost?)
    ensures DoneTags(After(b, step)) == DoneTags(b) && After(b, step).counters == b.counters
  {
  }

  lemma PhaseKeepsCounted(b: Backend, step: Step)
    requires step.Decode? || step.Commit? || step.WriteFails? || step.CommitUnconfirmed? || step.Publish?
    requires Counted(b) && Enabled(b, step)
    ensures Counted(After(b, step))
  {
    EnteringKeepsCounted(b, After(b, step), step.tag, After(b, step).handlers[step.tag].phase);
  }

  lemma StepKeepsCounted(b: Backend, step: Step)
    requires Counted(b) && Enabled(b, step)
    ensures Counted(After(b, step))
  {
    var b' := After(b, step);
    if step.Ack? || step.Requeue? || step.Abandon? {
      LeavingKeepsCounted(b, b', step.tag);
    } else if step.Produce? || step.Deliver? || step.ChannelLost? {
      RestKeepsDone(b, step);
      SameDoneKeepsCounted(b, b');
    } else if step.Restart? {
      assert DoneTags(b') == {};
    } else {
      PhaseKeepsCounted(b, step);
    }
  }

  lemma SameDeliveriesSameLive(b: Backend, b': Backend)
    requires SameDeliveries(b, b')
    ensures LiveTags(b') == LiveTags(b)
  {
    assert forall t :: t in b.handlers <==> t in b'.handlers;
  }

  lemma FewerLive(b: Backend, b': Backend)
    requires LiveTags(b') <= LiveTags(b) && |LiveTags(b)| <= PREFETCH
    ensures |LiveTags(b')| <= PREFETCH
  {
    assert LiveTags(b) == LiveTags(b') + (LiveTags(b) - LiveTags(b'));
  }

  lemma DeliverKeepsPrefetch(b: Backend, msg: nat, tag: nat)
    requires Enabled(b, Deliver(msg, tag))
    ensures |LiveTags(After(b, Deliver(msg, tag)))| <= PREFETCH
  {
    assert LiveTags(After(b, Deliver(msg, tag))) == LiveTags(b) + {tag};
  }

  lemma RestKeepsLive(b: Backend, step: Step)
    requires Enabled(b, step) && !step.Deliver?
    ensures LiveTags(After(b, step)) <= LiveTags(b)
  {
    if step.Decode? || step.Commit? || step.WriteFails? || step.CommitUnconfirmed? || step.Publish? {
      PhaseStepsKeepDeliveries(b, step);
      SameDeliveriesSameLive(b, After(b, step));
    }
  }

  lemma StepKeepsPrefetch(b: Backend, step: Step)
    requires |LiveTags(b)| <= PREFETCH && Enabled(b, step)
    ensures |LiveTags(After(b, step))| <= PREFETCH
  {
    if step.Deliver? {
      DeliverKeepsPrefetch(b, step.msg, step.tag);
    } else {
      RestKeepsLive(b, step);
      FewerLive(b, After(b, step));
    }
  }

  lemma StepKeepsInv(b: Backend, step: Step)
    requires Inv(b) && Enabled(b, step)
    ensures Inv(After(b, step))
  {
    StepKeepsCustody(b, step);
    StepKeepsStored(b, step);
    StepKeepsNothingLost(b, step);
    StepKeepsCounted(b, step);
    StepKeepsPrefetch(b, step);
  }

  /** A valid message at position `p` was produced. */
  ghost predicate MessageOf(b: Backend, p: Position) {
    exists m :: m in b.bodies && b.bodies[m] == Valid(p)
  }

  /** The log holds nothing but produced messages. */
  ghost predicate Sourced(b: Backend) {
    forall p :: p in b.log ==> MessageOf(b, p)
  }

  lemma StepKeepsSourced(b: Backend, step: Step)
    requires Sourced(b) && Enabled(b, step)
    ensures Sourced(After(b, step))
  {
    var b' := After(b, step);
    StepGrows(b, step);
    forall p | p in b'.log ensures MessageOf(b', p) {
      if p in b.log {
        var m :| m in b.bodies && b.bodies[m] == Valid(p);
        assert m in b'.bodies && b'.bodies[m] == Valid(p);
      } else {
        var m := b.handlers[step.tag].msg;
        assert m in b'.bodies && b'.bodies[m] == Valid(p);
      }
    }
  }
}
