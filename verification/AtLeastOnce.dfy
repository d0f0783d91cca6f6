/** Two clients that both run this code, joined by channels that may lose, delay, reorder and
    duplicate packets but not invent them: what the sender is told is acknowledged, the receiver's
    application has been given. */
module AtLeastOnce {
  import opened Mqtt
  import opened Wire
  import opened SessionModel
  import opened Machine
  import opened Control
  import opened Ledger
  import opened Replies
  import opened Conformance
  import Window
  import Traffic
  import Conservation
  import E = EngineModel
  import C = ClientModel

  // ---------------------------------------------------------------- the channel

  predicate Delivery(pk: Packet) { pk.Publish? || pk.Puback? || pk.Pubrec? || pk.Pubrel? || pk.Pubcomp? }

  ghost predicate WasSent(log: seq<Event>, pk: Packet) {
    exists j :: 0 <= j < |log| && log[j].Sent? && log[j].packet == pk
  }

  ghost predicate HasArrived(log: seq<Event>, pk: Packet) {
    exists j :: 0 <= j < |log| && log[j].Arrived? && log[j].packet == pk
  }

  /** Every delivery packet that has arrived here was sent, or at least attempted, over there. */
  ghost predicate NothingInvented(sender: seq<Event>, receiver: seq<Event>) {
    forall pk :: Delivery(pk) && HasArrived(receiver, pk) ==> WasSent(sender, pk)
  }

  predicate AckFor(pk: Packet, p: Pid) { pk == Puback(p) || pk == Pubrec(p) }

  /** This client has attempted to acknowledge a PUBLISH under p. */
  ghost predicate AckTried(log: seq<Event>, p: Pid) { WasSent(log, Puback(p)) || WasSent(log, Pubrec(p)) }

  predicate SendsAck(e: Event, p: Pid) { e.Sent? && e.ok && AckFor(e.packet, p) }

  /** This client has sent a PUBACK or PUBREC for p without error. */
  ghost predicate AckSent(log: seq<Event>, p: Pid) { exists j :: 0 <= j < |log| && SendsAck(log[j], p) }

  // ---------------------------------------------------------------- links of the chain

  ghost predicate WasStored(log: seq<Event>, p: Pid, m: Inflight) {
    exists k :: 0 <= k < |log| && log[k] == Stored(p, m)
  }

  lemma StoredStays(log: seq<Event>, e: Event, p: Pid, m: Inflight)
    requires WasStored(log, p, m)
    ensures WasStored(log + [e], p, m)
  {
    var k :| 0 <= k < |log| && log[k] == Stored(p, m);
    assert (log + [e])[k] == Stored(p, m);
  }

  lemma EntryComesFrom(l: Ledger, e: Event, i: nat)
    requires InOrder(l) && i < |Enter(l, e).entries|
    ensures var x := Enter(l, e).entries[i];
            if i < |l.entries| then x.pid == l.entries[i].pid && x.msg == l.entries[i].msg
            else e.Stored? && x.pid == e.pid && x.msg == e.msg
  {
    hide EnterArrival, EnterSend, Accept, ClosePend, CountRetry, CountResume, Wipe;
    Conservation.StepContinues(l, e);
    if i >= |l.entries| {
      NewEntryIsStored(l, e);
    }
  }

  lemma NewEntryIsStored(l: Ledger, e: Event)
    requires InOrder(l) && e.Stored?
    ensures |Enter(l, e).entries| == |l.entries| + 1
    ensures Enter(l, e).entries[|l.entries|].pid == e.pid && Enter(l, e).entries[|l.entries|].msg == e.msg
  {
  }

  lemma {:induction false} EntriesWereStored(s: State, i: nat)
    requires Sound(s) && i < |Books(s.core.log).entries|
    ensures WasStored(s.core.log, Books(s.core.log).entries[i].pid, Books(s.core.log).entries[i].msg)
    decreases |s.core.log|
  {
    hide At, Guard, Apply, Enter, WasStored, InOrder;
    if s.core.log != [] {
      BeforeIsSound(s);
      var t, e := Before(s), Last(s);
      BooksAgree(t);
      var l := Books(t.core.log);
      EntryComesFrom(l, e, i);
      if i < |l.entries| {
        EntriesWereStored(t, i);
        StoredStays(t.core.log, e, l.entries[i].pid, l.entries[i].msg);
      } else {
        LastWasStored(s.core.log, e.pid, e.msg);
      }
    }
  }

  lemma LastWasStored(log: seq<Event>, p: Pid, m: Inflight)
    requires |log| > 0 && log[|log| - 1] == Stored(p, m)
    ensures WasStored(log, p, m)
  {
  }

  /** A PUBLISH under p carries a message that was accepted under p. */
  lemma PublishedWasStored(s: State, pk: Packet, p: Pid)
    requires Sound(s) && WasSent(s.core.log, pk) && PublishesUnder(pk, p)
    ensures exists m :: WasStored(s.core.log, p, m) && Carries(pk, p, m)
  {
    hide At;
    var j :| 0 <= j < |s.core.log| && s.core.log[j].Sent? && s.core.log[j].packet == pk;
    Traffic.RetransmissionIsFaithful(s, j, p);
    AtIsSound(s, j);
    var l := Books(s.core.log[..j]);
    var x := l.entries[l.pend[p]];
    EntriesWereStored(At(s, j), l.pend[p]);
    var k :| 0 <= k < j && s.core.log[..j][k] == Stored(p, x.msg);
    assert s.core.log[k] == Stored(p, x.msg);
    assert WasStored(s.core.log, p, x.msg);
  }

  /** An acknowledging packet was sent in answer to the packet it acknowledges. */
  lemma AckWasAsked(s: State, ack: Packet)
    requires Sound(s) && WasSent(s.core.log, ack) && (ack.Puback? || ack.Pubrec? || ack.Pubcomp?)
    ensures exists pk :: HasArrived(s.core.log, pk) && Answers(ack, pk)
  {
    var j :| 0 <= j < |s.core.log| && s.core.log[j].Sent? && s.core.log[j].packet == ack;
    AcksAnswerArrivals(s, j);
    var pk := s.core.log[j - 1].packet;
    assert HasArrived(s.core.log, pk);
  }

  /** Event j successfully sends the reply to the PUBLISH pk that event j - 1 received. */
  predicate RepliesTo(log: seq<Event>, j: nat, pk: Packet) {
    0 < j < |log| && log[j].Sent? && log[j].ok && log[j - 1].Arrived? && log[j - 1].packet == pk && pk.Publish?
  }

  lemma {:induction false} TakenHolds(log: seq<Event>, j: nat, pk: Packet)
    requires RepliesTo(log, j, pk)
    ensures pk in Taken(log)
    decreases |log|
  {
    if j < |log| - 1 {
      TakenHolds(log[..|log| - 1], j, pk);
    }
  }

  lemma {:induction false} TakenWasReplied(log: seq<Event>, pk: Packet)
    requires pk in Taken(log) && pk.Publish? && pk.qosPid != Level0
    ensures exists j :: RepliesTo(log, j, pk)
    decreases |log|
  {
    var short := log[..|log| - 1];
    if pk in Taken(short) {
      TakenWasReplied(short, pk);
      var j :| RepliesTo(short, j, pk);
      assert RepliesTo(log, j, pk);
    } else {
      assert RepliesTo(log, |log| - 1, pk);
    }
  }

  /** The successful reply to a PUBLISH under p is a PUBACK or PUBREC for p. */
  lemma ReplyIsAck(s: State, j: nat, pk: Packet, p: Pid)
    requires Sound(s) && RepliesTo(s.core.log, j, pk) && PublishesUnder(pk, p)
    ensures SendsAck(s.core.log[j], p)
  {
    hide At;
    AtIsSound(s, j);
    ControlHolds(At(s, j));
    GuardIsCore(At(s, j), s.core.log[j]);
    OwedAfterArrival(At(s, j).core, s.core.log[j], pk);
  }

  lemma OwedAfterArrival(c: Core, e: Event, pk: Packet)
    requires CtxOk(c) && GuardCore(c, e) && e.Sent? && ArrivedLast(c.log, pk)
    ensures Answers(e.packet, pk)
  {
    hide SendEvent;
  }

  /** A PUBLISH under p has been taken over exactly when one under p has been acknowledged. */
  lemma TakenIffAckSent(s: State, p: Pid)
    requires Sound(s)
    ensures (exists pk :: pk in Taken(s.core.log) && PublishesUnder(pk, p)) <==> AckSent(s.core.log, p)
  {
    hide Taken, Sound;
    var log := s.core.log;
    if pk :| pk in Taken(log) && PublishesUnder(pk, p) {
      TakenWasReplied(log, pk);
      var j :| RepliesTo(log, j, pk);
      ReplyIsAck(s, j, pk, p);
    }
    if AckSent(log, p) {
      var j :| 0 <= j < |log| && SendsAck(log[j], p);
      AcksAnswerArrivals(s, j);
      TakenHolds(log, j, log[j - 1].packet);
    }
  }

  ghost predicate RelsWereAsked(c: Core) {
    forall p :: p in c.sess.rels ==> HasArrived(c.log, Pubrec(p))
  }

  lemma ArrivedStays(log: seq<Event>, e: Event, pk: Packet)
    requires HasArrived(log, pk)
    ensures HasArrived(log + [e], pk)
  {
    var k :| 0 <= k < |log| && log[k].Arrived? && log[k].packet == pk;
    assert (log + [e])[k] == log[k];
  }

  lemma RelsGrowByReplies(c: Core, e: Event, p: Pid)
    requires CtxOk(c) && GuardCore(c, e) && p in Post(c, e).sess.rels && p !in c.sess.rels
    ensures ArrivedLast(c.log, Pubrec(p))
  {
    hide SendEvent;
  }

  lemma {:induction false} RelsHaveRecs(s: State)
    requires Sound(s)
    ensures RelsWereAsked(s.core)
    decreases |s.core.log|
  {
    hide At, Effect, GuardCore, HasArrived;
    if s.core.log == [] {
      StartsWithoutRels(s);
    } else {
      BeforeIsSound(s);
      var t, e := Before(s), Last(s);
      RelsHaveRecs(t);
      ControlHolds(t);
      GuardIsCore(t, e);
      forall p | p in s.core.sess.rels ensures HasArrived(s.core.log, Pubrec(p)) {
        if p !in t.core.sess.rels {
          RelsGrowByReplies(t.core, e, p);
          LastHasArrived(t.core.log, Pubrec(p));
        }
        ArrivedStays(t.core.log, e, Pubrec(p));
      }
    }
  }

  lemma StartsWithoutRels(s: State)
    requires Sound(s) && s.core.log == []
    ensures s.core.sess.rels == {}
  {
    AtIsSound(s, 0);
  }

  lemma LastHasArrived(log: seq<Event>, pk: Packet)
    requires ArrivedLast(log, pk)
    ensures HasArrived(log, pk)
  {
  }

  lemma ArrivedEarlier(log: seq<Event>, j: nat, pk: Packet)
    requires j <= |log| && HasArrived(log[..j], pk)
    ensures HasArrived(log, pk)
  {
  }

  /** A PUBREL is sent only after the PUBREC it answers has arrived. */
  lemma PubrelWasAsked(s: State, p: Pid)
    requires Sound(s) && WasSent(s.core.log, Pubrel(p))
    ensures HasArrived(s.core.log, Pubrec(p))
  {
    hide At, HasArrived;
    var j :| 0 <= j < |s.core.log| && s.core.log[j].Sent? && s.core.log[j].packet == Pubrel(p);
    AtIsSound(s, j);
    var t := At(s, j);
    ControlHolds(t);
    RelsHaveRecs(t);
    if p !in t.core.sess.rels {
      LastHasArrived(t.core.log, Pubrec(p));
    }
    ArrivedEarlier(s.core.log, j, Pubrec(p));
  }

  // ---------------------------------------------------------------- the theorem

  /** m has been put into the receive queue with this id and content. */
  predicate Given(log: seq<Event>, p: Pid, m: Inflight) {
    exists i :: 0 <= i < |Queued(log)|
             && var d := Queued(log)[i];
                d.packetId == Some(p) && d.topic == m.topic && d.qos == m.qos && d.retain == m.retain && d.payload == m.payload
  }

  /** p has been used for one accepted message only. */
  ghost predicate UsedOnce(log: seq<Event>, p: Pid) {
    forall m, n :: WasStored(log, p, m) && WasStored(log, p, n) ==> m == n
  }

  lemma TakenIsGiven(b: State, pk: Packet, p: Pid, m: Inflight)
    requires Sound(b) && b.core.ctx.Idle? && pk in Taken(b.core.log) && Carries(pk, p, m)
    ensures Given(b.core.log, p, m)
  {
    TakenIsQueued(b);
    var i :| 0 <= i < |Taken(b.core.log)| && Taken(b.core.log)[i] == pk;
    assert Hands(Queued(b.core.log)[i], pk);
  }

  /** Some message with id p has been put into the receive queue. */
  predicate Queues(log: seq<Event>, p: Pid) {
    exists i :: 0 <= i < |Queued(log)| && Queued(log)[i].packetId == Some(p)
  }

  /** The exact condition, in any run, between calls: a QoS 1 or QoS 2 message with id p has been queued
      for the application if and only if a PUBACK or PUBREC for p has been sent without error. */
  lemma QueuedIffAckSent(b: State, p: Pid)
    requires Sound(b) && b.core.ctx.Idle?
    ensures Queues(b.core.log, p) <==> AckSent(b.core.log, p)
  {
    hide Taken, Queued, Sound, AckSent;
    var log := b.core.log;
    TakenIsQueued(b);
    TakenIffAckSent(b, p);
    if i :| 0 <= i < |Queued(log)| && Queued(log)[i].packetId == Some(p) {
      assert Hands(Queued(log)[i], Taken(log)[i]);
      assert Taken(log)[i] in Taken(log) && PublishesUnder(Taken(log)[i], p);
    }
    if pk :| pk in Taken(log) && PublishesUnder(pk, p) {
      var i :| 0 <= i < |Taken(log)| && Taken(log)[i] == pk;
      assert Hands(Queued(log)[i], pk);
    }
  }

  lemma {:induction false} TakenHasArrived(log: seq<Event>, pk: Packet)
    requires pk in Taken(log)
    ensures HasArrived(log, pk)
    decreases |log|
  {
    var short, e := log[..|log| - 1], log[|log| - 1];
    assert log == short + [e];
    if pk in Taken(short) {
      TakenHasArrived(short, pk);
      ArrivedStays(short, e, pk);
    } else if e.Sent? {
      assert log[|log| - 2].packet == pk;
    }
  }

  /** Some message that a accepted under p has been given to b's application, same id and content. */
  ghost predicate Reached(a: State, b: State, p: Pid) {
    exists m :: WasStored(a.core.log, p, m) && Given(b.core.log, p, m)
  }

  /** If the channel from a to b invents nothing, b's application has been given a message that a
      accepted under p if and only if b has sent a PUBACK or PUBREC for p without error. */
  lemma ReachedIffAckSent(a: State, b: State, p: Pid)
    requires Sound(a) && Sound(b) && b.core.ctx.Idle? && NothingInvented(a.core.log, b.core.log)
    ensures Reached(a, b, p) <==> AckSent(b.core.log, p)
  {
    hide HasArrived, WasSent, AckSent, WasStored, Taken, Queued, Sound;
    if m :| WasStored(a.core.log, p, m) && Given(b.core.log, p, m) {
      QueuedIffAckSent(b, p);
    }
    TakenIffAckSent(b, p);
    if pk :| pk in Taken(b.core.log) && PublishesUnder(pk, p) {
      TakenHasArrived(b.core.log, pk);
      assert Delivery(pk);
      PublishedWasStored(a, pk, p);
      var m :| WasStored(a.core.log, p, m) && Carries(pk, p, m);
      TakenIsGiven(b, pk, p, m);
    }
  }

  /** MQTT 3.1.1 sections 4.3.2 and 4.3.3, at least once: a and b are any reachable states of two
      clients, b between calls, joined by channels that invent nothing, and a PUBACK or PUBCOMP for p
      has reached a (which is what makes a report MessageAcknowledged(p)). Then b has acknowledged p,
      and b's application has been given a message that a accepted under p, with the same id, topic,
      QoS, retain flag and payload, if and only if b sent some PUBACK or PUBREC for p without error:
      the one way to lose it is that each of them reached the wire and failed afterwards. If p was used
      once, the message given is the one accepted under p. */
  lemma AcknowledgedMeansGiven(a: State, b: State, p: Pid)
    requires Sound(a) && Sound(b) && b.core.ctx.Idle?
    requires NothingInvented(a.core.log, b.core.log) && NothingInvented(b.core.log, a.core.log)
    requires HasArrived(a.core.log, Puback(p)) || HasArrived(a.core.log, Pubcomp(p))
    ensures AckTried(b.core.log, p)
    ensures Reached(a, b, p) <==> AckSent(b.core.log, p)
    ensures UsedOnce(a.core.log, p) && AckSent(b.core.log, p) ==>
              forall m :: WasStored(a.core.log, p, m) ==> Given(b.core.log, p, m)
  {
    hide HasArrived, WasSent, AckSent, WasStored, Given;
    ReachedIffAckSent(a, b, p);
    assert Delivery(Puback(p)) && Delivery(Pubcomp(p)) && Delivery(Pubrec(p)) && Delivery(Pubrel(p));
    if !HasArrived(a.core.log, Puback(p)) {
      AckWasAsked(b, Pubcomp(p));
      assert HasArrived(b.core.log, Pubrel(p));
      PubrelWasAsked(a, p);
    }
  }

  /** What poll reports as acknowledged is an id whose PUBACK or PUBCOMP has just arrived. */
  lemma ReportedMeansArrived(s: State, p: Pid)
    requires s.core.connected && C.ReceiveOne(s).r == Ok(Some(MessageAcknowledged(p)))
    ensures var log := C.ReceiveOne(s).s.core.log; HasArrived(log, Puback(p)) || HasArrived(log, Pubcomp(p))
  {
    var pk := s.core.world.read(|s.core.log|).value;
    var c1 := Post(s.core, Arrived(pk, s.core.world.clock(|s.core.log|)));
    assert pk == Puback(p) || pk == Pubcomp(p);
    assert !c1.ctx.Owing?;
    LastHasArrived(c1.log, pk);
  }

  predicate Reports(o: C.Outcome<Option<ClientEvent>>, p: Pid) { o.r == Ok(Some(MessageAcknowledged(p))) }

  lemma PollEndsReceiving(s: State, p: Pid)
    requires Ready(s)
    ensures Reports(C.Poll(s), p) ==> exists t: State :: t.core.connected && C.ReceiveOne(t) == C.Poll(s)
  {
    hide C.Maintain, C.ReceiveOne, C.ReconnectBody, Ready;
    var s0 := Apply(s, Called(PollOp));
    CalledIsReady(s, PollOp);
    if s0.core.connected && s0.core.world.alive(|s0.core.log|) {
      MaintainConforms(s0);
    } else {
      ReconnectBodyConforms(s0);
      if C.ReconnectBody(s0).r.Ok? {
        MaintainConforms(C.ReconnectBody(s0).s);
      }
    }
  }

  lemma CalledIsReady(s: State, op: Op)
    requires Ready(s)
    ensures Ready(Apply(s, Called(op)))
  {
    Step(s, Called(op));
  }

  /** The same seen from the API: if a poll of a, made between any two calls, reports
      MessageAcknowledged(p), then b has acknowledged p, and b's application has been given the message
      exactly unless all those acknowledgments failed after reaching the wire. */
  lemma ReportedMeansGiven(a: State, b: State, p: Pid)
    requires Ready(a) && Ready(b)
    ensures var t := C.Poll(a).s;
            && Reports(C.Poll(a), p)
            && NothingInvented(t.core.log, b.core.log) && NothingInvented(b.core.log, t.core.log)
            ==>
            && AckTried(b.core.log, p)
            && (Reached(t, b, p) <==> AckSent(b.core.log, p))
            && (UsedOnce(t.core.log, p) && AckSent(b.core.log, p) ==>
                  forall m :: WasStored(t.core.log, p, m) ==> Given(b.core.log, p, m))
  {
    hide C.Poll, C.ReceiveOne, NothingInvented, AckTried, AckSent, Reached, UsedOnce, Given, WasStored;
    var t := C.Poll(a).s;
    if
      && Reports(C.Poll(a), p)
      && NothingInvented(t.core.log, b.core.log) && NothingInvented(b.core.log, t.core.log)
    {
      PollConforms(a);
      PollEndsReceiving(a, p);
      var u: State :| u.core.connected && C.ReceiveOne(u) == C.Poll(a);
      ReportedMeansArrived(u, p);
      AcknowledgedMeansGiven(t, b, p);
    }
  }

  /** The acknowledgment that an inbound PUBLISH under p calls for. */
  function AckOf(pk: Packet, p: Pid): Packet
    requires PublishesUnder(pk, p)
  {
    if pk.qosPid.Level1? then Puback(p) else Pubrec(p)
  }

  lemma ReceivesWithId(c: Core, pk: Packet, p: Pid)
    requires c.world.read(|c.log|) == Some(pk) && PublishesUnder(pk, p)
    ensures var c1 := Post(c, Arrived(pk, c.world.clock(|c.log|)));
            var st := E.Receive(c);
            && st.c == Post(c1, SendEvent(c1, AckOf(pk, p)))
            && (st.r.Ok? <==> SendEvent(c1, AckOf(pk, p)).ok)
            && (st.r.Ok? ==> st.r.value == PublishReceived(pk.topic, Qos(pk.qosPid), pk.retain, pk.payload, Some(p)))
  {
    hide SendEvent;
  }

  lemma ReceiveOneEnds(s: State)
    requires var st := E.Receive(s.core); st.r.Ok? ==> st.r.value.PublishReceived?
    ensures var st, o := E.Receive(s.core), C.ReceiveOne(s);
            && (o.r.Ok? <==> st.r.Ok?)
            && |o.s.core.log| == |st.c.log| + 1
            && o.s.core.log[..|st.c.log|] == st.c.log
            && (o.s.core.log[|st.c.log|].Delivered? <==> st.r.Ok?)
            && o.s.core.wire == st.c.wire
            && (o.r.Ok? ==>
                  && o.r.value.Some? && o.r.value.value.MessageReceived?
                  && var m, a := o.r.value.value.msg, st.r.value;
                     && o.s.core.log[|st.c.log|] == Delivered(m)
                     && m == Received(a.topic, a.qos, a.retain, a.payload, a.packetId, m.timestamp))
  {
    hide E.Receive;
  }

  lemma SendWire(c: Core, e: Event)
    requires e.Sent?
    ensures Post(c, e).wire == c.wire + Take(Encoded(c.cfg, e.packet), e.written)
  {
  }

  lemma ArrivalWire(c: Core, pk: Packet, at: Millis)
    ensures Post(c, Arrived(pk, at)).wire == c.wire
  {
  }

  /** The same for one call: a received QoS 1 or QoS 2 message is queued, and reported with its content,
      if and only if its PUBACK or PUBREC was sent without error, whatever has been received under p
      before. An error of the final transport flush comes too late to keep the acknowledgment off the
      wire, so the sender may be told although the message was not queued. */
  lemma QueuedIffAcknowledged(s: State, pk: Packet, p: Pid)
    requires s.core.world.read(|s.core.log|) == Some(pk) && PublishesUnder(pk, p)
    ensures var o := C.ReceiveOne(s);
            var c1 := Post(s.core, Arrived(pk, s.core.world.clock(|s.core.log|)));
            var e := SendEvent(c1, AckOf(pk, p));
            && o.s.core.wire == s.core.wire + Take(Encoded(s.core.cfg, AckOf(pk, p)), e.written)
            && (o.r.Ok? <==> e.ok)
            && (o.r.Err? ==> Queued(o.s.core.log) == Queued(s.core.log))
            && (o.r.Ok? ==>
                  && o.r.value.Some? && o.r.value.value.MessageReceived?
                  && Hands(o.r.value.value.msg, pk)
                  && Queued(o.s.core.log) == Queued(s.core.log) + [o.r.value.value.msg])
  {
    hide SendEvent, Encoded, Take, E.Receive, C.ReceiveOne, Effect;
    var at := s.core.world.clock(|s.core.log|);
    var c1 := Post(s.core, Arrived(pk, at));
    var e := SendEvent(c1, AckOf(pk, p));
    var c2 := Post(c1, e);
    ReceivesWithId(s.core, pk, p);
    ReceiveOneEnds(s);
    ArrivalWire(s.core, pk, at);
    SendWire(c1, e);
    QueuedSnoc(s.core.log, Arrived(pk, at));
    QueuedSnoc(c1.log, e);
    var log := C.ReceiveOne(s).s.core.log;
    assert log == c2.log + [log[|c2.log|]];
    QueuedSnoc(c2.log, log[|c2.log|]);
  }

  /** So inbound QoS 2 is at least once, not exactly once: the same PUBLISH, received twice with both
      PUBRECs sent, is queued twice. */
  lemma DuplicateIsQueuedTwice(s: State, pk: Packet, p: Pid)
    requires pk.Publish? && pk.qosPid == Level2(p) && s.core.world.read(|s.core.log|) == Some(pk)
    ensures var o := C.ReceiveOne(s);
            var u := C.ReceiveOne(o.s);
            o.r.Ok? && o.s.core.world.read(|o.s.core.log|) == Some(pk) && u.r.Ok? ==>
              exists m, n :: Hands(m, pk) && Hands(n, pk) && Queued(u.s.core.log) == Queued(s.core.log) + [m, n]
  {
    hide C.ReceiveOne, SendEvent, Queued;
    var o := C.ReceiveOne(s);
    var u := C.ReceiveOne(o.s);
    if o.r.Ok? && o.s.core.world.read(|o.s.core.log|) == Some(pk) && u.r.Ok? {
      QueuedIffAcknowledged(s, pk, p);
      QueuedIffAcknowledged(o.s, pk, p);
      var m, n := o.r.value.value.msg, u.r.value.value.msg;
      assert Queued(s.core.log) + [m] + [n] == Queued(s.core.log) + [m, n];
    }
  }

  lemma QueuedSnoc(log: seq<Event>, e: Event)
    ensures Queued(log + [e]) == Queued(log) + if e.Delivered? then [e.item] else []
  {
    assert (log + [e])[..|log|] == log;
  }

  lemma {:induction false} AllWritten(w: World, k: nat, j: nat, size: nat, done: nat)
    requires done <= size && forall i: nat :: w.write(k, i).Some? && w.write(k, i).value > 0
    ensures WriteAll(w, k, j, size, done).ok
    decreases size - done
  {
    if done < size {
      var m := Min(w.write(k, j).value, size - done);
      AllWritten(w, k, j + 1, size, done + m);
    }
  }

  /** The late flush error exists: if the transport accepts every write but its final flush fails, the
      whole packet is on the wire and the send counts as failed. */
  lemma FailedSendMayBeComplete(c: Core, pk: Packet)
    requires c.cfg.encode(pk).Some? && !c.world.flush(|c.log|)
    requires forall i: nat :: c.world.write(|c.log|, i).Some? && c.world.write(|c.log|, i).value > 0
    ensures !SendEvent(c, pk).ok && SendEvent(c, pk).written == |Encoded(c.cfg, pk)|
  {
    var b := c.cfg.encode(pk).value;
    AllWritten(c.world, |c.log|, 0, |b|, 0);
    var r := WriteAll(c.world, |c.log|, 0, |b|, 0);
    assert FlushQueue(c.world, |c.log|, r.calls, [b][1..]) == Flushed([], [], false);
    assert b + [] == b;
  }
}
