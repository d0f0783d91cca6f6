/** What a poll reports for the packet it has read, what it answers, and what it settles in the session,
    packet by packet. */
module Reporting {
  import opened Mqtt
  import opened Wire
  import opened SessionModel
  import opened Machine
  import opened Control
  import opened Conformance
  import opened Connecting
  import opened Retries
  import opened Chores
  import opened Pacing
  import opened Maintenance
  import Grammar
  import E = EngineModel
  import C = ClientModel

  // ---------------------------------------------------------------- one packet

  /** Nothing is sent at or after position n. */
  predicate Unanswered(log: seq<Event>, n: nat) { forall j :: n <= j < |log| ==> !log[j].Sent? }

  /** The one send at or after position n is that of reply, at n. */
  predicate AnsweredBy(log: seq<Event>, n: nat, reply: Packet) {
    n < |log| && log[n].Sent? && log[n].packet == reply && Unanswered(log, n + 1)
  }

  /** The engine answers with reply; the result is what `done` says of a good send and the error of a bad one. */
  predicate RepliesWith(c: Core, st: E.Step<Action>, reply: Packet, done: Action) {
    var n := |c.log|;
    && |st.c.log| == n + 2 && AnsweredBy(st.c.log, n + 1, reply)
    && st.r == if st.c.log[n + 1].ok then Ok(done) else Err(SendError(c.cfg, reply))
  }

  predicate Silent(c: Core, st: E.Step<Action>) { |st.c.log| == |c.log| + 1 }

  /** What the engine does with a packet it has read: the session it leaves, the reply it sends, and its
      result. A first PUBREL is recorded only if it was sent. */
  ghost predicate Handles(c: Core, pk: Packet, st: E.Step<Action>) {
    var n := |c.log|;
    && c.log <= st.c.log && n < |st.c.log| && st.c.log[n] == Arrived(pk, c.world.clock(n))
    && st.c.world == c.world && st.c.cfg == c.cfg
    && match pk
       case Puback(p) =>
         Silent(c, st) && st.r == Ok(PublishAck(p)) && st.c.sess == c.sess.(pubs := c.sess.pubs - {p})
       case Pubcomp(p) =>
         Silent(c, st) && st.r == Ok(PublishComplete(p)) && st.c.sess == c.sess.(pubs := c.sess.pubs - {p}, rels := c.sess.rels - {p})
       case Pubrec(p) =>
         if p in c.sess.pubs then
           && RepliesWith(c, st, Pubrel(p), PublishRec(p))
           && st.c.sess == c.sess.(pubs := c.sess.pubs - {p}, rels := if st.r.Ok? then c.sess.rels + {p} else c.sess.rels)
         else Silent(c, st) && st.r == Ok(PublishRec(p)) && st.c.sess == c.sess
       case Pubrel(p) => RepliesWith(c, st, Pubcomp(p), PublishRelease(p)) && st.c.sess == c.sess
       case Publish(_, qosPid, retain, topic, payload, _) =>
         var a := PublishReceived(topic, Qos(qosPid), retain, payload, PidOf(qosPid));
         && st.c.sess == c.sess
         && (match qosPid
             case Level0 => Silent(c, st) && st.r == Ok(a)
             case Level1(p) => RepliesWith(c, st, Puback(p), a)
             case Level2(p) => RepliesWith(c, st, Pubrec(p), a))
       case Suback(p, codes) => Silent(c, st) && st.r == Ok(SubscribeAck(p, codes)) && st.c.sess == c.sess
       case Unsuback(p) => Silent(c, st) && st.r == Ok(UnsubscribeAck(p)) && st.c.sess == c.sess
       case Pingresp => Silent(c, st) && st.r == Ok(PingResponse) && st.c.sess == c.sess
       case Connack(present, code) => Silent(c, st) && st.r == Ok(ConnectAck(present, code)) && st.c.sess == c.sess
       case Disconnect =>
         Silent(c, st) && st.c.sess == c.sess && st.r == if c.cfg.version.V5? then Ok(NoAction) else Err(Codec)
       case _ => Silent(c, st) && st.c.sess == c.sess && st.r == Err(Codec)
  }

  lemma AbsentStays(pubs: map<Pid, Inflight>, p: Pid)
    requires p !in pubs
    ensures pubs - {p} == pubs
  {
  }

  lemma EngineHandlesRec(c: Core, p: Pid)
    requires c.world.read(|c.log|) == Some(Pubrec(p))
    ensures Handles(c, Pubrec(p), E.Receive(c))
  {
    hide SendEvent;
    if p !in c.sess.pubs {
      AbsentStays(c.sess.pubs, p);
    }
  }

  lemma EngineHandlesPublish(c: Core, pk: Packet)
    requires c.world.read(|c.log|) == Some(pk) && pk.Publish?
    ensures Handles(c, pk, E.Receive(c))
  {
    hide SendEvent;
  }

  lemma EngineHandlesOthers(c: Core, pk: Packet)
    requires c.world.read(|c.log|) == Some(pk) && !pk.Publish? && !pk.Pubrec?
    ensures Handles(c, pk, E.Receive(c))
  {
    hide SendEvent;
  }

  lemma EngineHandles(c: Core, pk: Packet)
    requires c.world.read(|c.log|) == Some(pk)
    ensures Handles(c, pk, E.Receive(c))
  {
    hide Handles, E.Receive;
    match pk
    case Pubrec(p) => EngineHandlesRec(c, p);
    case Publish(_, _, _, _, _, _) => EngineHandlesPublish(c, pk);
    case _ => EngineHandlesOthers(c, pk);
  }

  // ---------------------------------------------------------------- what is reported

  /** The subscription table after a SUBACK: the first return code decides, 0 to 2 for Active and anything
      above for Failed; an unknown id or an empty SUBACK changes nothing; and an Active filter is indexed
      if the index has room. */
  predicate Confirms(s: Session, t: Session, p: Pid, codes: seq<nat>) {
    if p !in s.subs || codes == [] then t == s
    else if codes[0] <= 2 then
      && t.subs == s.subs[p := SubInfo(s.subs[p].filter, s.subs[p].qos, Active)]
      && t == s.(subs := t.subs, active := if |s.active| < s.capacity then s.active + {s.subs[p].filter} else s.active)
    else t == s.(subs := s.subs[p := SubInfo(s.subs[p].filter, s.subs[p].qos, SubState.Failed)])
  }

  lemma ConfirmConfirms(s: Session, p: Pid, codes: seq<nat>)
    ensures Confirms(s, ConfirmSub(s, p, codes), p, codes)
  {
  }

  /** The event of a message: it is reported, with the content of the packet, and it is the last one queued. */
  predicate ReportsMessage(s: State, o: C.Outcome<Option<ClientEvent>>, pk: Packet) {
    && o.r.Ok? && o.r.value.Some? && o.r.value.value.MessageReceived?
    && Hands(o.r.value.value.msg, pk)
    && |o.s.app.inbox| > 0 && o.s.app.inbox[|o.s.app.inbox| - 1] == o.r.value.value.msg
  }

  /** The reply went out at position n and the result is `done`, or it failed and the result is its error. */
  predicate RepliesThen(s: State, o: C.Outcome<Option<ClientEvent>>, reply: Packet, done: Option<ClientEvent>) {
    var n := |s.core.log| + 1;
    && AnsweredBy(o.s.core.log, n, reply)
    && o.r == if o.s.core.log[n].ok then Ok(done) else Err(SendError(s.core.cfg, reply))
  }

  predicate TakesOver(s: State, o: C.Outcome<Option<ClientEvent>>, reply: Packet, pk: Packet) {
    var n := |s.core.log| + 1;
    && AnsweredBy(o.s.core.log, n, reply)
    && if o.s.core.log[n].ok then ReportsMessage(s, o, pk) else o.r == Err(SendError(s.core.cfg, reply)) && o.s.app.inbox == s.app.inbox
  }

  /** What the application is told of packet pk, and what goes out in answer. */
  predicate Tells(s: State, pk: Packet, o: C.Outcome<Option<ClientEvent>>) {
    var n, log, sess := |s.core.log|, o.s.core.log, s.core.sess;
    && s.core.log <= log && n < |log| && log[n] == Arrived(pk, s.core.world.clock(n))
    && o.s.app.status == (if o.r.Err? && !pk.Suback? then Status.Failed else s.app.status)
    && (!pk.Publish? ==> o.s.app.inbox == s.app.inbox)
    && o.s.core.sess.pubs == (if pk.Puback? || pk.Pubrec? || pk.Pubcomp? then sess.pubs - {pk.pid} else sess.pubs)
    && o.s.core.sess.rels == (match pk
                              case Pubcomp(p) => sess.rels - {p}
                              case Pubrec(p) => if p in sess.pubs && o.r.Ok? then sess.rels + {p} else sess.rels
                              case _ => sess.rels)
    && (if pk.Suback? then Confirms(sess, o.s.core.sess, pk.pid, pk.codes)
        else o.s.core.sess.subs == sess.subs && o.s.core.sess.active == sess.active)
    && match pk
       case Puback(p) => Unanswered(log, n + 1) && o.r == Ok(Some(MessageAcknowledged(p)))
       case Pubcomp(p) => Unanswered(log, n + 1) && o.r == Ok(Some(MessageAcknowledged(p)))
       case Pubrec(p) =>
         if p in sess.pubs then RepliesThen(s, o, Pubrel(p), None) else Unanswered(log, n + 1) && o.r == Ok(None)
       case Pubrel(p) => RepliesThen(s, o, Pubcomp(p), None)
       case Publish(_, qosPid, _, _, _, _) =>
         (match qosPid
          case Level0 => Unanswered(log, n + 1) && ReportsMessage(s, o, pk)
          case Level1(p) => TakesOver(s, o, Puback(p), pk)
          case Level2(p) => TakesOver(s, o, Pubrec(p), pk))
       case Suback(p, codes) =>
         && Unanswered(log, n + 1)
         && o.r == if p in sess.subs && codes != [] && codes[0] <= 2 && |sess.active| >= sess.capacity
                   then Err(Internal) else Ok(Some(SubscriptionConfirmed(p)))
       case Unsuback(p) => Unanswered(log, n + 1) && o.r == Ok(Some(UnsubscriptionConfirmed(p)))
       case Pingresp => Unanswered(log, n + 1) && o.r == Ok(Some(Pong))
       case Connack(_, _) => Unanswered(log, n + 1) && o.r == Ok(None)
       case Disconnect => Unanswered(log, n + 1) && o.r == if s.core.cfg.version.V5? then Ok(None) else Err(Codec)
       case _ => Unanswered(log, n + 1) && o.r == Err(Codec)
  }

  /** A packet that could not be read fails the client; any other is answered and reported as Tells says. */
  lemma ReceivingTells(s: State)
    ensures match s.core.world.read(|s.core.log|)
            case None =>
              var o := C.ReceiveOne(s);
              o.r == Err(Transport) && o.s.app == s.app.(status := Status.Failed) && Grammar.SendsNothing(s.core, o.s.core)
              && o.s.core.sess == s.core.sess
            case Some(pk) => Tells(s, pk, C.ReceiveOne(s))
  {
    hide SendEvent, E.Receive;
    match s.core.world.read(|s.core.log|)
    case None => ReadingFails(s.core);
    case Some(pk) =>
      EngineHandles(s.core, pk);
      HandledTells(s, pk, E.Receive(s.core));
  }

  lemma ReadingFails(c: Core)
    requires c.world.read(|c.log|).None?
    ensures E.Receive(c) == E.Step(Post(c, ReadFailed), Err(Transport))
  {
  }

  /** What the client makes of the engine's result. */
  function Concludes(s: State, st: E.Step<Action>): C.Outcome<Option<ClientEvent>> {
    var o := C.Lift(s, st);
    match o.r
    case Err(e) => C.Fail(Apply(o.s, StatusSet(Status.Failed)), e)
    case Ok(a) => C.HandleAction(o.s, a)
  }

  lemma SubackTells(s: State, pk: Packet, st: E.Step<Action>)
    requires Handles(s.core, pk, st) && pk.Suback?
    ensures Tells(s, pk, Concludes(s, st))
  {
    hide SendEvent, AfterSend, AfterArrival, HandlePacket, ConfirmSub;
    ConfirmConfirms(s.core.sess, pk.pid, pk.codes);
  }

  lemma QosZeroTells(s: State, pk: Packet, st: E.Step<Action>)
    requires Handles(s.core, pk, st) && pk.Publish? && pk.qosPid == Level0
    ensures Tells(s, pk, Concludes(s, st))
  {
    hide SendEvent, AfterSend, AfterArrival, HandlePacket, ConfirmSub, RemoveSub;
    DeliveringQueues(C.Lift(s, st).s, Concludes(s, st).r.value.value.msg);
    hide Apply;
  }

  lemma PublishFails(s: State, pk: Packet, st: E.Step<Action>)
    requires Handles(s.core, pk, st) && pk.Publish? && pk.qosPid != Level0 && st.r.Err?
    ensures Tells(s, pk, Concludes(s, st))
  {
    hide SendEvent, AfterSend, AfterArrival, HandlePacket, Effect, Apply;
    FailingKeeps(C.Lift(s, st).s);
  }

  lemma PublishTells(s: State, pk: Packet, st: E.Step<Action>)
    requires Handles(s.core, pk, st) && pk.Publish? && pk.qosPid != Level0
    ensures Tells(s, pk, Concludes(s, st))
  {
    if st.r.Ok? {
      hide SendEvent, AfterSend, AfterArrival, HandlePacket, Effect, Apply;
      DeliveringQueues(C.Lift(s, st).s, Concludes(s, st).r.value.value.msg);
    } else {
      hide Tells, Handles, Concludes;
      PublishFails(s, pk, st);
    }
  }

  lemma FailingKeeps(s: State)
    ensures var t := Apply(s, StatusSet(Status.Failed));
            t.core == s.core.(log := s.core.log + [StatusSet(Status.Failed)]) && t.app == s.app.(status := Status.Failed)
  {
  }

  lemma DeliveringQueues(s: State, m: Received)
    ensures var t := Apply(s, Delivered(m));
            && t.app.status == s.app.status
            && |t.app.inbox| > 0 && t.app.inbox[|t.app.inbox| - 1] == m
            && t.core.sess == s.core.sess && t.core.log == s.core.log + [Delivered(m)]
  {
  }

  lemma ReleaseTells(s: State, pk: Packet, st: E.Step<Action>)
    requires Handles(s.core, pk, st) && (pk.Pubrec? || pk.Pubrel?)
    ensures Tells(s, pk, Concludes(s, st))
  {
    hide SendEvent, AfterSend, AfterArrival, HandlePacket, ConfirmSub;
    if pk.pid !in s.core.sess.pubs {
      AbsentStays(s.core.sess.pubs, pk.pid);
    }
  }

  lemma OthersTell(s: State, pk: Packet, st: E.Step<Action>)
    requires Handles(s.core, pk, st) && !pk.Suback? && !pk.Publish? && !pk.Pubrec? && !pk.Pubrel?
    ensures Tells(s, pk, Concludes(s, st))
  {
    hide SendEvent, AfterSend, AfterArrival, HandlePacket, ConfirmSub;
  }

  lemma HandledTells(s: State, pk: Packet, st: E.Step<Action>)
    requires Handles(s.core, pk, st)
    ensures Tells(s, pk, Concludes(s, st))
  {
    hide Handles, Tells, Concludes;
    match pk
    case Suback(_, _) => SubackTells(s, pk, st);
    case Publish(_, qosPid, _, _, _, _) =>
      if qosPid.Level0? {
        QosZeroTells(s, pk, st);
      } else {
        PublishTells(s, pk, st);
      }
    case Pubrec(_) => ReleaseTells(s, pk, st);
    case Pubrel(_) => ReleaseTells(s, pk, st);
    case _ => OthersTell(s, pk, st);
  }

  // ---------------------------------------------------------------- poll

  lemma MaintenanceReadsNothing(s: State)
    requires Ready(s)
    ensures Grammar.ReadsNothing(s.core, C.Maintain(s).s.core)
  {
    hide E.Sweep, C.PingBody, Ready, Buildable;
    ReadyCanBuild(s);
    var now := s.core.world.clock(|s.core.log|);
    var s1 := Apply(s, Ticked(now));
    PingReadsNothing(s1);
    PingKeepsSession(s1);
    var o := if E.KeepAliveDue(s1.core, now) then C.PingBody(s1) else C.Outcome(s1, Ok(()));
    SweepDoesNotTick(o.s.core, now);
  }

  lemma PingReadsNothing(s: State)
    ensures Grammar.ReadsNothing(s.core, C.PingBody(s).s.core)
  {
    hide SendEvent;
  }

  /** The log acknowledges p: a PUBACK or PUBCOMP for p arrives at or after position n. */
  predicate Acknowledges(log: seq<Event>, n: nat, p: Pid) {
    exists j :: n <= j < |log| && log[j].Arrived? && log[j].packet in {Puback(p), Pubcomp(p)}
  }

  /** At most one packet is read, at position n, by a receive that starts there. */
  lemma OneArrival(s: State)
    ensures var n, log := |s.core.log|, C.ReceiveOne(s).s.core.log;
            s.core.log <= log && forall j :: n < j < |log| ==> !log[j].Arrived?
  {
    hide E.Receive;
    EngineOneArrival(s.core);
  }

  lemma EngineOneArrival(c: Core)
    ensures var n, log := |c.log|, E.Receive(c).c.log;
            c.log <= log && n < |log| && forall j :: n < j < |log| ==> !log[j].Arrived?
  {
    hide SendEvent, Effect;
  }

  /** A receive reports MessageAcknowledged(p) if and only if what it reads is a PUBACK or PUBCOMP for p. */
  lemma ReceiveAcknowledgesIff(s: State, p: Pid)
    ensures C.ReceiveOne(s).r == Ok(Some(MessageAcknowledged(p)))
            <==> s.core.world.read(|s.core.log|) in {Some(Puback(p)), Some(Pubcomp(p))}
    ensures C.ReceiveOne(s).r == Ok(Some(MessageAcknowledged(p))) <==> Acknowledges(C.ReceiveOne(s).s.core.log, |s.core.log|, p)
  {
    hide C.ReceiveOne, Confirms;
    ReceivingTells(s);
    OneArrival(s);
    var n, log := |s.core.log|, C.ReceiveOne(s).s.core.log;
    if s.core.world.read(n).None? {
      NoneArrives(s);
    } else {
      assert n < |log| && log[n].Arrived?;
    }
  }

  lemma NoneArrives(s: State)
    requires s.core.world.read(|s.core.log|).None?
    ensures Grammar.ReadsNothing(s.core, C.ReceiveOne(s).s.core)
  {
    hide E.Receive;
    ReadingFails(s.core);
  }

  /** A poll, made in any state between calls and in any world, reports MessageAcknowledged(p) if and only if
      a PUBACK or PUBCOMP for p has arrived in it. */
  lemma PollAcknowledgesIff(s: State, p: Pid)
    requires Ready(s)
    ensures C.Poll(s).r == Ok(Some(MessageAcknowledged(p))) <==> Acknowledges(C.Poll(s).s.core.log, |s.core.log|, p)
  {
    hide C.Maintain, C.ReceiveOne, C.ReconnectBody, Ready;
    if s.core.connected && s.core.world.alive(|s.core.log| + 1) {
      var s0 := Apply(s, Called(PollOp));
      CalledReady(s, PollOp);
      MaintenanceReadsNothing(s0);
      var o := C.Maintain(s0);
      if o.r.Ok? {
        ReceiveAcknowledgesIff(o.s, p);
        OneArrival(o.s);
      }
    } else {
      hide C.Poll;
      LostPollIsSilent(s);
    }
  }

  lemma CalledReady(s: State, op: Op)
    requires Ready(s)
    ensures Ready(Apply(s, Called(op)))
  {
    Step(s, Called(op));
  }

  /** A poll whose maintenance succeeds reads one packet, in the state maintenance left, and tells of it. */
  lemma PollTells(s: State)
    requires Ready(s) && s.core.connected && s.core.world.alive(|s.core.log| + 1)
    ensures var kept := C.Maintain(Apply(s, Called(PollOp)));
            && (kept.r.Err? ==> C.Poll(s) == C.Outcome(kept.s, Err(kept.r.error)))
            && (kept.r.Ok? ==>
                  match kept.s.core.world.read(|kept.s.core.log|)
                  case None => C.Poll(s).r == Err(Transport) && C.Poll(s).s.app.status == Status.Failed
                  case Some(pk) => Tells(kept.s, pk, C.Poll(s)))
  {
    hide C.Maintain, C.ReceiveOne, Tells, Ready;
    ReceivingTells(C.Maintain(Apply(s, Called(PollOp))).s);
  }

  lemma RepliesFollow(s: State)
    ensures var n, log := |s.core.log|, C.ReceiveOne(s).s.core.log;
            && s.core.log <= log
            && forall j :: n <= j < |log| && log[j].Sent? ==> j == n + 1 && log[n].Arrived?
  {
    hide C.ReceiveOne, Confirms;
    ReceivingTells(s);
  }

  lemma MaintenanceSendsPubrelIff(s: State, o: C.Outcome<()>, now: Millis)
    requires Maintains(s, o, now)
    ensures SendsPubrel(o.s.core.log, |s.core.log|) <==> !Late(s.core, now) && !PingDue(s.core, now) && RepeatDue(s.core, now)
    ensures s.core.log <= o.s.core.log && |s.core.log| < |o.s.core.log| && o.s.core.log[|s.core.log|] == Ticked(now)
  {
    hide SweepsFrom, Due;
  }

  /** Under a clock that never steps back, a poll over a live connection repeats a PUBREL, and by
      OneRepeatPerPoll only one, if and only if the connection is not timed out, no ping and no PUBLISH is
      due, a PUBREL is recorded, and the last packet is more than 1000 ms older than the poll's reading. */
  lemma PollRepeatsIff(s: State)
    requires Ready(s) && s.core.connected && s.core.world.alive(|s.core.log| + 1) && Monotone(s.core.world)
    ensures var now := s.core.world.clock(|s.core.log| + 1);
            (exists j :: |s.core.log| <= j && Repeats(C.Poll(s).s.core.log, j))
            <==> !Late(s.core, now) && !PingDue(s.core, now) && RepeatDue(s.core, now)
  {
    hide C.Maintain, C.ReceiveOne, C.Poll, Maintains, Ready, Late, PingDue, RepeatDue;
    var n, now := |s.core.log|, s.core.world.clock(|s.core.log| + 1);
    var s0 := Apply(s, Called(PollOp));
    PollMaintains(s);
    CalledReady(s, PollOp);
    CalledKeepsDues(s, PollOp, now);
    var kept := C.Maintain(s0);
    MaintenanceSendsPubrelIff(s0, kept, now);
    MaintenanceReadsNothing(s0);
    RepliesFollow(kept.s);
    RepeatsIff(C.Poll(s).s.core.log, kept.s.core.log, n);
  }

  lemma CalledKeepsDues(s: State, op: Op, now: Millis)
    ensures var c := Apply(s, Called(op)).core;
            && (Late(c, now) <==> Late(s.core, now))
            && (PingDue(c, now) <==> PingDue(s.core, now))
            && (RepeatDue(c, now) <==> RepeatDue(s.core, now))
            && c.log == s.core.log + [Called(op)]
  {
    hide Due;
  }

  /** Of a poll's log, the part up to the end of maintenance reads nothing, and what is sent after it
      answers an arrival: so the repeated PUBRELs are those sent in the first part. */
  lemma RepeatsIff(log: seq<Event>, kept: seq<Event>, n: nat)
    requires n + 1 < |kept| <= |log| && kept == log[..|kept|]
    requires log[n].Called? && log[n + 1].Ticked?
    requires forall j :: n + 1 <= j < |kept| ==> !log[j].Arrived?
    requires forall j :: |kept| <= j < |log| && log[j].Sent? ==> j == |kept| + 1 && log[|kept|].Arrived?
    ensures (exists j :: n <= j && Repeats(log, j)) <==> SendsPubrel(kept, n + 1)
  {
    forall j | |kept| <= j < |log| && log[j].Sent? ensures !Repeats(log, j) {
      assert log[..j][j - 1] == log[|kept|];
    }
    if j :| n <= j && Repeats(log, j) {
      assert kept[j] == log[j];
    }
    if SendsPubrel(kept, n + 1) {
      var j :| n + 1 <= j < |kept| && kept[j].Sent? && kept[j].packet.Pubrel?;
      assert log[j] == kept[j] && log[..j][j - 1] == log[j - 1];
      assert Repeats(log, j);
    }
  }

  /** A poll over a lost or unconnected transport: it reports the disconnection once, ends Disconnected, and
      then reports nothing; it neither sends nor reads. */
  lemma LostPollEnds(s: State)
    requires Ready(s) && !(s.core.connected && s.core.world.alive(|s.core.log| + 1))
    ensures var o := C.Poll(s);
            && o.r == Ok(if s.app.status == Status.Disconnected then None else Some(ClientEvent.Disconnected))
            && o.s.app.status == Status.Disconnected && o.s.app.inbox == s.app.inbox
            && Grammar.SendsNothing(s.core, o.s.core) && Grammar.ReadsNothing(s.core, o.s.core)
            && o.s.core.sess == if s.app.status == Connected && Grammar.ReconnectWipes(s) then Empty(s.core.sess.capacity)
                                else s.core.sess
  {
    hide Ready, C.PollBody, C.ReconnectBody;
    if s.app.status == Connected {
      hide C.Poll;
      ReadyConnected(s);
      Grammar.PollCannotReconnect(s);
      LostPollKeepsInbox(s);
    }
  }

  lemma LostPollKeepsInbox(s: State)
    requires s.core.connected && s.app.status == Connected && !s.core.world.alive(|s.core.log| + 1)
    ensures C.Poll(s).s.app.inbox == s.app.inbox
  {
    hide C.ConnectBody, C.PollBody;
    Grammar.ConnectingTwiceFails(Apply(Apply(s, Called(PollOp)), Attempted));
    RefusedKeepsInbox(Apply(Apply(s, Called(PollOp)), Attempted));
  }

  lemma RefusedKeepsInbox(s: State)
    requires s.core.connected
    ensures C.ConnectBody(s).s.app.inbox == s.app.inbox
  {
    hide C.Opening, E.Connect, C.Opened, Validates;
    OpeningLogs(s);
    Grammar.EngineRefuses(C.Opening(s).core);
  }
}
