/** MQTT 3.1.1 section 4.6: acknowledgments go out in the order in which the packets they answer
    came in, and what has been acknowledged is what the application gets. */
module Replies {
  import opened Mqtt
  import opened SessionModel
  import opened Machine
  import opened Control
  import opened Ledger

  /** The reply that the arrival of pk calls for, by the account of the log before it. */
  function DueFor(l: Ledger, pk: Packet): seq<Packet> {
    match pk
    case Publish(_, Level1(p), _, _, _, _) => [Puback(p)]
    case Publish(_, Level2(p), _, _, _, _) => [Pubrec(p)]
    case Pubrel(p) => [Pubcomp(p)]
    case Pubrec(p) => if p in l.pend then [Pubrel(p)] else []
    case _ => []
  }

  /** All replies called for, in the order of the arrivals. */
  function Dues(log: seq<Event>): seq<Packet>
    decreases |log|
  {
    if log == [] then []
    else
      var short, e := log[..|log| - 1], log[|log| - 1];
      Dues(short) + if e.Arrived? then DueFor(Books(short), e.packet) else []
  }

  /** All replies attempted, in the order sent: the sends that directly follow an arrival. */
  function Answered(log: seq<Event>): seq<Packet>
    decreases |log|
  {
    if log == [] then []
    else
      var short, e := log[..|log| - 1], log[|log| - 1];
      Answered(short) + if e.Sent? && JustArrived(short) then [e.packet] else []
  }

  function StillOwed(ctx: Ctx): seq<Packet> { if ctx.Owing? then [ctx.reply] else [] }

  /** In every reachable state the replies attempted so far, plus the one that is owed right now,
      are exactly the replies called for: PUBACKs, PUBRECs, PUBCOMPs and first PUBRELs all in the
      order of the PUBLISHes, PUBRELs and PUBRECs they answer. */
  lemma {:induction false} RepliesFollowArrivals(s: State)
    requires Sound(s)
    ensures Answered(s.core.log) + StillOwed(s.core.ctx) == Dues(s.core.log)
    decreases |s.core.log|
  {
    hide At, Guard, Effect, DueFor, Enter;
    if s.core.log == [] {
      AtIsSound(s, 0);
      assert s.core.ctx.Idle?;
    } else {
      var t, e := Before(s), Last(s);
      BeforeIsSound(s);
      RepliesFollowArrivals(t);
      BooksAgree(t);
      ControlHolds(t);
      StepReplies(t, e);
    }
  }

  /** An arrival makes owed what it calls for; a send directly after an arrival pays it; no other
      event touches what is owed. */
  lemma StepReplies(s: State, e: Event)
    requires InControl(s) && Reconciled(s.core, Books(s.core.log)) && Guard(s, e)
    ensures var owed, later := StillOwed(s.core.ctx), StillOwed(Post(s.core, e).ctx);
            if e.Arrived? then owed == [] && later == DueFor(Books(s.core.log), e.packet)
            else if e.Sent? && JustArrived(s.core.log) then owed == [e.packet] && later == []
            else later == owed == []
  {
    hide SendEvent, Books, InControl, Agrees, AfterArrival, AfterSend, MaySend;
    GuardIsCore(s, e);
    hide Guard;
    if e.Arrived? {
      ArrivalOwes(s.core, Books(s.core.log), e.packet, e.at);
    } else if e.Sent? {
      ControlHasCtx(s);
      SendPays(s.core, e);
    }
  }

  lemma ControlHasCtx(s: State)
    requires InControl(s)
    ensures CtxOk(s.core)
  {
  }

  lemma ArrivalOwes(c: Core, l: Ledger, pk: Packet, at: Millis)
    requires Reconciled(c, l) && c.ctx.Idle?
    ensures StillOwed(Post(c, Arrived(pk, at)).ctx) == DueFor(l, pk)
  {
  }

  lemma SendPays(c: Core, e: Event)
    requires CtxOk(c) && GuardCore(c, e) && e.Sent?
    ensures StillOwed(Post(c, e).ctx) == []
    ensures StillOwed(c.ctx) == if JustArrived(c.log) then [e.packet] else []
  {
    hide SendEvent;
  }

  /** Acknowledging packets are never sent unasked, and only in answer to what they acknowledge. */
  lemma AcksAnswerArrivals(s: State, j: nat)
    requires Sound(s) && j < |s.core.log| && s.core.log[j].Sent?
    requires var pk := s.core.log[j].packet; pk.Puback? || pk.Pubrec? || pk.Pubcomp?
    ensures j > 0 && s.core.log[j - 1].Arrived? && Answers(s.core.log[j].packet, s.core.log[j - 1].packet)
  {
    AtIsSound(s, j);
    ControlHolds(At(s, j));
  }

  // ---------------------------------------------------------------- delivery to the application

  /** The inbound PUBLISHes taken over, in order: at QoS 0 on arrival, otherwise once the
      acknowledgment has been sent successfully. */
  function Taken(log: seq<Event>): seq<Packet>
    decreases |log|
  {
    if log == [] then []
    else
      var short, e := log[..|log| - 1], log[|log| - 1];
      Taken(short) +
      (if e.Arrived? && e.packet.Publish? && e.packet.qosPid == Level0 then [e.packet]
       else if e.Sent? && e.ok && JustArrived(short) && short[|short| - 1].packet.Publish? then [short[|short| - 1].packet]
       else [])
  }

  /** The messages put into the receive queue, in order. */
  function Queued(log: seq<Event>): seq<Received>
    decreases |log|
  {
    if log == [] then []
    else
      var short, e := log[..|log| - 1], log[|log| - 1];
      Queued(short) + if e.Delivered? then [e.item] else []
  }

  predicate HandsAll(ms: seq<Received>, pks: seq<Packet>) {
    |ms| == |pks| && forall i :: 0 <= i < |ms| ==> Hands(ms[i], pks[i])
  }

  function Undelivered(ctx: Ctx): seq<Packet> { if ctx.Delivering? then [ctx.cause] else [] }

  lemma StepTakes(s: State, e: Event)
    requires InControl(s) && Guard(s, e)
    ensures var now, later := Undelivered(s.core.ctx), Undelivered(Post(s.core, e).ctx);
            var short := s.core.log;
            if e.Delivered? then
              later == [] && |now| == 1 && Hands(e.item, now[0])
            else if e.Arrived? && e.packet.Publish? && e.packet.qosPid == Level0 then
              now == [] && later == [e.packet]
            else if e.Sent? && e.ok && JustArrived(short) && short[|short| - 1].packet.Publish? then
              now == [] && later == [short[|short| - 1].packet]
            else
              now == later == []
  {
    hide SendEvent, Books;
    if e.Arrived? {
      ArrivalUndelivered(s.core, e);
    } else if e.Sent? {
      SendUndelivered(s.core, e);
    }
  }

  lemma ArrivalUndelivered(c: Core, e: Event)
    requires GuardCore(c, e) && e.Arrived?
    ensures Undelivered(c.ctx) == []
    ensures Undelivered(Post(c, e).ctx) ==
            if e.packet.Publish? && e.packet.qosPid == Level0 then [e.packet] else []
  {
  }

  lemma SendUndelivered(c: Core, e: Event)
    requires CtxOk(c) && GuardCore(c, e) && e.Sent?
    ensures Undelivered(c.ctx) == []
    ensures Undelivered(Post(c, e).ctx) ==
            if e.ok && JustArrived(c.log) && c.log[|c.log| - 1].packet.Publish? then [c.log[|c.log| - 1].packet] else []
  {
    hide SendEvent;
  }

  /** The inbound PUBLISHes taken over are exactly the messages queued for the application, in the
      same order and with the same content, plus the one being delivered right now; between calls,
      acknowledged means queued. */
  lemma {:induction false} TakenIsQueued(s: State)
    requires Sound(s)
    ensures |Taken(s.core.log)| == |Queued(s.core.log)| + |Undelivered(s.core.ctx)|
    ensures HandsAll(Queued(s.core.log), Taken(s.core.log)[..|Queued(s.core.log)|])
    ensures Taken(s.core.log)[|Queued(s.core.log)|..] == Undelivered(s.core.ctx)
    decreases |s.core.log|
  {
    hide At, Guard, Effect, Enter, Hands;
    if s.core.log == [] {
      AtIsSound(s, 0);
      assert s.core.ctx.Idle?;
    } else {
      var t, e := Before(s), Last(s);
      BeforeIsSound(s);
      TakenIsQueued(t);
      BooksAgree(t);
      ControlHolds(t);
      StepTakes(t, e);
    }
  }
}
