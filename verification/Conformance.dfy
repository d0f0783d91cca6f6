/** Every public call takes only guarded steps: it leads from a sound state with no work left over
    to a sound state with no work left over, whatever it is called with and whatever the world answers. */
module Conformance {
  import opened Mqtt
  import opened SessionModel
  import opened Machine
  import opened Control
  import E = EngineModel
  import C = ClientModel
  import Aliases
  import opened Wire

  /** Sound, and the call in progress owes nothing. */
  ghost predicate Ready(s: State) {
    Sound(s) && s.core.ctx.Idle? && !JustStored(s.core.log)
  }

  /** Ready, and not directly after an arrival. */
  ghost predicate Calm(s: State) { Ready(s) && !JustArrived(s.core.log) }

  lemma Step(s: State, e: Event)
    requires Sound(s) && Guard(s, e)
    ensures Sound(Apply(s, e)) && InControl(Apply(s, e))
    ensures LastIs(Apply(s, e).core.log, e)
  {
    StepIsSound(s, e);
    ControlHolds(Apply(s, e));
  }

  lemma Send(s: State, pk: Packet)
    requires Sound(s) && MaySend(s.core, pk)
    requires JustStored(s.core.log) ==> pk.Publish? && !pk.dup
    requires JustArrived(s.core.log) ==> s.core.ctx.Owing?
    requires pk.Disconnect? ==> s.app.status == Disconnecting
    ensures var o := C.Lift(s, E.SendPacket(s.core, pk));
            && o.s == Apply(s, SendEvent(s.core, pk))
            && Sound(o.s) && InControl(o.s)
            && !JustStored(o.s.core.log) && !JustArrived(o.s.core.log)
  {
    Step(s, SendEvent(s.core, pk));
  }

  lemma SetStatus(s: State, st: Status)
    requires Ready(s) && (st == Connected ==> s.core.connected)
    ensures var t := Apply(s, StatusSet(st));
            && Ready(t)
            && t.core == s.core.(log := s.core.log + [StatusSet(st)])
            && t.app == s.app.(status := st)
  {
    Step(s, StatusSet(st));
  }

  // ---------------------------------------------------------------- connecting

  lemma EngineConnects(s: State)
    requires Ready(s) && MayConnect(s.core.log)
    ensures var o := C.Lift(s, E.Connect(s.core));
            Ready(o.s) && (o.r.Ok? ==> o.s.core.connected && JustGreeted(o.s.core.log))
  {
    hide SendEvent, InControl, MayConnect;
    if !s.core.connected {
      MayConnectStays(s.core.log, KeepAliveSet(s.core.cfg.keepAlive * 1000));
      var s1 := Apply(s, KeepAliveSet(s.core.cfg.keepAlive * 1000));
      Step(s, KeepAliveSet(s.core.cfg.keepAlive * 1000));
      var pk := Packet.Connect(s.core.cfg.cleanSession, s.core.cfg.keepAlive);
      Send(s1, pk);
      var s2 := Apply(s1, SendEvent(s1.core, pk));
      if SendEvent(s1.core, pk).ok {
        match s2.core.world.read(|s2.core.log|)
        case None => Step(s2, ReadFailed);
        case Some(q) => Step(s2, Greeted(q, s2.core.world.clock(|s2.core.log|)));
      }
    }
  }

  lemma {:induction false} ResendsConform(s: State, pubs: map<Pid, Inflight>, pids: seq<Pid>)
    requires Sound(s) && !JustStored(s.core.log) && !JustArrived(s.core.log) && s.core.sess.pubs == pubs
    requires Distinct(pids) && forall p :: p in pids ==> p in pubs
    requires if pids == [] then s.core.ctx.Idle? else s.core.ctx == Resuming(Elems(pids))
    ensures Ready(C.Lift(s, E.ResendAll(s.core, pubs, pids)).s)
    decreases |pids|
  {
    ControlHolds(s);
    if pids != [] {
      var p, rest := pids[0], pids[1..];
      var m := pubs[p];
      var pk := CreatePublish(m.topic, m.qos, m.retain, m.payload, Some(p), true).value;
      Send(s, pk);
      var t := Apply(s, SendEvent(s.core, pk));
      if SendEvent(s.core, pk).ok {
        assert Elems(pids) - {p} == Elems(rest);
        if rest == [] {
          assert Elems(pids) == {p};
        } else {
          assert rest[0] in Elems(pids) && rest[0] != p;
        }
        ResendsConform(t, pubs, rest);
      }
    }
  }

  lemma ResumeConforms(s: State)
    requires Ready(s) && s.core.connected
    ensures Ready(C.Lift(s, E.ResendPending(s.core)).s)
  {
    Step(s, Resumed);
    var t := Apply(s, Resumed);
    var order := E.PubOrder(s.core);
    assert Elems(order) == s.core.sess.pubs.Keys;
    if order == [] {
      assert s.core.sess.pubs.Keys == {};
      assert s.core.sess.pubs == map[];
    } else {
      assert order[0] in s.core.sess.pubs;
    }
    ResendsConform(t, s.core.sess.pubs, order);
  }

  lemma OpeningConforms(s: State)
    requires Ready(s)
    ensures Ready(C.Opening(s)) && C.Opening(s).core.cfg == s.core.cfg
    ensures MayConnect(C.Opening(s).core.log) == MayConnect(s.core.log)
  {
    hide MayConnect;
    SetStatus(s, Connecting);
    MayConnectStays(s.core.log, StatusSet(Connecting));
    MayConnectStays(s.core.log + [StatusSet(Connecting)], Cleared);
    if s.core.cfg.cleanSession {
      Step(Apply(s, StatusSet(Connecting)), Cleared);
    }
  }

  lemma OpenedConforms(s: State, present: bool)
    requires Ready(s) && s.core.connected && JustGreeted(s.core.log)
    ensures var o := C.Opened(s, present); Ready(o.s) && o.s.core.connected
  {
    hide E.ResendPending, JustGreeted;
    SetStatus(s, Connected);
    assert (s.core.log + [StatusSet(Connected)])[..|s.core.log|] == s.core.log;
    Step(Apply(s, StatusSet(Connected)), AttemptsReset);
    var t := Apply(Apply(s, StatusSet(Connected)), AttemptsReset);
    ResumeConforms(t);
    ResumeStaysConnected(t);
  }

  lemma ConnectBodyConforms(s: State)
    requires Ready(s) && MayConnect(s.core.log)
    ensures var o := C.ConnectBody(s); Ready(o.s) && (o.r.Ok? ==> o.s.core.connected)
  {
    hide E.Connect, Apply, C.Opening, C.Opened, MayConnect, JustGreeted;
    if Validates(s.core.cfg) {
      OpeningConforms(s);
      var s2 := C.Opening(s);
      EngineConnects(s2);
      var o := C.Lift(s2, E.Connect(s2.core));
      if o.r.Err? {
        SetStatus(o.s, Status.Failed);
      } else {
        OpenedConforms(o.s, o.r.value);
      }
    }
  }

  lemma {:induction false} ResendsStayConnected(c: Core, pubs: map<Pid, Inflight>, pids: seq<Pid>)
    ensures E.ResendAll(c, pubs, pids).c.connected == c.connected
    decreases |pids|
  {
    if pids != [] {
      if pids[0] !in pubs {
        ResendsStayConnected(c, pubs, pids[1..]);
      } else {
        var m := pubs[pids[0]];
        var r := CreatePublish(m.topic, m.qos, m.retain, m.payload, Some(pids[0]), true);
        if r.Ok? {
          ResendsStayConnected(Post(c, SendEvent(c, r.value)), pubs, pids[1..]);
        }
      }
    }
  }

  lemma ResumeStaysConnected(s: State)
    ensures E.ResendPending(s.core).c.connected == s.core.connected
  {
    ResendsStayConnected(Post(s.core, Resumed), s.core.sess.pubs, E.PubOrder(s.core));
  }

  lemma ReconnectBodyConforms(s: State)
    requires Ready(s)
    ensures var o := C.ReconnectBody(s); Ready(o.s) && (o.r.Ok? ==> o.s.core.connected)
  {
    var r := s.core.cfg.reconnect;
    if r.enabled && !(r.maxAttempts > 0 && s.app.attempts >= r.maxAttempts) {
      Step(s, Attempted);
      ConnectBodyConforms(Apply(s, Attempted));
    }
  }

  lemma DisconnectConforms(s: State)
    requires Ready(s)
    ensures Ready(C.Disconnect(s).s)
  {
    hide SendEvent, Sound, RelsAfterSend;
    Step(s, Called(DisconnectOp));
    var s0 := Apply(s, Called(DisconnectOp));
    if s0.app.status != Status.Disconnected {
      Step(s0, StatusSet(Disconnecting));
      var s1 := Apply(s0, StatusSet(Disconnecting));
      if s1.core.connected {
        Send(s1, Packet.Disconnect);
      }
      var o := C.Lift(s1, E.Disconnect(s1.core));
      Step(o.s, StatusSet(Status.Disconnected));
    }
  }

  // ---------------------------------------------------------------- publishing

  lemma PublishConforms(s: State, topic: Topic, qos: QoS, retain: bool, payload: Bytes)
    requires Ready(s)
    ensures Ready(C.Publish(s, topic, qos, retain, payload).s)
  {
    hide E.Publish;
    Step(s, Called(PublishOp));
    var s0 := Apply(s, Called(PublishOp));
    if s0.app.status == Connected && |s0.core.sess.pubs| < s0.core.cfg.maxInflight {
      EnginePublishes(s0, topic, qos, retain, payload);
    }
  }

  lemma StoresThenSends(s: State, p: Pid, m: Inflight, pk: Packet)
    requires Ready(s) && s.core.connected && |s.core.sess.pubs| < s.core.cfg.maxInflight
    requires JustAllocated(s.core.log, p)
    requires m.qos != AtMostOnce && m.retryCount == 0 && m.timestamp == s.core.world.clock(|s.core.log|)
    requires Carries(pk, p, m) && !pk.dup
    requires pk.alias.Some? ==>
               if pk.topic in s.core.aliases.given then pk.alias.value == s.core.aliases.given[pk.topic]
               else pk.alias == AskedBy(s.core.log)
    ensures Ready(C.Lift(s, E.SendPacket(Post(s.core, Stored(p, m)), pk)).s)
  {
    hide SendEvent, JustAllocated;
    Step(s, Stored(p, m));
    CallStays(s.core.log, Stored(p, m));
    Send(Apply(s, Stored(p, m)), pk);
  }

  lemma EnginePublishes(s: State, topic: Topic, qos: QoS, retain: bool, payload: Bytes)
    requires Calm(s) && s.core.connected && |s.core.sess.pubs| < s.core.cfg.maxInflight
    ensures Ready(C.Lift(s, E.Publish(s.core, topic, qos, retain, payload)).s)
  {
    hide SendEvent, AfterArrival;
    if qos == AtMostOnce {
      Send(s, CreatePublish(topic, qos, retain, payload, None, false).value);
    } else {
      var p := s.core.sess.nextPid;
      Step(s, Allocated(p));
      var s1 := Apply(s, Allocated(p));
      var pk := CreatePublish(topic, qos, retain, payload, Some(p), false).value;
      StoresThenSends(s1, p, E.Stamp(s1.core, topic, qos, retain, payload), pk);
    }
  }

  lemma PublishV5Conforms(s: State, topic: Topic, qos: QoS, retain: bool, payload: Bytes, asked: Option<nat>)
    requires Ready(s)
    ensures Ready(C.PublishV5(s, topic, qos, retain, payload, asked).s)
  {
    hide C.PublishAliased;
    Step(s, Called(PublishV5Op(asked)));
    var s0 := Apply(s, Called(PublishV5Op(asked)));
    if s0.app.status == Connected && |s0.core.sess.pubs| < s0.core.cfg.maxInflight {
      AliasedConforms(s0, topic, qos, retain, payload, asked);
    }
  }

  lemma AliasedConforms(s: State, topic: Topic, qos: QoS, retain: bool, payload: Bytes, asked: Option<nat>)
    requires Calm(s) && s.core.connected && |s.core.sess.pubs| < s.core.cfg.maxInflight && AskedBy(s.core.log) == asked
    ensures Ready(C.Lift(s, C.PublishAliased(s.core, topic, qos, retain, payload, asked)).s)
  {
    hide SendEvent, Effect, Sound, MaySend;
    var pid := if qos == AtMostOnce then None else Some(s.core.sess.nextPid);
    var plain := CreatePublish(topic, qos, retain, payload, pid, false);
    var pk := plain.value.(alias := Some(Aliases.Chosen(s.core.aliases, topic, asked)));
    if qos == AtMostOnce {
      QosZeroAliased(s, topic, asked, pk);
    } else {
      StoresAliased(s, topic, qos, retain, payload, asked, pk);
    }
  }

  lemma QosZeroAliased(s: State, topic: Topic, asked: Option<nat>, pk: Packet)
    requires Calm(s) && s.core.connected
    requires pk.Publish? && !pk.dup && pk.qosPid == Level0 && pk.topic == topic
    requires pk.alias == Some(Aliases.Chosen(s.core.aliases, topic, asked)) && AskedBy(s.core.log) == asked
    ensures Ready(C.Lift(s, E.SendPacket(E.AssignAlias(s.core, topic, asked), pk)).s)
  {
    hide SendEvent;
    AssignConforms(s, topic, asked);
    Send(s.(core := E.AssignAlias(s.core, topic, asked)), pk);
  }

  lemma AssignConforms(s: State, topic: Topic, asked: Option<nat>)
    requires Ready(s)
    ensures var t := s.(core := E.AssignAlias(s.core, topic, asked));
            && Ready(t)
            && t.core.sess == s.core.sess && t.core.connected == s.core.connected
            && (topic in t.core.aliases.given ==> t.core.aliases.given[topic] == Aliases.Chosen(s.core.aliases, topic, asked))
            && (forall p :: LastIs(s.core.log, Allocated(p)) ==> JustAllocated(t.core.log, p))
            && AskedBy(t.core.log) == AskedBy(s.core.log)
  {
    CallStays(s.core.log, AliasAssigned(topic));
    if Aliases.Assigns(s.core.aliases, topic, asked) {
      Step(s, AliasAssigned(topic));
    }
  }

  lemma StoresAliased(s: State, topic: Topic, qos: QoS, retain: bool, payload: Bytes, asked: Option<nat>, pk: Packet)
    requires Ready(s) && s.core.connected && qos != AtMostOnce
    requires |s.core.sess.pubs| < s.core.cfg.maxInflight
    requires pk.Publish? && !pk.dup
    requires Carries(pk, s.core.sess.nextPid, Inflight(topic, qos, retain, payload, 0, 0))
    requires pk.alias == Some(Aliases.Chosen(s.core.aliases, topic, asked)) && AskedBy(s.core.log) == asked
    ensures var p := s.core.sess.nextPid;
            var c2 := E.AssignAlias(Post(s.core, Allocated(p)), topic, asked);
            var c3 := Post(c2, Stored(p, E.Stamp(c2, topic, qos, retain, payload)));
            Ready(C.Lift(s, E.SendPacket(c3, pk)).s)
  {
    hide SendEvent, AfterSend, AfterArrival, E.SendPacket, MaySend, Sound;
    var p := s.core.sess.nextPid;
    Step(s, Allocated(p));
    CallStays(s.core.log, Allocated(p));
    var s1 := Apply(s, Allocated(p));
    AssignConforms(s1, topic, asked);
    var s2 := s1.(core := E.AssignAlias(s1.core, topic, asked));
    StoresThenSends(s2, p, E.Stamp(s2.core, topic, qos, retain, payload), pk);
  }

  // ---------------------------------------------------------------- subscriptions

  lemma {:induction false} AddAllConforms(s: State, p: Pid, wanted: seq<(Filter, QoS)>)
    requires Ready(s)
    ensures Ready(C.Lift(s, C.AddAll(s.core, p, wanted)).s)
    decreases |wanted|
  {
    if wanted != [] && |s.core.sess.subs| < s.core.sess.capacity {
      var e := SubAdded(p, wanted[0].0, wanted[0].1);
      Step(s, e);
      AddAllConforms(Apply(s, e), p, wanted[1..]);
    }
  }

  lemma SubscribeConforms(s: State, wanted: seq<(Filter, QoS)>)
    requires Ready(s)
    ensures Ready(C.Subscribe(s, wanted).s)
  {
    Step(s, Called(SubscribeOp));
    var s0 := Apply(s, Called(SubscribeOp));
    if s0.app.status == Connected && wanted != [] {
      var p := s0.core.sess.nextPid;
      Step(s0, Allocated(p));
      Send(Apply(s0, Allocated(p)), Packet.Subscribe(p, wanted));
      var o := C.Lift(s0, E.Subscribe(s0.core, wanted));
      AddAllConforms(o.s, p, wanted);
    }
  }

  lemma {:induction false} RemoveAllConforms(s: State, filters: seq<Filter>)
    requires Ready(s)
    ensures Ready(s.(core := C.RemoveAll(s.core, filters)))
    decreases |filters|
  {
    if filters != [] {
      match FindSub(s.core.sess.subs, filters[0], Enumerate(s.core.world.order(|s.core.log|), s.core.sess.subs.Keys))
      case None => RemoveAllConforms(s, filters[1..]);
      case Some(p) =>
        Step(s, SubRemoved(p));
        RemoveAllConforms(Apply(s, SubRemoved(p)), filters[1..]);
    }
  }

  lemma UnsubscribeConforms(s: State, filters: seq<Filter>)
    requires Ready(s)
    ensures Ready(C.Unsubscribe(s, filters).s)
  {
    Step(s, Called(UnsubscribeOp));
    var s0 := Apply(s, Called(UnsubscribeOp));
    if s0.app.status == Connected && filters != [] {
      var p := s0.core.sess.nextPid;
      Step(s0, Allocated(p));
      Send(Apply(s0, Allocated(p)), Packet.Unsubscribe(p, filters));
      var o := C.Lift(s0, E.Unsubscribe(s0.core, filters));
      RemoveAllConforms(o.s, filters);
    }
  }

  // ---------------------------------------------------------------- polling

  lemma PingConforms(s: State)
    requires Calm(s)
    ensures var o := C.PingBody(s); Calm(o.s) && o.s.core.now == s.core.now && (o.r.Ok? ==> o.s.core.connected)
  {
    if s.app.status == Connected && s.core.connected {
      Send(s, Pingreq);
    }
  }

  lemma {:induction false} DropsConform(s: State, pids: seq<Pid>)
    requires Calm(s) && s.core.connected && Distinct(pids)
    requires forall p :: p in pids ==> p in s.core.sess.pubs && IsSpent(s.core.sess.pubs[p])
    ensures var t := s.(core := E.DropAll(s.core, pids));
            && Calm(t) && t.core.connected && t.core.now == s.core.now
            && t.core.sess.pubs == s.core.sess.pubs - Elems(pids)
    decreases |pids|
  {
    if pids == [] {
      assert s.core.sess.pubs - Elems(pids) == s.core.sess.pubs;
    } else {
      Step(s, Dropped(pids[0]));
      DropsConform(Apply(s, Dropped(pids[0])), pids[1..]);
      assert {pids[0]} + Elems(pids[1..]) == Elems(pids);
    }
  }

  lemma {:induction false} RetriesConform(s: State, pids: seq<Pid>, now: Millis)
    requires Calm(s) && s.core.connected && Distinct(pids) && s.core.now == now
    requires forall p :: p in pids ==> p in s.core.sess.pubs && IsDue(s.core.sess.pubs[p], now)
    ensures var o := C.Lift(s, E.RetryAll(s.core, pids, now));
            Calm(o.s) && o.s.core.connected && o.s.core.now == now
    decreases |pids|
  {
    ControlHolds(s);
    if pids != [] {
      var p := pids[0];
      Step(s, Bumped(p, now));
      var s1 := Apply(s, Bumped(p, now));
      var m := s1.core.sess.pubs[p];
      var pk := CreatePublish(m.topic, m.qos, m.retain, m.payload, Some(p), true).value;
      Send(s1, pk);
      var s2 := Apply(s1, SendEvent(s1.core, pk));
      if SendEvent(s1.core, pk).ok {
        RetriesConform(s2, pids[1..], now);
      }
    }
  }

  lemma {:induction false} ReleasesConform(s: State, pids: seq<Pid>, now: Millis)
    requires Calm(s) && s.core.connected && s.core.now == now
    requires forall p :: p in pids ==> p in s.core.sess.rels
    ensures var o := C.Lift(s, E.ReleaseAll(s.core, pids, now)); Calm(o.s) && o.s.core.connected
    decreases |pids|
  {
    if pids != [] {
      if SaturatingAdd(s.core.lastSent, PUBREL_GAP_MS) < now {
        Send(s, Pubrel(pids[0]));
        var s1 := Apply(s, SendEvent(s.core, Pubrel(pids[0])));
        if SendEvent(s.core, Pubrel(pids[0])).ok {
          ReleasesConform(s1, pids[1..], now);
        }
      } else {
        ReleasesConform(s, pids[1..], now);
      }
    }
  }

  lemma SweepPublishesConforms(s: State, now: Millis)
    requires Calm(s) && s.core.connected && s.core.now == now
    ensures var o := C.Lift(s, E.SweepPublishes(s.core, now));
            Calm(o.s) && o.s.core.connected && o.s.core.now == now
  {
    var order := E.PubOrder(s.core);
    var drop, retry := E.ToDrop(order, s.core.sess.pubs), E.ToRetry(order, s.core.sess.pubs, now);
    DropsConform(s, drop);
    var t := s.(core := E.DropAll(s.core, drop));
    assert forall p :: p in retry ==> p !in drop;
    RetriesConform(t, retry, now);
  }

  lemma SweepConforms(s: State, now: Millis)
    requires Calm(s) && s.core.connected && s.core.now == now
    ensures var o := C.Lift(s, E.Sweep(s.core, now)); Calm(o.s) && o.s.core.connected
  {
    SweepPublishesConforms(s, now);
    var o := C.Lift(s, E.SweepPublishes(s.core, now));
    if o.r.Ok? {
      ReleasesConform(o.s, E.RelBatch(o.s.core), now);
    }
  }

  /** The work that an action leaves to the client layer. */
  ghost predicate Leaves(a: Action, ctx: Ctx) {
    match a
    case PublishReceived(topic, qos, retain, payload, pid) =>
      ctx.Delivering? && forall t :: Hands(Received(topic, qos, retain, payload, pid, t), ctx.cause)
    case SubscribeAck(p, codes) => ctx == Confirming(p, codes)
    case _ => ctx.Idle?
  }

  /** After an arrival, the engine owes a reply whose success leaves the client the work that the
      action names, or the client has that work already. */
  lemma ArrivalLeaves(c: Core, pk: Packet, at: Millis)
    requires c.connected
    ensures var d, r := Post(c, Arrived(pk, at)), HandlePacket(c.cfg.version, pk);
            && (r.Err? ==> d.ctx.Idle?)
            && (r.Ok? && !d.ctx.Owing? ==> Leaves(r.value, d.ctx))
            && (r.Ok? && d.ctx.Owing? ==> Leaves(r.value, CtxAfterSend(d.ctx, d.ctx.reply, true)))
  {
  }

  lemma ReplyConforms(s: State)
    requires Sound(s) && s.core.ctx.Owing? && !JustStored(s.core.log)
    ensures var o := C.Lift(s, E.SendPacket(s.core, s.core.ctx.reply));
            && Sound(o.s) && !JustStored(o.s.core.log)
            && o.s.core.ctx == CtxAfterSend(s.core.ctx, s.core.ctx.reply, o.r.Ok?)
  {
    hide SendEvent;
    ControlHolds(s);
    Send(s, s.core.ctx.reply);
  }

  /** After a packet has been received, either nothing is owed, or the client layer has to deliver
      the message or to confirm the subscription that the action names. */
  lemma ReceiveConforms(s: State)
    requires Ready(s) && s.core.connected
    ensures var o := C.Lift(s, E.Receive(s.core));
            && Sound(o.s) && !JustStored(o.s.core.log)
            && (o.r.Err? ==> o.s.core.ctx.Idle?)
            && (o.r.Ok? ==> Leaves(o.r.value, o.s.core.ctx))
  {
    hide Leaves, E.SendPacket, HandlePacket, MaySend, Effect;
    match s.core.world.read(|s.core.log|)
    case None => ReadFailureConforms(s);
    case Some(pk) =>
      var e := Arrived(pk, s.core.world.clock(|s.core.log|));
      Step(s, e);
      ArrivalLeaves(s.core, pk, e.at);
      if Apply(s, e).core.ctx.Owing? {
        ReplyConforms(Apply(s, e));
      }
  }

  lemma ReadFailureConforms(s: State)
    requires Ready(s)
    ensures Ready(Apply(s, ReadFailed))
  {
    Step(s, ReadFailed);
  }

  lemma ReceiveOneConforms(s: State)
    requires Ready(s) && s.core.connected
    ensures Ready(C.ReceiveOne(s).s)
  {
    hide E.Receive;
    ReceiveConforms(s);
    var o: C.Outcome<Action> := C.Lift(s, E.Receive(s.core));
    match o.r
    case Err(_) => Step(o.s, StatusSet(Status.Failed));
    case Ok(PublishReceived(topic, qos, retain, payload, pid)) =>
      Step(o.s, Delivered(Received(topic, qos, retain, payload, pid, o.s.core.world.clock(|o.s.core.log|))));
    case Ok(SubscribeAck(p, codes)) => Step(o.s, SubConfirmed(p, codes));
    case Ok(_) =>
  }

  lemma MaintainConforms(s: State)
    requires Ready(s) && s.core.connected
    ensures var o := C.Maintain(s); Ready(o.s) && (o.r.Ok? ==> o.s.core.connected)
  {
    hide E.Sweep, C.PingBody;
    var now := s.core.world.clock(|s.core.log|);
    Step(s, Ticked(now));
    var s1 := Apply(s, Ticked(now));
    if E.TimedOut(s1.core, now) {
      Step(s1, StatusSet(Status.Failed));
    } else {
      PingConforms(s1);
      var o := if E.KeepAliveDue(s1.core, now) then C.PingBody(s1) else C.Outcome(s1, Ok(()));
      if o.r.Ok? {
        SweepConforms(o.s, now);
      }
    }
  }

  lemma PollBodyConforms(s: State)
    requires Ready(s) && s.core.connected
    ensures Ready(C.PollBody(s).s)
  {
    hide C.Maintain, C.ReceiveOne;
    MaintainConforms(s);
    var o := C.Maintain(s);
    if o.r.Ok? {
      ReceiveOneConforms(o.s);
    }
  }

  lemma PollConforms(s: State)
    requires Ready(s)
    ensures Ready(C.Poll(s).s)
  {
    Step(s, Called(PollOp));
    var s0 := Apply(s, Called(PollOp));
    if s0.core.connected && s0.core.world.alive(|s0.core.log|) {
      PollBodyConforms(s0);
    } else if s0.app.status == Connected && s0.core.cfg.reconnect.enabled {
      ReconnectBodyConforms(s0);
      var o := C.ReconnectBody(s0);
      if o.r.Ok? {
        PollBodyConforms(o.s);
      } else {
        Step(o.s, StatusSet(Status.Disconnected));
      }
    } else if s0.app.status != Status.Disconnected {
      Step(s0, StatusSet(Status.Disconnected));
    }
  }

  // ---------------------------------------------------------------- whole runs

  datatype Request =
    | DoConnect
    | DoReconnect
    | DoPublish(topic: Topic, qos: QoS, retain: bool, payload: Bytes)
    | DoPublishV5(topic: Topic, qos: QoS, retain: bool, payload: Bytes, asked: Option<nat>)
    | DoSubscribe(wanted: seq<(Filter, QoS)>)
    | DoUnsubscribe(filters: seq<Filter>)
    | DoPing
    | DoDisconnect
    | DoPoll
    | DoNextMessage

  function Perform(s: State, q: Request): State {
    match q
    case DoConnect => C.Connect(s).s
    case DoReconnect => C.Reconnect(s).s
    case DoPublish(topic, qos, retain, payload) => C.Publish(s, topic, qos, retain, payload).s
    case DoPublishV5(topic, qos, retain, payload, asked) => C.PublishV5(s, topic, qos, retain, payload, asked).s
    case DoSubscribe(wanted) => C.Subscribe(s, wanted).s
    case DoUnsubscribe(filters) => C.Unsubscribe(s, filters).s
    case DoPing => C.Ping(s).s
    case DoDisconnect => C.Disconnect(s).s
    case DoPoll => C.Poll(s).s
    case DoNextMessage => C.NextMessage(s).s
  }

  function PerformAll(s: State, qs: seq<Request>): State
    decreases |qs|
  {
    if qs == [] then s else Perform(PerformAll(s, qs[..|qs| - 1]), qs[|qs| - 1])
  }

  lemma PerformConforms(s: State, q: Request)
    requires Ready(s)
    ensures Ready(Perform(s, q))
  {
    hide C.Connect, C.Reconnect, C.Publish, C.PublishV5, C.Subscribe, C.Unsubscribe, C.Ping, C.Disconnect, C.Poll, C.NextMessage;
    match q
    case DoConnect => ConnectConforms(s);
    case DoReconnect => ReconnectConforms(s);
    case DoPublish(topic, qos, retain, payload) => PublishConforms(s, topic, qos, retain, payload);
    case DoPublishV5(topic, qos, retain, payload, asked) => PublishV5Conforms(s, topic, qos, retain, payload, asked);
    case DoSubscribe(wanted) => SubscribeConforms(s, wanted);
    case DoUnsubscribe(filters) => UnsubscribeConforms(s, filters);
    case DoPing => PingCallConforms(s);
    case DoDisconnect => DisconnectConforms(s);
    case DoPoll => PollConforms(s);
    case DoNextMessage => NextMessageConforms(s);
  }

  lemma ConnectConforms(s: State)
    requires Ready(s)
    ensures Ready(C.Connect(s).s)
  {
    hide C.ConnectBody;
    Step(s, Called(ConnectOp));
    ConnectBodyConforms(Apply(s, Called(ConnectOp)));
  }

  lemma ReconnectConforms(s: State)
    requires Ready(s)
    ensures Ready(C.Reconnect(s).s)
  {
    hide C.ReconnectBody;
    Step(s, Called(ReconnectOp));
    ReconnectBodyConforms(Apply(s, Called(ReconnectOp)));
  }

  lemma PingCallConforms(s: State)
    requires Ready(s)
    ensures Ready(C.Ping(s).s)
  {
    hide C.PingBody;
    Step(s, Called(PingOp));
    PingConforms(Apply(s, Called(PingOp)));
  }

  lemma NextMessageConforms(s: State)
    requires Ready(s)
    ensures Ready(C.NextMessage(s).s)
  {
    Step(s, Called(NextMessageOp));
    var s0 := Apply(s, Called(NextMessageOp));
    Step(s0, Popped(if s0.app.inbox == [] then None else Some(s0.app.inbox[0])));
  }

  /** Whatever calls are made in whatever order, for every configuration and every world: the run
      takes only guarded steps, and no call leaves work behind. Hence every claim about sound
      states is a claim about every state any use of the client can reach between calls. */
  lemma {:induction false} EveryRunIsSound(cfg: Config, world: World, qs: seq<Request>)
    ensures Ready(PerformAll(Init(cfg, world), qs))
    decreases |qs|
  {
    hide Perform;
    if qs == [] {
      InitIsSound(cfg, world);
    } else {
      EveryRunIsSound(cfg, world, qs[..|qs| - 1]);
      PerformConforms(PerformAll(Init(cfg, world), qs[..|qs| - 1]), qs[|qs| - 1]);
    }
  }
}
