/** The client as the object an application uses. Every public method does exactly what its model
    says, and keeps the object in a state that a run of allowed steps leads to. */
module MqttClients {
  import opened Mqtt
  import opened Wire
  import opened SessionModel
  import opened Machine
  import opened Conformance
  import opened InMemory
  import opened ClientStates
  import opened ProtocolEngines
  import Aliases
  import C = ClientModel
  import E = EngineModel

  class MqttClient {
    const engine: ProtocolEngine
    const session: InMemorySession
    const state: ClientState
    var reconnectAttempt: nat
    var reconnectIntervalMs: nat

    ghost function Value(): State
      reads this, engine, engine.handler, session, state
    {
      State(engine.Value(session), App(state.status, reconnectAttempt, reconnectIntervalMs, state.receivedMessages))
    }

    ghost predicate Whole()
      reads engine
    {
      engine.Valid() && state.capacity == engine.cfg.maxInflight
    }

    /** Well-formed, and reached by a run of allowed steps that left no work behind. */
    ghost predicate Valid()
      reads this, engine, engine.handler, session, state
    {
      Whole() && Ready(Value())
    }

    constructor (cfg: Config, world: World)
      ensures Valid() && fresh(engine) && fresh(engine.handler) && fresh(session) && fresh(state)
      ensures Value() == Init(cfg, world)
    {
      engine := new ProtocolEngine(cfg, world);
      session := new InMemorySession(cfg.maxSubscriptions);
      state := new ClientState(cfg.maxInflight);
      reconnectAttempt, reconnectIntervalMs := 0, 0;
      new;
      InitIsSound(cfg, world);
    }

    // -------------------------------------------------------------- bookkeeping

    /** Logs an event that has no effect on the fields. */
    method Note(ghost e: Event)
      requires Whole() && (e.Called? || e.Ticked?)
      modifies engine
      ensures Whole() && Value() == Apply(old(Value()), e)
    {
      engine.Log(Value().core, e);
    }

    method SetStatus(next: Status)
      requires Whole()
      modifies engine, state
      ensures Whole() && Value() == Apply(old(Value()), StatusSet(next))
    {
      ghost var c := Value().core;
      state.SetConnectionState(next);
      engine.Log(c, StatusSet(next));
    }

    method ClearSession()
      requires Whole()
      modifies engine, session
      ensures Whole() && Value() == Apply(old(Value()), Cleared)
    {
      ghost var c := Value().core;
      session.Clear();
      engine.Log(c, Cleared);
    }

    method ResetReconnectState()
      requires Whole()
      modifies this, engine
      ensures Whole() && Value() == Apply(old(Value()), AttemptsReset)
    {
      ghost var c := Value().core;
      reconnectAttempt, reconnectIntervalMs := 0, 0;
      engine.Log(c, AttemptsReset);
    }

    /** Counts an attempt and computes the interval to wait before it. */
    method CountAttempt()
      requires Whole()
      modifies this, engine
      ensures Whole() && Value() == Apply(old(Value()), Attempted)
    {
      ghost var c := Value().core;
      reconnectAttempt := reconnectAttempt + 1;
      if reconnectIntervalMs == 0 {
        reconnectIntervalMs := engine.cfg.reconnect.initialMs;
      } else {
        var interval := engine.cfg.reconnect.scale(reconnectIntervalMs);
        reconnectIntervalMs := Min(interval, engine.cfg.reconnect.maxMs);
      }
      engine.Log(c, Attempted);
    }

    // -------------------------------------------------------------- connecting

    method NoteResumed()
      requires Whole()
      modifies engine
      ensures Whole() && !engine.ctx.Owing? && Value() == Apply(old(Value()), Resumed)
    {
      engine.Log(Value().core, Resumed);
    }

    /** Resends a snapshot of the pending messages, in iteration order, as duplicates. */
    method ResendPendingMessages() returns (r: Result<()>)
      requires Whole() && engine.ctx.Idle?
      modifies engine
      ensures Whole()
      ensures var o := C.Lift(old(Value()), E.ResendPending(old(Value().core))); r == o.r && Value() == o.s
    {
      hide E.SendPacket, Effect, Sound;
      var toResend := session.PendingOutgoingPublishes(engine.world.order(engine.events));
      var messages := session.pendingPublishes;
      NoteResumed();
      ghost var start := Value().core;
      for i := 0 to |toResend|
        invariant Whole() && !engine.ctx.Owing?
        invariant E.ResendAll(start, messages, toResend) == E.ResendAll(Value().core, messages, toResend[i..])
        invariant Value().app == old(Value()).app
      {
        assert toResend[i] in toResend && toResend[i..][1..] == toResend[i + 1..];
        var msg := messages[toResend[i]];
        match CreatePublish(msg.topic, msg.qos, msg.retain, msg.payload, Some(toResend[i]), true)
        case Err(error) =>
          r := Err(error);
          return;
        case Ok(packet) =>
          r := engine.SendPlain(session, packet);
          if r.Err? {
            return;
          }
      }
      r := Ok(());
    }

    method Open() returns (r: Result<()>)
      requires Whole() && Ready(Value()) && MayConnect(Value().core.log)
      modifies this, engine, session, state
      ensures Whole()
      ensures var o := C.ConnectBody(old(Value())); r == o.r && Value() == o.s
    {
      hide E.Connect, C.Opening, C.Opened, Sound, MayConnect, JustGreeted, Effect;
      if !Validates(engine.cfg) {
        return Err(ConfigInvalid);
      }
      OpeningConforms(Value());
      BeginOpening();
      EngineConnects(Value());
      var result := engine.Connect(session);
      match result
      case Err(error) =>
        SetStatus(Status.Failed);
        r := Err(error);
      case Ok(present) =>
        r := Resume(present);
    }

    /** Marks the client connecting and clears a clean session. */
    method BeginOpening()
      requires Whole()
      modifies engine, session, state
      ensures Whole() && Value() == C.Opening(old(Value()))
    {
      SetStatus(Connecting);
      if engine.cfg.cleanSession {
        ClearSession();
      }
    }

    /** Marks the client connected and resumes a session the server still has. */
    method Resume(present: bool) returns (r: Result<()>)
      requires Whole() && engine.ctx.Idle?
      modifies this, engine, state
      ensures Whole()
      ensures var o := C.Opened(old(Value()), present); r == o.r && Value() == o.s
    {
      hide E.ResendPending;
      SetStatus(Connected);
      ResetReconnectState();
      if present && !engine.cfg.cleanSession {
        r := ResendPendingMessages();
      } else {
        r := Ok(());
      }
    }

    method Connect() returns (r: Result<()>)
      requires Valid()
      modifies this, engine, session, state
      ensures Valid()
      ensures var o := C.Connect(old(Value())); r == o.r && Value() == o.s
    {
      ConnectConforms(Value());
      Step(Value(), Called(ConnectOp));
      Note(Called(ConnectOp));
      r := Open();
    }

    method TryReconnect() returns (r: Result<()>)
      requires Whole() && Ready(Value())
      modifies this, engine, session, state
      ensures Whole()
      ensures var o := C.ReconnectBody(old(Value())); r == o.r && Value() == o.s
    {
      if !engine.cfg.reconnect.enabled {
        return Err(ReconnectDisabled);
      }
      if engine.cfg.reconnect.maxAttempts > 0 && reconnectAttempt >= engine.cfg.reconnect.maxAttempts {
        return Err(Internal);
      }
      Step(Value(), Attempted);
      CountAttempt();
      r := Open();
    }

    method Reconnect() returns (r: Result<()>)
      requires Valid()
      modifies this, engine, session, state
      ensures Valid()
      ensures var o := C.Reconnect(old(Value())); r == o.r && Value() == o.s
    {
      ReconnectConforms(Value());
      Step(Value(), Called(ReconnectOp));
      Note(Called(ReconnectOp));
      r := TryReconnect();
    }

    method Disconnect() returns (r: Result<()>)
      requires Valid()
      modifies engine, state
      ensures Valid()
      ensures var o := C.Disconnect(old(Value())); r == o.r && Value() == o.s
    {
      DisconnectConforms(Value());
      Note(Called(DisconnectOp));
      if state.status == Status.Disconnected {
        return Ok(());
      }
      SetStatus(Disconnecting);
      r := engine.Disconnect(session);
      SetStatus(Status.Disconnected);
    }

    // -------------------------------------------------------------- publishing

    method Publish(topic: Topic, qos: QoS, retain: bool, payload: Bytes) returns (r: Result<()>)
      requires Valid()
      modifies engine, session
      ensures Valid()
      ensures var o := C.Publish(old(Value()), topic, qos, retain, payload); r == o.r && Value() == o.s
    {
      PublishConforms(Value(), topic, qos, retain, payload);
      Note(Called(PublishOp));
      if state.status != Connected {
        return Err(InvalidState);
      }
      if |session.pendingPublishes| >= engine.cfg.maxInflight {
        return Err(Error.PublishFailed);
      }
      var result := engine.Publish(session, topic, qos, retain, payload);
      r := if result.Ok? then Ok(()) else Err(result.error);
    }

    method PublishV5(topic: Topic, qos: QoS, retain: bool, payload: Bytes, asked: Option<nat>) returns (r: Result<()>)
      requires Valid()
      modifies engine, engine.handler, session
      ensures Valid()
      ensures var o := C.PublishV5(old(Value()), topic, qos, retain, payload, asked); r == o.r && Value() == o.s
    {
      PublishV5Conforms(Value(), topic, qos, retain, payload, asked);
      Note(Called(PublishV5Op(asked)));
      if state.status != Connected {
        return Err(InvalidState);
      }
      if |session.pendingPublishes| >= engine.cfg.maxInflight {
        return Err(Error.PublishFailed);
      }
      r := SendAliased(topic, qos, retain, payload, asked);
    }

    method SendAliased(topic: Topic, qos: QoS, retain: bool, payload: Bytes, asked: Option<nat>) returns (r: Result<()>)
      requires Whole() && engine.ctx.Idle?
      modifies engine, engine.handler, session
      ensures Whole()
      ensures var o := C.Lift(old(Value()), C.PublishAliased(old(Value().core), topic, qos, retain, payload, asked));
              r == o.r && Value() == o.s
    {
      hide E.SendPacket, E.AssignAlias, E.Stamp;
      var pid := None;
      if qos != AtMostOnce {
        var p := engine.AllocatePid(session);
        pid := Some(p);
      }
      var packet := engine.CreateAliased(session, topic, qos, retain, payload, pid, asked);
      match packet
      case Err(error) => r := Err(error);
      case Ok(pk) =>
        if pid.Some? {
          engine.StoreMessage(session, pid.value, topic, qos, retain, payload);
        }
        r := engine.SendPlain(session, pk);
    }

    // -------------------------------------------------------------- subscriptions

    method Subscribe(wanted: seq<(Filter, QoS)>) returns (r: Result<()>)
      requires Valid()
      modifies engine, session
      ensures Valid()
      ensures var o := C.Subscribe(old(Value()), wanted); r == o.r && Value() == o.s
    {
      SubscribeConforms(Value(), wanted);
      Note(Called(SubscribeOp));
      if state.status != Connected {
        return Err(InvalidState);
      }
      if wanted == [] {
        return Ok(());
      }
      var result := engine.Subscribe(session, wanted);
      match result
      case Err(error) => r := Err(error);
      case Ok(pid) => r := AddSubscriptions(pid, wanted);
    }

    method AddSubscriptions(pid: Pid, wanted: seq<(Filter, QoS)>) returns (r: Result<()>)
      requires Whole()
      modifies engine, session
      ensures Whole()
      ensures var o := C.Lift(old(Value()), C.AddAll(old(Value().core), pid, wanted)); r == o.r && Value() == o.s
    {
      hide Effect;
      ghost var start := Value().core;
      for i := 0 to |wanted|
        invariant Whole() && Value().app == old(Value()).app
        invariant C.AddAll(start, pid, wanted) == C.AddAll(Value().core, pid, wanted[i..])
      {
        assert wanted[i..][1..] == wanted[i + 1..];
        r := AddSubscription(pid, wanted[i].0, wanted[i].1);
        if r.Err? {
          return;
        }
      }
      r := Ok(());
    }

    method AddSubscription(pid: Pid, filter: Filter, qos: QoS) returns (r: Result<()>)
      requires Whole()
      modifies engine, session
      ensures Whole()
      ensures |old(Value()).core.sess.subs| >= old(Value()).core.sess.capacity ==> r == Err(Internal) && Value() == old(Value())
      ensures |old(Value()).core.sess.subs| < old(Value()).core.sess.capacity ==>
                r == Ok(()) && Value() == Apply(old(Value()), SubAdded(pid, filter, qos))
    {
      ghost var c := Value().core;
      r := session.AddSubscription(pid, filter, qos);
      if r.Ok? {
        engine.Log(c, SubAdded(pid, filter, qos));
      }
    }

    method Unsubscribe(filters: seq<Filter>) returns (r: Result<()>)
      requires Valid()
      modifies engine, session
      ensures Valid()
      ensures var o := C.Unsubscribe(old(Value()), filters); r == o.r && Value() == o.s
    {
      UnsubscribeConforms(Value(), filters);
      Note(Called(UnsubscribeOp));
      if state.status != Connected {
        return Err(InvalidState);
      }
      if filters == [] {
        return Ok(());
      }
      var result := engine.Unsubscribe(session, filters);
      match result
      case Err(error) => r := Err(error);
      case Ok(_) =>
        RemoveLocalSubscriptions(filters);
        r := Ok(());
    }

    method RemoveLocalSubscription(filter: Filter)
      requires Whole()
      modifies engine, session
      ensures Whole() && Value().app == old(Value()).app
      ensures var c := old(Value().core);
              Value().core == match FindSub(c.sess.subs, filter, Enumerate(c.world.order(|c.log|), c.sess.subs.Keys))
                              case None => c
                              case Some(p) => Post(c, SubRemoved(p))
    {
      ghost var c := Value().core;
      var removed := session.RemoveSubscription(filter, engine.world.order(engine.events));
      if removed.Some? {
        engine.Log(c, SubRemoved(removed.value));
      }
    }

    method RemoveLocalSubscriptions(filters: seq<Filter>)
      requires Whole()
      modifies engine, session
      ensures Whole()
      ensures Value() == old(Value()).(core := C.RemoveAll(old(Value().core), filters))
    {
      hide Post, FindSub, Enumerate;
      ghost var start := Value().core;
      for i := 0 to |filters|
        invariant Whole() && Value().app == old(Value()).app
        invariant C.RemoveAll(start, filters) == C.RemoveAll(Value().core, filters[i..])
      {
        assert filters[i..][1..] == filters[i + 1..];
        RemoveLocalSubscription(filters[i]);
      }
    }

    // -------------------------------------------------------------- polling

    method SendPing() returns (r: Result<()>)
      requires Whole()
      modifies engine
      ensures Whole()
      ensures var o := C.PingBody(old(Value())); r == o.r && Value() == o.s
    {
      if state.status != Connected {
        return Err(InvalidState);
      }
      r := engine.Ping(session);
    }

    method Ping() returns (r: Result<()>)
      requires Valid()
      modifies engine
      ensures Valid()
      ensures var o := C.Ping(old(Value())); r == o.r && Value() == o.s
    {
      PingCallConforms(Value());
      Note(Called(PingOp));
      r := SendPing();
    }

    method Poll() returns (r: Result<Option<ClientEvent>>)
      requires Valid()
      modifies this, engine, session, state
      ensures Valid()
      ensures var o := C.Poll(old(Value())); r == o.r && Value() == o.s
    {
      PollConforms(Value());
      Step(Value(), Called(PollOp));
      Note(Called(PollOp));
      if !(engine.connected && engine.world.alive(engine.events)) {
        if state.status == Connected && engine.cfg.reconnect.enabled {
          ReconnectBodyConforms(Value());
          var result := TryReconnect();
          if result.Err? {
            SetStatus(Status.Disconnected);
            return Ok(Some(ClientEvent.Disconnected));
          }
        } else if state.status != Status.Disconnected {
          SetStatus(Status.Disconnected);
          return Ok(Some(ClientEvent.Disconnected));
        } else {
          return Ok(None);
        }
      }
      r := PollConnection();
    }

    method PollConnection() returns (r: Result<Option<ClientEvent>>)
      requires Whole() && Ready(Value()) && engine.connected
      modifies engine, session, state
      ensures Whole()
      ensures var o := C.PollBody(old(Value())); r == o.r && Value() == o.s
    {
      MaintainConforms(Value());
      var kept := Maintain();
      if kept.Err? {
        return Err(kept.error);
      }
      r := ReceiveOne();
    }

    /** Time-out check, keep-alive, retry sweep. */
    method Maintain() returns (r: Result<()>)
      requires Whole() && Ready(Value()) && engine.connected
      modifies engine, session, state
      ensures Whole()
      ensures var o := C.Maintain(old(Value())); r == o.r && Value() == o.s
    {
      var currentTime := engine.world.clock(engine.events);
      Step(Value(), Ticked(currentTime));
      Note(Ticked(currentTime));
      PingConforms(Value());
      var late := engine.IsConnectionTimeout(session, currentTime);
      if late {
        SetStatus(Status.Failed);
        return Err(Timeout);
      }
      var due := engine.ShouldSendKeepAlive(session, currentTime);
      if due {
        r := SendPing();
        if r.Err? {
          return;
        }
      }
      r := engine.HandleRetries(session, currentTime);
    }

    method ReceiveOne() returns (r: Result<Option<ClientEvent>>)
      requires Whole() && Ready(Value()) && engine.connected
      modifies engine, session, state
      ensures Whole()
      ensures var o := C.ReceiveOne(old(Value())); r == o.r && Value() == o.s
    {
      var received := engine.ReceivePacket(session);
      match received
      case Err(error) =>
        SetStatus(Status.Failed);
        r := Err(error);
      case Ok(action) => r := HandlePacketAction(action);
    }

    method Deliver(message: Received)
      requires Whole()
      modifies engine, state
      ensures Whole() && Value() == Apply(old(Value()), Delivered(message))
    {
      hide SendEvent, AfterSend, AfterArrival;
      ghost var c := Value().core;
      state.AddReceivedMessage(message);
      engine.Log(c, Delivered(message));
    }

    method ConfirmSubscription(pid: Pid, codes: seq<nat>) returns (r: Result<()>)
      requires Whole()
      modifies engine, session
      ensures Whole() && Value() == Apply(old(Value()), SubConfirmed(pid, codes))
      ensures r == if ConfirmFails(old(Value()).core.sess, pid, codes) then Err(Internal) else Ok(())
    {
      hide SendEvent, AfterSend, AfterArrival, ConfirmFails;
      ghost var c := Value().core;
      r := session.ConfirmSubscription(pid, codes);
      engine.Log(c, SubConfirmed(pid, codes));
    }

    method HandlePacketAction(action: Action) returns (r: Result<Option<ClientEvent>>)
      requires Whole()
      modifies engine, session, state
      ensures Whole()
      ensures var o := C.HandleAction(old(Value()), action); r == o.r && Value() == o.s
    {
      hide Effect, PostApp, ConfirmFails;
      match action
      case PublishReceived(topic, qos, retain, payload, pid) =>
        var message := Received(topic, qos, retain, payload, pid, engine.world.clock(engine.events));
        Deliver(message);
        r := Ok(Some(MessageReceived(message)));
      case SubscribeAck(pid, codes) =>
        var confirmed := ConfirmSubscription(pid, codes);
        r := if confirmed.Ok? then Ok(Some(SubscriptionConfirmed(pid))) else Err(confirmed.error);
      case UnsubscribeAck(pid) => r := Ok(Some(UnsubscriptionConfirmed(pid)));
      case PingResponse => r := Ok(Some(Pong));
      case PublishAck(pid) => r := Ok(Some(MessageAcknowledged(pid)));
      case PublishComplete(pid) => r := Ok(Some(MessageAcknowledged(pid)));
      case _ => r := Ok(None);
    }

    method NextMessage() returns (r: Option<Received>)
      requires Valid()
      modifies engine, state
      ensures Valid()
      ensures var o := C.NextMessage(old(Value())); Ok(r) == o.r && Value() == o.s
    {
      NextMessageConforms(Value());
      Note(Called(NextMessageOp));
      ghost var c := Value().core;
      r := state.PopReceivedMessage();
      engine.Log(c, Popped(r));
    }
  }
}
