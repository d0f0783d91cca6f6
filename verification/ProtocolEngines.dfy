/** The protocol engine as the object the client mutates, each method proved against its model. */
module ProtocolEngines {
  import opened Mqtt
  import opened Wire
  import opened SessionModel
  import opened Machine
  import opened InMemory
  import opened Handlers
  import E = EngineModel
  import Aliases

  lemma UnhandledChangesNothing(version: Version, pk: Packet, s: Session)
    requires HandlePacket(version, pk).Err?
    ensures SessionAfterArrival(s, pk) == s && ReplyTo(pk, s.pubs).None?
  {
  }

  class ProtocolEngine {
    const cfg: Config
    const world: World
    const handler: V5Handler

    var writeQueue: seq<Bytes>
    var lastPacketSentTime: Millis
    var lastPacketReceivedTime: Millis
    var keepAliveIntervalMs: nat
    var connected: bool
    /** How many events have been logged: the position in the world's answers. */
    var events: nat

    ghost var wire: Bytes
    ghost var ctx: Ctx
    ghost var now: Millis
    ghost var log: seq<Event>

    /** The write queue is empty between calls, after errors too. */
    ghost predicate Valid()
      reads this
    {
      writeQueue == [] && events == |log|
    }

    ghost function Value(session: InMemorySession): Core
      reads this, handler, session
    {
      Core(cfg, world, connected, lastPacketSentTime, lastPacketReceivedTime, keepAliveIntervalMs,
           handler.Value(), session.Value(), wire, ctx, now, log)
    }

    constructor (cfg: Config, world: World)
      ensures Valid() && fresh(handler)
      ensures this.cfg == cfg && this.world == world
      ensures !connected && lastPacketSentTime == 0 && lastPacketReceivedTime == 0
      ensures keepAliveIntervalMs == DEFAULT_KEEP_ALIVE_MS && handler.Value() == Aliases.NO_ALIASES
      ensures wire == [] && ctx == Idle && now == 0 && log == []
    {
      this.cfg, this.world := cfg, world;
      handler := new V5Handler();
      writeQueue, lastPacketSentTime, lastPacketReceivedTime := [], 0, 0;
      keepAliveIntervalMs, connected, events := DEFAULT_KEEP_ALIVE_MS, false, 0;
      wire, ctx, now, log := [], Idle, 0, [];
    }

    /** Logs an event that happened in state c; the caller has made its effect on the fields. */
    method Log(ghost c: Core, ghost e: Event)
      requires events == |log| && log == c.log
      modifies this`events, this`log, this`ctx, this`now
      ensures events == |log| && log == c.log + [e]
      ensures ctx == Effect(c, e).ctx && now == Effect(c, e).now
    {
      events := events + 1;
      log := log + [e];
      ctx, now := Effect(c, e).ctx, Effect(c, e).now;
    }

    // -------------------------------------------------------------- writing

    /** The transport accepts some of the bytes it is offered, or fails. */
    method TransportWrite(chunk: Bytes, call: nat) returns (n: Option<nat>)
      modifies this`wire
      ensures n == match world.write(events, call)
                   case None => None
                   case Some(k) => Some(Min(k, |chunk|))
      ensures n.None? ==> wire == old(wire)
      ensures n.Some? ==> n.value <= |chunk| && wire == old(wire) + chunk[..n.value]
    {
      match world.write(events, call)
      case None => n := None;
      case Some(k) =>
        n := Some(Min(k, |chunk|));
        wire := wire + chunk[..Min(k, |chunk|)];
    }

    /** Writes one packet, however few bytes the transport takes at a time. */
    method WritePacket(data: Bytes, first: nat) returns (ok: bool, next: nat)
      modifies this`wire
      ensures var w := WriteAll(world, events, first, |data|, 0);
              ok == w.ok && next == w.calls && wire == old(wire) + data[..w.done]
    {
      var written: nat := 0;
      next := first;
      while written < |data|
        invariant written <= |data|
        invariant WriteAll(world, events, first, |data|, 0) == WriteAll(world, events, next, |data|, written)
        invariant wire == old(wire) + data[..written]
      {
        var n := TransportWrite(data[written..], next);
        if n.None? || n.value == 0 {
          ok, next := false, next + 1;
          return;
        }
        assert data[..written + n.value] == data[..written] + data[written..][..n.value];
        next, written := next + 1, written + n.value;
      }
      ok := true;
    }

    /** Writes out the queue. At a failure the packet in hand is lost and the rest stays queued. */
    method FlushWriteQueue() returns (ok: bool)
      modifies this`wire, this`writeQueue
      ensures var f := FlushQueue(world, events, 0, old(writeQueue));
              ok == f.ok && wire == old(wire) + f.wire && writeQueue == f.rest
    {
      hide FlushQueue;
      var call: nat := 0;
      ghost var out: Bytes := [];
      while writeQueue != []
        invariant wire == old(wire) + out
        invariant var f, g := FlushQueue(world, events, 0, old(writeQueue)), FlushQueue(world, events, call, writeQueue);
                  f == Flushed(out + g.wire, g.rest, g.ok)
        decreases |writeQueue|
      {
        FlushSteps(world, events, call, writeQueue);
        var data := writeQueue[0];
        writeQueue := writeQueue[1..];
        var done, next := WritePacket(data, call);
        if !done {
          return false;
        }
        ghost var g := FlushQueue(world, events, next, writeQueue);
        assert out + (data + g.wire) == (out + data) + g.wire;
        assert data[..|data|] == data;
        out := out + data;
        call := next;
      }
      FlushSteps(world, events, call, []);
      ok := world.flush(events);
      assert out + [] == out;
    }

    /** Between calls the queue is empty, so this writes one packet, and leaves it empty again. */
    method QueueAndFlush(data: Bytes) returns (ok: bool)
      requires writeQueue == []
      modifies this`wire, this`writeQueue
      ensures writeQueue == []
      ensures var f := FlushQueue(world, events, 0, [data]); ok == f.ok && wire == old(wire) + f.wire
    {
      hide FlushQueue;
      SinglePacket(world, events, data);
      writeQueue := writeQueue + [data];
      assert writeQueue == [data];
      ok := FlushWriteQueue();
    }

    /** Encodes and sends a packet. What the model books as an effect of the send itself, leaving the
        connection after a DISCONNECT and recording a first PUBREL, is left to the callers, which do it
        right after this call. */
    method SendPacket(session: InMemorySession, pk: Packet) returns (r: Result<()>)
      requires Valid()
      modifies this
      ensures Valid()
      ensures var st := E.SendPacket(old(Value(session)), pk);
              && r == st.r
              && Value(session) == st.c.(connected := old(connected), sess := old(session.Value()))
    {
      hide CtxAfterSend, RelsAfterSend, AfterArrival, FlushQueue;
      ghost var c := Value(session);
      ghost var e := SendEvent(c, pk);
      var encoded := cfg.encode(pk);
      if encoded.None? {
        Log(c, e);
        return Err(Codec);
      }
      SinglePacket(world, events, encoded.value);
      var ok := QueueAndFlush(encoded.value);
      if ok {
        lastPacketSentTime := world.clock(events);
      }
      Log(c, e);
      r := if ok then Ok(()) else Err(Transport);
    }

    /** Sends a packet other than DISCONNECT, in a state that owes no PUBREL. */
    method SendPlain(session: InMemorySession, pk: Packet) returns (r: Result<()>)
      requires Valid() && !pk.Disconnect? && !(ctx.Owing? && pk.Pubrel?)
      modifies this
      ensures Valid()
      ensures var st := E.SendPacket(old(Value(session)), pk); r == st.r && Value(session) == st.c
      ensures !old(ctx).Owing? ==> !ctx.Owing?
      ensures connected == old(connected)
    {
      r := SendPacket(session, pk);
    }

    // -------------------------------------------------------------- keep-alive

    method ShouldSendKeepAlive(session: InMemorySession, currentTime: Millis) returns (due: bool)
      ensures due == E.KeepAliveDue(Value(session), currentTime)
    {
      if keepAliveIntervalMs == 0 {
        return false;
      }
      due := Elapsed(currentTime, lastPacketSentTime) >= keepAliveIntervalMs;
    }

    method IsConnectionTimeout(session: InMemorySession, currentTime: Millis) returns (late: bool)
      ensures late == E.TimedOut(Value(session), currentTime)
    {
      if keepAliveIntervalMs == 0 {
        return false;
      }
      var timeoutMs := keepAliveIntervalMs + keepAliveIntervalMs / 2;
      late := Elapsed(currentTime, lastPacketReceivedTime) >= timeoutMs;
    }

    // -------------------------------------------------------------- connecting

    method SetKeepAliveInterval(session: InMemorySession, seconds: nat)
      requires Valid()
      modifies this
      ensures Valid() && connected == old(connected)
      ensures Value(session) == Post(old(Value(session)), KeepAliveSet(seconds * 1000))
    {
      ghost var c := Value(session);
      keepAliveIntervalMs := seconds * 1000;
      Log(c, KeepAliveSet(seconds * 1000));
    }

    method Connect(session: InMemorySession) returns (r: Result<bool>)
      requires Valid()
      modifies this
      ensures Valid()
      ensures var st := E.Connect(old(Value(session))); r == st.r && Value(session) == st.c
    {
      hide AfterSend, AfterArrival, E.AwaitConnack, SendEvent;
      if connected {
        return Err(InvalidState);
      }
      SetKeepAliveInterval(session, cfg.keepAlive);
      var sent := SendPlain(session, Packet.Connect(cfg.cleanSession, cfg.keepAlive));
      if sent.Err? {
        return Err(sent.error);
      }
      r := AwaitConnack(session);
    }

    method AwaitConnack(session: InMemorySession) returns (r: Result<bool>)
      requires Valid() && !connected
      modifies this
      ensures Valid()
      ensures var st := E.AwaitConnack(old(Value(session))); r == st.r && Value(session) == st.c
    {
      ghost var c := Value(session);
      var read := world.read(events);
      if read.None? {
        Log(c, ReadFailed);
        return Err(Transport);
      }
      var at := world.clock(events);
      lastPacketReceivedTime := at;
      var action := HandlePacket(cfg.version, read.value);
      Log(c, Greeted(read.value, at));
      match action
      case Err(error) => r := Err(error);
      case Ok(ConnectAck(present, code)) =>
        if code == 0 {
          connected := true;
          r := Ok(present);
        } else {
          r := Err(AuthenticationFailed);
        }
      case Ok(_) => r := Err(InvalidHeader);
    }

    method Disconnect(session: InMemorySession) returns (r: Result<()>)
      requires Valid() && ctx.Idle?
      modifies this
      ensures Valid()
      ensures var st := E.Disconnect(old(Value(session))); r == st.r && Value(session) == st.c
    {
      if !connected {
        return Ok(());
      }
      r := SendPacket(session, Packet.Disconnect);
      if r.Err? {
        return;
      }
      connected := false;
      if !world.close(events) {
        r := Err(Transport);
      }
    }

    method Ping(session: InMemorySession) returns (r: Result<()>)
      requires Valid()
      modifies this
      ensures Valid()
      ensures var st := E.Ping(old(Value(session))); r == st.r && Value(session) == st.c
    {
      if !connected {
        return Err(NotConnected);
      }
      r := SendPlain(session, Pingreq);
    }

    // -------------------------------------------------------------- publishing and subscribing

    method AllocatePid(session: InMemorySession) returns (pid: Pid)
      requires Valid()
      modifies this, session
      ensures Valid() && connected == old(connected)
      ensures pid == old(session.nextPid) && Value(session) == Post(old(Value(session)), Allocated(pid))
    {
      ghost var c := Value(session);
      pid := session.NextPid();
      Log(c, Allocated(pid));
    }

    /** Stores a message for pid, stamped with the time of now. */
    method StoreMessage(session: InMemorySession, pid: Pid, topic: Topic, qos: QoS, retain: bool, payload: Bytes)
      requires Valid()
      modifies this, session
      ensures Valid() && ctx == old(ctx)
      ensures Value(session) == Post(old(Value(session)), Stored(pid, E.Stamp(old(Value(session)), topic, qos, retain, payload)))
    {
      ghost var c := Value(session);
      var message := Inflight(topic, qos, retain, payload, 0, world.clock(events));
      session.StoreOutgoingPublish(pid, message);
      Log(c, Stored(pid, message));
    }

    method Publish(session: InMemorySession, topic: Topic, qos: QoS, retain: bool, payload: Bytes)
      returns (r: Result<Option<Pid>>)
      requires Valid() && ctx.Idle?
      modifies this, session
      ensures Valid()
      ensures var st := E.Publish(old(Value(session)), topic, qos, retain, payload); r == st.r && Value(session) == st.c
    {
      if !connected {
        return Err(NotConnected);
      }
      var pid := None;
      if qos != AtMostOnce {
        var p := AllocatePid(session);
        pid := Some(p);
      }
      match CreatePublish(topic, qos, retain, payload, pid, false)
      case Err(error) => r := Err(error);
      case Ok(packet) =>
        if pid.Some? {
          StoreMessage(session, pid.value, topic, qos, retain, payload);
        }
        var sent := SendPlain(session, packet);
        r := if sent.Ok? then Ok(pid) else Err(sent.error);
    }

    method Subscribe(session: InMemorySession, wanted: seq<(Filter, QoS)>) returns (r: Result<Pid>)
      requires Valid() && ctx.Idle?
      modifies this, session
      ensures Valid()
      ensures var st := E.Subscribe(old(Value(session)), wanted); r == st.r && Value(session) == st.c
    {
      if !connected {
        return Err(NotConnected);
      }
      var pid := AllocatePid(session);
      if wanted == [] {
        return Err(Codec);
      }
      var sent := SendPlain(session, Packet.Subscribe(pid, wanted));
      r := if sent.Ok? then Ok(pid) else Err(sent.error);
    }

    method Unsubscribe(session: InMemorySession, filters: seq<Filter>) returns (r: Result<Pid>)
      requires Valid() && ctx.Idle?
      modifies this, session
      ensures Valid()
      ensures var st := E.Unsubscribe(old(Value(session)), filters); r == st.r && Value(session) == st.c
    {
      if !connected {
        return Err(NotConnected);
      }
      var pid := AllocatePid(session);
      if filters == [] {
        return Err(Codec);
      }
      var sent := SendPlain(session, Packet.Unsubscribe(pid, filters));
      r := if sent.Ok? then Ok(pid) else Err(sent.error);
    }

    /** Lets the handler build an aliased PUBLISH, and logs the growth of its table. */
    method CreateAliased(session: InMemorySession, topic: Topic, qos: QoS, retain: bool, payload: Bytes,
                         pid: Option<Pid>, asked: Option<nat>)
      returns (r: Result<Packet>)
      requires Valid()
      modifies this, handler
      ensures Valid() && ctx == old(ctx)
      ensures var c, plain := old(Value(session)), CreatePublish(topic, qos, retain, payload, pid, false);
              if plain.Err? then r == plain && Value(session) == c
              else
                && r == Ok(plain.value.(alias := Some(Aliases.Chosen(c.aliases, topic, asked))))
                && Value(session) == E.AssignAlias(c, topic, asked)
    {
      ghost var c := Value(session);
      var assigns := topic !in handler.topicAliases && asked.None?;
      r := handler.CreatePublishWithConfig(topic, qos, retain, payload, pid, false, asked);
      if r.Ok? && assigns {
        Log(c, AliasAssigned(topic));
      }
    }

    // -------------------------------------------------------------- receiving

    /** Sends the reply pk that the arrival just logged calls for. */
    method Reply(session: InMemorySession, pk: Packet) returns (r: Result<()>)
      requires Valid() && ctx.Owing? && ctx.reply == pk && !pk.Disconnect?
      modifies this, session
      ensures Valid()
      ensures var st := E.SendPacket(old(Value(session)), pk); r == st.r && Value(session) == st.c
    {
      r := SendPacket(session, pk);
      if r.Ok? && pk.Pubrel? {
        session.StoreOutgoingPubrel(pk.pid);
      }
    }

    /** Completes what the received packet acknowledges; yields the reply it calls for. */
    method Settle(session: InMemorySession, ghost packet: Packet, action: Action) returns (reply: Option<Packet>)
      requires HandlePacket(cfg.version, packet) == Ok(action)
      modifies session
      ensures session.Value() == SessionAfterArrival(old(session.Value()), packet)
      ensures reply == ReplyTo(packet, old(session.Value()).pubs)
    {
      reply := None;
      match action
      case PublishAck(pid) =>
        var _ := session.CompleteOutgoingPublish(pid);
      case PublishComplete(pid) =>
        var _ := session.CompleteOutgoingPublish(pid);
        var _ := session.CompleteOutgoingPubrel(pid);
      case PublishRec(pid) =>
        var pending := session.CompleteOutgoingPublish(pid);
        if pending.Some? {
          reply := Some(Pubrel(pid));
        }
      case PublishRelease(pid) =>
        reply := Some(Pubcomp(pid));
      case PublishReceived(_, qos, _, _, pid) =>
        if qos == AtLeastOnce && pid.Some? {
          reply := Some(Puback(pid.value));
        } else if qos == ExactlyOnce && pid.Some? {
          reply := Some(Pubrec(pid.value));
        }
      case _ =>
    }

    /** Receives one packet, completes what it acknowledges, and sends the reply it calls for. */
    method ReceivePacket(session: InMemorySession) returns (r: Result<Action>)
      requires Valid() && ctx.Idle?
      modifies this, session
      ensures Valid()
      ensures var st := E.Receive(old(Value(session))); r == st.r && Value(session) == st.c
    {
      hide E.SendPacket, CtxAfterSend, RelsAfterSend, AfterSend;
      ghost var c := Value(session);
      var read := world.read(events);
      if read.None? {
        Log(c, ReadFailed);
        return Err(Transport);
      }
      var at := world.clock(events);
      lastPacketReceivedTime := at;
      r := HandlePacket(cfg.version, read.value);
      var reply := None;
      if r.Ok? {
        reply := Settle(session, read.value, r.value);
      } else {
        UnhandledChangesNothing(cfg.version, read.value, c.sess);
      }
      hide HandlePacket, ReplyTo, SessionAfterArrival;
      Log(c, Arrived(read.value, at));
      assert Value(session) == Post(c, Arrived(read.value, at));
      if reply.Some? {
        var sent := Reply(session, reply.value);
        if sent.Err? {
          r := Err(sent.error);
        }
      }
    }

    // -------------------------------------------------------------- the retry sweep

    method CollectRetries(session: InMemorySession, order: seq<Pid>, currentTime: Millis)
      returns (toRetry: seq<Pid>, toDrop: seq<Pid>)
      requires forall p :: p in order ==> p in session.pendingPublishes
      ensures toRetry == E.ToRetry(order, session.pendingPublishes, currentTime)
      ensures toDrop == E.ToDrop(order, session.pendingPublishes)
    {
      toRetry, toDrop := [], [];
      for i := 0 to |order|
        invariant toRetry == E.ToRetry(order[..i], session.pendingPublishes, currentTime)
        invariant toDrop == E.ToDrop(order[..i], session.pendingPublishes)
      {
        assert order[..i + 1][..i] == order[..i];
        var pending := session.pendingPublishes[order[i]];
        var elapsed := Elapsed(currentTime, pending.timestamp);
        if elapsed >= RETRY_TIMEOUT_MS && pending.retryCount < MAX_RETRY_COUNT {
          toRetry := toRetry + [order[i]];
        } else if pending.retryCount >= MAX_RETRY_COUNT {
          toDrop := toDrop + [order[i]];
        }
      }
      assert order[..|order|] == order;
    }

    method DropMessages(session: InMemorySession, pids: seq<Pid>)
      requires Valid()
      modifies this, session
      ensures Valid() && ctx == old(ctx)
      ensures Value(session) == E.DropAll(old(Value(session)), pids)
    {
      ghost var start := Value(session);
      for i := 0 to |pids|
        invariant Valid() && ctx == old(ctx)
        invariant E.DropAll(start, pids) == E.DropAll(Value(session), pids[i..])
      {
        ghost var c := Value(session);
        var _ := session.CompleteOutgoingPublish(pids[i]);
        Log(c, Dropped(pids[i]));
        assert Value(session) == Post(c, Dropped(pids[i]));
        assert pids[i..][1..] == pids[i + 1..];
      }
    }

    /** Counts and restamps the message through the reference, then sends it again. */
    method RetryMessage(session: InMemorySession, pid: Pid, currentTime: Millis) returns (r: Result<()>)
      requires Valid() && !ctx.Owing?
      modifies this, session
      ensures Valid() && !ctx.Owing?
      ensures var c := old(Value(session));
              if pid !in c.sess.pubs then r == Ok(()) && Value(session) == c
              else
                var st := E.RetryOne(c, pid, currentTime); r == st.r && Value(session) == st.c
    {
      var found := session.GetOutgoingPublish(pid);
      if found.None? {
        return Ok(());
      }
      ghost var c := Value(session);
      var pending := found.value.(retryCount := found.value.retryCount + 1, timestamp := currentTime);
      session.UpdateOutgoingPublish(pid, pending);
      Log(c, Bumped(pid, currentTime));
      assert Value(session) == Post(c, Bumped(pid, currentTime));
      var packet := CreatePublish(pending.topic, pending.qos, pending.retain, pending.payload, Some(pid), true);
      if packet.Err? {
        return Err(packet.error);
      }
      r := SendPlain(session, packet.value);
    }

    method RetryMessages(session: InMemorySession, pids: seq<Pid>, currentTime: Millis) returns (r: Result<()>)
      requires Valid() && !ctx.Owing?
      modifies this, session
      ensures Valid() && !ctx.Owing?
      ensures var st := E.RetryAll(old(Value(session)), pids, currentTime); r == st.r && Value(session) == st.c
    {
      ghost var start := Value(session);
      for i := 0 to |pids|
        invariant Valid() && !ctx.Owing?
        invariant E.RetryAll(start, pids, currentTime) == E.RetryAll(Value(session), pids[i..], currentTime)
      {
        assert pids[i..][1..] == pids[i + 1..];
        r := RetryMessage(session, pids[i], currentTime);
        if r.Err? {
          return;
        }
      }
      r := Ok(());
    }

    method ReleaseMessages(session: InMemorySession, pids: seq<Pid>, currentTime: Millis) returns (r: Result<()>)
      requires Valid() && !ctx.Owing?
      modifies this, session
      ensures Valid() && !ctx.Owing?
      ensures var st := E.ReleaseAll(old(Value(session)), pids, currentTime); r == st.r && Value(session) == st.c
    {
      ghost var start := Value(session);
      for i := 0 to |pids|
        invariant Valid() && !ctx.Owing?
        invariant E.ReleaseAll(start, pids, currentTime) == E.ReleaseAll(Value(session), pids[i..], currentTime)
      {
        assert pids[i..][1..] == pids[i + 1..];
        if SaturatingAdd(lastPacketSentTime, PUBREL_GAP_MS) < currentTime {
          r := SendPlain(session, Pubrel(pids[i]));
          if r.Err? {
            return;
          }
        }
      }
      r := Ok(());
    }

    /** The retry sweep: collect, drop the spent, retry the due, then repeat PUBRELs at a limited pace. */
    method HandleRetries(session: InMemorySession, currentTime: Millis) returns (r: Result<()>)
      requires Valid() && !ctx.Owing?
      modifies this, session
      ensures Valid() && !ctx.Owing?
      ensures var st := E.Sweep(old(Value(session)), currentTime); r == st.r && Value(session) == st.c
    {
      var order := session.PendingOutgoingPublishes(world.order(events));
      var toRetry, toDrop := CollectRetries(session, order, currentTime);
      DropMessages(session, toDrop);
      r := RetryMessages(session, toRetry, currentTime);
      if r.Err? {
        return;
      }
      var pubrels := session.PendingOutgoingPubrels(world.order(events));
      r := ReleaseMessages(session, pubrels[..Min(PUBREL_BATCH, |pubrels|)], currentTime);
    }
  }
}
