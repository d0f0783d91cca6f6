/** What each operation of the protocol engine does, as a function of engine and session. */
module EngineModel {
  import opened Mqtt
  import opened PacketIds
  import opened SessionModel
  import opened Machine
  import Aliases

  datatype Step<+T> = Step(c: Core, r: Result<T>)

  function SendPacket(c: Core, pk: Packet): Step<()> {
    var e := SendEvent(c, pk);
    Step(Post(c, e), if e.ok then Ok(()) else if c.cfg.encode(pk).None? then Err(Codec) else Err(Transport))
  }

  /** Sends pk and, if that succeeds, reports `done`. */
  function SendFor<T>(c: Core, pk: Packet, done: T): Step<T> {
    var st := SendPacket(c, pk);
    Step(st.c, if st.r.Ok? then Ok(done) else Err(st.r.error))
  }

  function KeepAliveDue(c: Core, now: Millis): bool {
    c.keepAliveMs != 0 && Elapsed(now, c.lastSent) >= c.keepAliveMs
  }

  function TimedOut(c: Core, now: Millis): bool {
    c.keepAliveMs != 0 && Elapsed(now, c.lastRecv) >= c.keepAliveMs + c.keepAliveMs / 2
  }

  /** CONNECT, then the next packet must be a CONNACK with return code 0. */
  function Connect(c: Core): Step<bool> {
    if c.connected then Step(c, Err(InvalidState))
    else
      var c1 := Post(c, KeepAliveSet(c.cfg.keepAlive * 1000));
      var st := SendPacket(c1, Packet.Connect(c.cfg.cleanSession, c.cfg.keepAlive));
      if st.r.Err? then Step(st.c, Err(st.r.error)) else AwaitConnack(st.c)
  }

  function AwaitConnack(c: Core): Step<bool> {
    match c.world.read(|c.log|)
    case None => Step(Post(c, ReadFailed), Err(Transport))
    case Some(pk) =>
      var c1 := Post(c, Greeted(pk, c.world.clock(|c.log|)));
      match HandlePacket(c.cfg.version, pk)
      case Err(e) => Step(c1, Err(e))
      case Ok(ConnectAck(present, code)) =>
        if code == 0 then Step(c1, Ok(present)) else Step(c1, Err(AuthenticationFailed))
      case Ok(_) => Step(c1, Err(InvalidHeader))
  }

  function Stamp(c: Core, topic: Topic, qos: QoS, retain: bool, payload: Bytes): Inflight {
    Inflight(topic, qos, retain, payload, 0, c.world.clock(|c.log|))
  }

  function Publish(c: Core, topic: Topic, qos: QoS, retain: bool, payload: Bytes): Step<Option<Pid>> {
    if !c.connected then Step(c, Err(NotConnected))
    else if qos == AtMostOnce then
      match CreatePublish(topic, qos, retain, payload, None, false)
      case Err(e) => Step(c, Err(e))
      case Ok(pk) => SendFor(c, pk, None)
    else
      var p := c.sess.nextPid;
      var c1 := Post(c, Allocated(p));
      match CreatePublish(topic, qos, retain, payload, Some(p), false)
      case Err(e) => Step(c1, Err(e))
      case Ok(pk) => SendFor(Post(c1, Stored(p, Stamp(c1, topic, qos, retain, payload))), pk, Some(p))
  }

  /** A handler refuses an empty list of filters, after the id has been allocated. */
  function Subscribe(c: Core, wanted: seq<(Filter, QoS)>): Step<Pid> {
    if !c.connected then Step(c, Err(NotConnected))
    else
      var p := c.sess.nextPid;
      var c1 := Post(c, Allocated(p));
      if wanted == [] then Step(c1, Err(Codec)) else SendFor(c1, Packet.Subscribe(p, wanted), p)
  }

  function Unsubscribe(c: Core, filters: seq<Filter>): Step<Pid> {
    if !c.connected then Step(c, Err(NotConnected))
    else
      var p := c.sess.nextPid;
      var c1 := Post(c, Allocated(p));
      if filters == [] then Step(c1, Err(Codec)) else SendFor(c1, Packet.Unsubscribe(p, filters), p)
  }

  function Ping(c: Core): Step<()> {
    if !c.connected then Step(c, Err(NotConnected)) else SendPacket(c, Pingreq)
  }

  /** A failed DISCONNECT leaves the engine connected. */
  function Disconnect(c: Core): Step<()> {
    if !c.connected then Step(c, Ok(()))
    else
      var st := SendPacket(c, Packet.Disconnect);
      if st.r.Ok? && !c.world.close(|st.c.log|) then Step(st.c, Err(Transport)) else st
  }

  /** Receives one packet and, when the handshake asks for it, replies at once. */
  function Receive(c: Core): Step<Action> {
    match c.world.read(|c.log|)
    case None => Step(Post(c, ReadFailed), Err(Transport))
    case Some(pk) =>
      var c1 := Post(c, Arrived(pk, c.world.clock(|c.log|)));
      match HandlePacket(c.cfg.version, pk)
      case Err(e) => Step(c1, Err(e))
      case Ok(a) => if c1.ctx.Owing? then SendFor(c1, c1.ctx.reply, a) else Step(c1, Ok(a))
  }

  // ---------------------------------------------------------------- retry sweep

  /** The messages of an iteration over the pending ones that are due for a retry. */
  function ToRetry(order: seq<Pid>, pubs: map<Pid, Inflight>, now: Millis): (r: seq<Pid>)
    ensures forall p :: p in r <==> p in order && p in pubs && pubs[p].retryCount < 3 && Elapsed(now, pubs[p].timestamp) >= 5000
    ensures Distinct(order) ==> Distinct(r)
    decreases |order|
  {
    if order == [] then []
    else
      var n := |order| - 1;
      var r := ToRetry(order[..n], pubs, now);
      if order[n] in pubs && IsDue(pubs[order[n]], now) then r + [order[n]] else r
  }

  /** The messages of an iteration over the pending ones that have used up their retries. */
  function ToDrop(order: seq<Pid>, pubs: map<Pid, Inflight>): (r: seq<Pid>)
    ensures forall p :: p in r <==> p in order && p in pubs && pubs[p].retryCount >= 3
    ensures Distinct(order) ==> Distinct(r)
    decreases |order|
  {
    if order == [] then []
    else
      var n := |order| - 1;
      var r := ToDrop(order[..n], pubs);
      if order[n] in pubs && IsSpent(pubs[order[n]]) then r + [order[n]] else r
  }

  function DropAll(c: Core, pids: seq<Pid>): Core
    decreases |pids|
  {
    if pids == [] then c else DropAll(Post(c, Dropped(pids[0])), pids[1..])
  }

  /** Counts and restamps a message, then sends it again. */
  function RetryOne(c: Core, p: Pid, now: Millis): Step<()>
    requires p in c.sess.pubs
  {
    var c1 := Post(c, Bumped(p, now));
    var m := c1.sess.pubs[p];
    match CreatePublish(m.topic, m.qos, m.retain, m.payload, Some(p), true)
    case Err(e) => Step(c1, Err(e))
    case Ok(pk) => SendPacket(c1, pk)
  }

  /** Stops at the first failing send. */
  function RetryAll(c: Core, pids: seq<Pid>, now: Millis): Step<()>
    decreases |pids|
  {
    if pids == [] then Step(c, Ok(()))
    else if pids[0] !in c.sess.pubs then RetryAll(c, pids[1..], now)
    else
      var st := RetryOne(c, pids[0], now);
      if st.r.Err? then st else RetryAll(st.c, pids[1..], now)
  }

  /** Sends a PUBREL only when the last packet went out more than a second before the sweep's clock reading. */
  function ReleaseAll(c: Core, pids: seq<Pid>, now: Millis): Step<()>
    decreases |pids|
  {
    if pids == [] then Step(c, Ok(()))
    else if SaturatingAdd(c.lastSent, PUBREL_GAP_MS) < now then
      var st := SendPacket(c, Pubrel(pids[0]));
      if st.r.Err? then st else ReleaseAll(st.c, pids[1..], now)
    else ReleaseAll(c, pids[1..], now)
  }

  function PubOrder(c: Core): (r: seq<Pid>)
    ensures Distinct(r) && forall p :: p in r <==> p in c.sess.pubs
  {
    Enumerate(c.world.order(|c.log|), c.sess.pubs.Keys)
  }

  /** At most ten of the recorded PUBRELs, in iteration order. */
  function RelBatch(c: Core): (r: seq<Pid>)
    ensures Distinct(r) && |r| == Min(10, |c.sess.rels|) && forall p :: p in r ==> p in c.sess.rels
  {
    var all := Enumerate(c.world.order(|c.log|), c.sess.rels);
    all[..Min(PUBREL_BATCH, |all|)]
  }

  /** The PUBLISH half of the sweep: collect, drop the spent, retry the due. */
  function SweepPublishes(c: Core, now: Millis): Step<()> {
    var order := PubOrder(c);
    RetryAll(DropAll(c, ToDrop(order, c.sess.pubs)), ToRetry(order, c.sess.pubs, now), now)
  }

  function Sweep(c: Core, now: Millis): Step<()> {
    var st := SweepPublishes(c, now);
    if st.r.Err? then st else ReleaseAll(st.c, RelBatch(st.c), now)
  }

  // ---------------------------------------------------------------- resume

  /** Resends the given pending messages; stops at the first failing send. */
  function ResendAll(c: Core, pubs: map<Pid, Inflight>, pids: seq<Pid>): Step<()>
    decreases |pids|
  {
    if pids == [] then Step(c, Ok(()))
    else if pids[0] !in pubs then ResendAll(c, pubs, pids[1..])
    else
      var m := pubs[pids[0]];
      match CreatePublish(m.topic, m.qos, m.retain, m.payload, Some(pids[0]), true)
      case Err(e) => Step(c, Err(e))
      case Ok(pk) =>
        var st := SendPacket(c, pk);
        if st.r.Err? then st else ResendAll(st.c, pubs, pids[1..])
  }

  function ResendPending(c: Core): Step<()> {
    ResendAll(Post(c, Resumed), c.sess.pubs, PubOrder(c))
  }

  // ---------------------------------------------------------------- version 5 packets

  /** `create_publish_with_config`: the alias table may grow before the packet is built. */
  function AssignAlias(c: Core, topic: Topic, asked: Option<nat>): Core {
    if Aliases.Assigns(c.aliases, topic, asked) then Post(c, AliasAssigned(topic)) else c
  }
}
