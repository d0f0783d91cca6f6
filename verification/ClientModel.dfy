/** What each public call of the client does, as a function of the whole state. */
module ClientModel {
  import opened Mqtt
  import opened SessionModel
  import opened Machine
  import Aliases
  import E = EngineModel

  datatype Outcome<+T> = Outcome(s: State, r: Result<T>)

  /** An engine step, seen from the client. */
  function Lift<T>(s: State, st: E.Step<T>): Outcome<T> { Outcome(s.(core := st.c), st.r) }

  function Fail<T>(s: State, e: Error): Outcome<T> { Outcome(s, Err(e)) }

  // ---------------------------------------------------------------- connecting

  function Connect(s: State): Outcome<()> { ConnectBody(Apply(s, Called(ConnectOp))) }

  /** An engine that believes it is connected refuses, but the session is cleared before it is asked. */
  function ConnectBody(s: State): Outcome<()> {
    if !Validates(s.core.cfg) then Fail(s, ConfigInvalid)
    else
      var s1 := Opening(s);
      var o := Lift(s1, E.Connect(s1.core));
      match o.r
      case Err(e) => Fail(Apply(o.s, StatusSet(Status.Failed)), e)
      case Ok(present) => Opened(o.s, present)
  }

  function Opening(s: State): State {
    var s1 := Apply(s, StatusSet(Connecting));
    if s.core.cfg.cleanSession then Apply(s1, Cleared) else s1
  }

  /** Connected; a session the server still has is resumed. */
  function Opened(s: State, present: bool): Outcome<()> {
    var s1 := Apply(Apply(s, StatusSet(Connected)), AttemptsReset);
    if present && !s.core.cfg.cleanSession then Lift(s1, E.ResendPending(s1.core)) else Outcome(s1, Ok(()))
  }

  function Reconnect(s: State): Outcome<()> { ReconnectBody(Apply(s, Called(ReconnectOp))) }

  function ReconnectBody(s: State): Outcome<()> {
    var r := s.core.cfg.reconnect;
    if !r.enabled then Fail(s, ReconnectDisabled)
    else if r.maxAttempts > 0 && s.app.attempts >= r.maxAttempts then Fail(s, Internal)
    else ConnectBody(Apply(s, Attempted))
  }

  function Disconnect(s: State): Outcome<()> {
    var s0 := Apply(s, Called(DisconnectOp));
    if s0.app.status == Status.Disconnected then Outcome(s0, Ok(()))
    else
      var s1 := Apply(s0, StatusSet(Disconnecting));
      var o := Lift(s1, E.Disconnect(s1.core));
      Outcome(Apply(o.s, StatusSet(Status.Disconnected)), o.r)
  }

  // ---------------------------------------------------------------- publishing

  function Publish(s: State, topic: Topic, qos: QoS, retain: bool, payload: Bytes): Outcome<()> {
    var s0 := Apply(s, Called(PublishOp));
    if s0.app.status != Connected then Fail(s0, InvalidState)
    else if |s0.core.sess.pubs| >= s0.core.cfg.maxInflight then Fail(s0, Error.PublishFailed)
    else
      var o := Lift(s0, E.Publish(s0.core, topic, qos, retain, payload));
      Outcome(o.s, if o.r.Ok? then Ok(()) else Err(o.r.error))
  }

  /** The version 5 path allocates, builds, stores and sends without asking the engine whether it
      is connected. `asked` is the topic alias the caller put into the properties, if any. */
  function PublishV5(s: State, topic: Topic, qos: QoS, retain: bool, payload: Bytes, asked: Option<nat>): Outcome<()> {
    var s0 := Apply(s, Called(PublishV5Op(asked)));
    if s0.app.status != Connected then Fail(s0, InvalidState)
    else if |s0.core.sess.pubs| >= s0.core.cfg.maxInflight then Fail(s0, Error.PublishFailed)
    else Lift(s0, PublishAliased(s0.core, topic, qos, retain, payload, asked))
  }

  function PublishAliased(c: Core, topic: Topic, qos: QoS, retain: bool, payload: Bytes, asked: Option<nat>): E.Step<()> {
    var p := c.sess.nextPid;
    var pid := if qos == AtMostOnce then None else Some(p);
    var c1 := if qos == AtMostOnce then c else Post(c, Allocated(p));
    match CreatePublish(topic, qos, retain, payload, pid, false)
    case Err(e) => E.Step(c1, Err(e))
    case Ok(plain) =>
      var c2 := E.AssignAlias(c1, topic, asked);
      var c3 := if qos == AtMostOnce then c2 else Post(c2, Stored(p, E.Stamp(c2, topic, qos, retain, payload)));
      E.SendPacket(c3, plain.(alias := Some(Aliases.Chosen(c.aliases, topic, asked))))
  }

  // ---------------------------------------------------------------- subscriptions

  /** Stores the filters one by one, all under the same id; stops when the table is full. */
  function AddAll(c: Core, p: Pid, wanted: seq<(Filter, QoS)>): E.Step<()>
    decreases |wanted|
  {
    if wanted == [] then E.Step(c, Ok(()))
    else if |c.sess.subs| >= c.sess.capacity then E.Step(c, Err(Internal))
    else AddAll(Post(c, SubAdded(p, wanted[0].0, wanted[0].1)), p, wanted[1..])
  }

  function Subscribe(s: State, wanted: seq<(Filter, QoS)>): Outcome<()> {
    var s0 := Apply(s, Called(SubscribeOp));
    if s0.app.status != Connected then Fail(s0, InvalidState)
    else if wanted == [] then Outcome(s0, Ok(()))
    else
      var o := Lift(s0, E.Subscribe(s0.core, wanted));
      match o.r
      case Err(e) => Fail(o.s, e)
      case Ok(p) => Lift(o.s, AddAll(o.s.core, p, wanted))
  }

  function RemoveAll(c: Core, filters: seq<Filter>): Core
    decreases |filters|
  {
    if filters == [] then c
    else
      match FindSub(c.sess.subs, filters[0], Enumerate(c.world.order(|c.log|), c.sess.subs.Keys))
      case None => RemoveAll(c, filters[1..])
      case Some(p) => RemoveAll(Post(c, SubRemoved(p)), filters[1..])
  }

  function Unsubscribe(s: State, filters: seq<Filter>): Outcome<()> {
    var s0 := Apply(s, Called(UnsubscribeOp));
    if s0.app.status != Connected then Fail(s0, InvalidState)
    else if filters == [] then Outcome(s0, Ok(()))
    else
      var o := Lift(s0, E.Unsubscribe(s0.core, filters));
      match o.r
      case Err(e) => Fail(o.s, e)
      case Ok(_) => Outcome(o.s.(core := RemoveAll(o.s.core, filters)), Ok(()))
  }

  // ---------------------------------------------------------------- polling

  function Ping(s: State): Outcome<()> { PingBody(Apply(s, Called(PingOp))) }

  function PingBody(s: State): Outcome<()> {
    if s.app.status != Connected then Fail(s, InvalidState) else Lift(s, E.Ping(s.core))
  }

  function Poll(s: State): Outcome<Option<ClientEvent>> {
    var s0 := Apply(s, Called(PollOp));
    if s0.core.connected && s0.core.world.alive(|s0.core.log|) then PollBody(s0)
    else if s0.app.status == Connected && s0.core.cfg.reconnect.enabled then
      var o := ReconnectBody(s0);
      if o.r.Ok? then PollBody(o.s)
      else Outcome(Apply(o.s, StatusSet(Status.Disconnected)), Ok(Some(ClientEvent.Disconnected)))
    else if s0.app.status != Status.Disconnected then
      Outcome(Apply(s0, StatusSet(Status.Disconnected)), Ok(Some(ClientEvent.Disconnected)))
    else Outcome(s0, Ok(None))
  }

  function PollBody(s: State): Outcome<Option<ClientEvent>> {
    var o := Maintain(s);
    if o.r.Err? then Fail(o.s, o.r.error) else ReceiveOne(o.s)
  }

  /** What a poll does before it receives: time-out check, keep-alive, retry sweep. */
  function Maintain(s: State): Outcome<()> {
    var now := s.core.world.clock(|s.core.log|);
    var s1 := Apply(s, Ticked(now));
    if E.TimedOut(s1.core, now) then Fail(Apply(s1, StatusSet(Status.Failed)), Timeout)
    else
      var o := if E.KeepAliveDue(s1.core, now) then PingBody(s1) else Outcome(s1, Ok(()));
      if o.r.Err? then o else Lift(o.s, E.Sweep(o.s.core, now))
  }

  function ReceiveOne(s: State): Outcome<Option<ClientEvent>> {
    var o := Lift(s, E.Receive(s.core));
    match o.r
    case Err(e) => Fail(Apply(o.s, StatusSet(Status.Failed)), e)
    case Ok(a) => HandleAction(o.s, a)
  }

  function HandleAction(s: State, a: Action): Outcome<Option<ClientEvent>> {
    match a
    case PublishReceived(topic, qos, retain, payload, pid) =>
      var m := Received(topic, qos, retain, payload, pid, s.core.world.clock(|s.core.log|));
      Outcome(Apply(s, Delivered(m)), Ok(Some(MessageReceived(m))))
    case SubscribeAck(p, codes) =>
      Outcome(Apply(s, SubConfirmed(p, codes)),
              if ConfirmFails(s.core.sess, p, codes) then Err(Internal) else Ok(Some(SubscriptionConfirmed(p))))
    case UnsubscribeAck(p) => Outcome(s, Ok(Some(UnsubscriptionConfirmed(p))))
    case PingResponse => Outcome(s, Ok(Some(Pong)))
    case PublishAck(p) => Outcome(s, Ok(Some(MessageAcknowledged(p))))
    case PublishComplete(p) => Outcome(s, Ok(Some(MessageAcknowledged(p))))
    case _ => Outcome(s, Ok(None))
  }

  function NextMessage(s: State): Outcome<Option<Received>> {
    var s0 := Apply(s, Called(NextMessageOp));
    var m := if s0.app.inbox == [] then None else Some(s0.app.inbox[0]);
    Outcome(Apply(s0, Popped(m)), Ok(m))
  }
}
