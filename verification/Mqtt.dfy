/** Packets, messages, actions and errors shared by every layer, and the two stateless
    mappings of the protocol handlers: building a PUBLISH and turning a packet into an action. */
module Mqtt {

  datatype Option<+T> = None | Some(value: T)

  datatype Result<+T> = Ok(value: T) | Err(error: Error)

  datatype Error =
    | ConfigInvalid
    | ReconnectDisabled
    | NotConnected
    | InvalidState
    | PublishFailed
    | AuthenticationFailed
    | InvalidHeader
    | Codec
    | Transport
    | Timeout
    | Internal

  const MAX_PID := 65535
  const MAX_U64 := 0xFFFF_FFFF_FFFF_FFFF

  type Pid = n: int | 1 <= n <= MAX_PID witness 1
  type Millis = n: int | 0 <= n <= MAX_U64 witness 0
  newtype byte = n: int | 0 <= n < 256
  type Bytes = seq<byte>
  type Topic = string
  type Filter = string

  datatype Version = V3 | V5

  datatype QoS = AtMostOnce | AtLeastOnce | ExactlyOnce

  /** A QoS level together with the packet id that levels 1 and 2 carry. */
  datatype QosPid = Level0 | Level1(pid: Pid) | Level2(pid: Pid)

  datatype Packet =
    | Connect(cleanSession: bool, keepAlive: nat)
    | Connack(sessionPresent: bool, code: nat)
    | Publish(dup: bool, qosPid: QosPid, retain: bool, topic: Topic, payload: Bytes, alias: Option<nat>)
    | Puback(pid: Pid)
    | Pubrec(pid: Pid)
    | Pubrel(pid: Pid)
    | Pubcomp(pid: Pid)
    | Subscribe(pid: Pid, wanted: seq<(Filter, QoS)>)
    | Suback(pid: Pid, codes: seq<nat>)
    | Unsubscribe(pid: Pid, filters: seq<Filter>)
    | Unsuback(pid: Pid)
    | Pingreq
    | Pingresp
    | Disconnect
    | Auth

  datatype Action =
    | ConnectAck(sessionPresent: bool, code: nat)
    | PublishAck(pid: Pid)
    | PublishRec(pid: Pid)
    | PublishRelease(pid: Pid)
    | PublishComplete(pid: Pid)
    | PublishReceived(topic: Topic, qos: QoS, retain: bool, payload: Bytes, packetId: Option<Pid>)
    | SubscribeAck(pid: Pid, codes: seq<nat>)
    | UnsubscribeAck(pid: Pid)
    | PingResponse
    | NoAction

  /** An outgoing QoS 1 or QoS 2 message awaiting its acknowledgment. */
  datatype Inflight = Inflight(topic: Topic, qos: QoS, retain: bool, payload: Bytes, retryCount: nat, timestamp: Millis)

  datatype Received = Received(topic: Topic, qos: QoS, retain: bool, payload: Bytes, packetId: Option<Pid>, timestamp: Millis)

  datatype ClientEvent =
    | Disconnected
    | MessageReceived(msg: Received)
    | MessageAcknowledged(pid: Pid)
    | SubscriptionConfirmed(pid: Pid)
    | UnsubscriptionConfirmed(pid: Pid)
    | Pong

  function Qos(q: QosPid): QoS {
    match q
    case Level0 => AtMostOnce
    case Level1(_) => AtLeastOnce
    case Level2(_) => ExactlyOnce
  }

  function PidOf(q: QosPid): Option<Pid> {
    match q
    case Level0 => None
    case Level1(p) => Some(p)
    case Level2(p) => Some(p)
  }

  function Min(a: nat, b: nat): nat { if a <= b then a else b }

  /** `u64::saturating_sub`. */
  function Elapsed(now: Millis, since: Millis): Millis { if now >= since then now - since else 0 }

  /** `u64::saturating_add`. */
  function SaturatingAdd(a: Millis, b: nat): Millis { if a + b <= MAX_U64 then a + b else MAX_U64 }

  /** The packet is a PUBLISH that carries packet id p. */
  predicate PublishesUnder(pk: Packet, p: Pid) {
    pk.Publish? && PidOf(pk.qosPid) == Some(p)
  }

  /** The packet is a PUBLISH of message m under p: same id, QoS, retain flag, topic and payload. */
  predicate Carries(pk: Packet, p: Pid, m: Inflight) {
    && PublishesUnder(pk, p)
    && Qos(pk.qosPid) == m.qos
    && pk.retain == m.retain
    && pk.topic == m.topic
    && pk.payload == m.payload
  }

  /** m has the content of the PUBLISH pk, as it is handed to the application. */
  predicate Hands(m: Received, pk: Packet) {
    && pk.Publish?
    && m.qos == Qos(pk.qosPid)
    && m.packetId == PidOf(pk.qosPid)
    && m.retain == pk.retain
    && m.topic == pk.topic
    && m.payload == pk.payload
  }

  /** `create_publish_packet`, the same in both handlers: a QoS 0 message must not have a packet
      id and any other message must. */
  function CreatePublish(topic: Topic, qos: QoS, retain: bool, payload: Bytes, pid: Option<Pid>, dup: bool): (r: Result<Packet>)
    ensures r.Ok? <==> (qos == AtMostOnce <==> pid.None?)
    ensures r.Ok? ==>
              && r.value.Publish?
              && r.value.dup == dup && r.value.topic == topic && r.value.retain == retain && r.value.payload == payload
              && Qos(r.value.qosPid) == qos && PidOf(r.value.qosPid) == pid && r.value.alias == None
              && (pid.Some? ==> Carries(r.value, pid.value, Inflight(topic, qos, retain, payload, 0, 0)))
  {
    match (qos, pid)
    case (AtMostOnce, None) => Ok(Publish(dup, Level0, retain, topic, payload, None))
    case (AtLeastOnce, Some(p)) => Ok(Publish(dup, Level1(p), retain, topic, payload, None))
    case (ExactlyOnce, Some(p)) => Ok(Publish(dup, Level2(p), retain, topic, payload, None))
    case _ => Err(Codec)
  }

  /** The one packet that action a reports. */
  predicate Means(a: Action, pk: Packet) {
    match a
    case ConnectAck(present, code) => pk == Connack(present, code)
    case PublishAck(p) => pk == Puback(p)
    case PublishRec(p) => pk == Pubrec(p)
    case PublishRelease(p) => pk == Pubrel(p)
    case PublishComplete(p) => pk == Pubcomp(p)
    case PublishReceived(topic, qos, retain, payload, packetId) =>
      Hands(Received(topic, qos, retain, payload, packetId, 0), pk)
    case SubscribeAck(p, codes) => pk == Suback(p, codes)
    case UnsubscribeAck(p) => pk == Unsuback(p)
    case PingResponse => pk == Pingresp
    case NoAction => pk == Packet.Disconnect
  }

  /** `handle_packet` of the two handlers: what a received packet means, or an error for the
      packets a client must never receive. Only version 5 accepts a DISCONNECT from the server. */
  function HandlePacket(v: Version, pk: Packet): (r: Result<Action>)
    ensures r.Err? <==> pk.Connect? || pk.Subscribe? || pk.Unsubscribe? || pk.Pingreq? || pk.Auth? || (pk.Disconnect? && v.V3?)
    ensures r.Ok? ==> Means(r.value, pk)
  {
    match pk
    case Connack(present, code) => Ok(ConnectAck(present, code))
    case Publish(_, qosPid, retain, topic, payload, _) =>
      Ok(PublishReceived(topic, Qos(qosPid), retain, payload, PidOf(qosPid)))
    case Puback(p) => Ok(PublishAck(p))
    case Pubrec(p) => Ok(PublishRec(p))
    case Pubrel(p) => Ok(PublishRelease(p))
    case Pubcomp(p) => Ok(PublishComplete(p))
    case Suback(p, codes) => Ok(SubscribeAck(p, codes))
    case Unsuback(p) => Ok(UnsubscribeAck(p))
    case Pingresp => Ok(PingResponse)
    case Disconnect => if v.V5? then Ok(NoAction) else Err(Codec)
    case _ => Err(Codec)
  }
}
