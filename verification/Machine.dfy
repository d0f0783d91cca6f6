/** The client as an event-sourced machine. Every step the code takes, across the session, the
    protocol engine and the client, is one event; a state is what its log of events makes of the
    initial state; and Guard says when the code may take a step. Claims about all runs are claims
    about Sound states, whose whole log obeys the guards. */
module Machine {
  import opened Mqtt
  import opened PacketIds
  import opened Wire
  import opened SessionModel
  import Aliases
  import Inbox

  /** `scale` is what multiplying a u32 interval by the f32 backoff multiplier and casting back
      to u32 yields; nothing is assumed about its rounding. */
  datatype Reconnect = Reconnect(enabled: bool, maxAttempts: nat, initialMs: nat, maxMs: nat, scale: nat -> nat)

  /** The configuration, the protocol version in use and its (unknown) packet encoder. */
  datatype Config = Config(
    version: Version,
    encode: Packet -> Option<Bytes>,
    clientId: string,
    keepAlive: nat,
    cleanSession: bool,
    willSize: Option<nat>,
    maxPacketSize: nat,
    maxSubscriptions: nat,
    maxInflight: nat,
    connectTimeoutMs: nat,
    reconnect: Reconnect)

  predicate Validates(cfg: Config) {
    && 0 < |cfg.clientId| <= 23
    && (cfg.willSize.Some? ==> cfg.willSize.value <= cfg.maxPacketSize)
    && cfg.maxSubscriptions > 0
    && cfg.maxInflight > 0
    && cfg.connectTimeoutMs > 0
  }

  datatype Status = Disconnected | Connecting | Connected | Disconnecting | Failed

  datatype Op =
    | ConnectOp | ReconnectOp | PublishOp | PublishV5Op(asked: Option<nat>) | SubscribeOp | UnsubscribeOp
    | PingOp | DisconnectOp | PollOp | NextMessageOp

  datatype Event =
    | Called(op: Op)                                                  // a public call begins
    | Ticked(now: Millis)                                             // poll reads the clock
    | Allocated(pid: Pid)
    | Stored(pid: Pid, msg: Inflight)
    | Sent(packet: Packet, written: nat, ok: bool, at: Millis)        // a send, with the bytes that got out
    | Greeted(packet: Packet, at: Millis)                             // the answer to a CONNECT
    | Arrived(packet: Packet, at: Millis)                             // any other packet received
    | ReadFailed
    | Dropped(pid: Pid)                                               // given up by the retry sweep
    | Bumped(pid: Pid, now: Millis)                                   // chosen for retry by the sweep
    | Cleared
    | Resumed                                                         // session resume starts
    | KeepAliveSet(ms: nat)
    | SubAdded(pid: Pid, filter: Filter, qos: QoS)
    | SubConfirmed(pid: Pid, codes: seq<nat>)
    | SubRemoved(pid: Pid)
    | AliasAssigned(topic: Topic)
    | StatusSet(status: Status)
    | Attempted                                                       // reconnect counts an attempt
    | AttemptsReset
    | Delivered(item: Received)
    | Popped(taken: Option<Received>)

  /** What the call in progress still has to do. */
  datatype Ctx =
    | Idle
    | Owing(reply: Packet, cause: Packet)
    | Delivering(cause: Packet)
    | Confirming(pid: Pid, codes: seq<nat>)
    | Resuming(left: set<Pid>)

  /** Engine and session, with the bytes put on the wire, the clock reading of the poll in
      progress, and the log. */
  datatype Core = Core(
    cfg: Config,
    world: World,
    connected: bool,
    lastSent: Millis,
    lastRecv: Millis,
    keepAliveMs: nat,
    aliases: Aliases.Table,
    sess: Session,
    wire: Bytes,
    ctx: Ctx,
    now: Millis,
    log: seq<Event>)

  /** The client above the engine. */
  datatype App = App(status: Status, attempts: nat, intervalMs: nat, inbox: seq<Received>)

  datatype State = State(core: Core, app: App)

  const DEFAULT_KEEP_ALIVE_MS := 60_000
  const RETRY_TIMEOUT_MS := 5000
  const MAX_RETRY_COUNT := 3
  const PUBREL_BATCH := 10
  const PUBREL_GAP_MS := 1000

  function Init(cfg: Config, world: World): State {
    State(
      Core(cfg, world, false, 0, 0, DEFAULT_KEEP_ALIVE_MS, Aliases.NO_ALIASES, Empty(cfg.maxSubscriptions), [], Idle, 0, []),
      App(Status.Disconnected, 0, 0, []))
  }

  // ---------------------------------------------------------------- sending

  function Encoded(cfg: Config, pk: Packet): Bytes {
    match cfg.encode(pk)
    case None => []
    case Some(b) => b
  }

  function Take(b: Bytes, n: nat): Bytes { if n <= |b| then b[..n] else b }

  /** The send event the world makes of an attempt to send pk now. */
  function SendEvent(c: Core, pk: Packet): (e: Event)
    ensures e.Sent? && e.packet == pk
    ensures e.written <= |Encoded(c.cfg, pk)|
    ensures e.ok ==> e.written == |Encoded(c.cfg, pk)| && c.cfg.encode(pk).Some?
  {
    match c.cfg.encode(pk)
    case None => Sent(pk, 0, false, c.world.clock(|c.log|))
    case Some(b) =>
      SinglePacket(c.world, |c.log|, b);
      var f := FlushQueue(c.world, |c.log|, 0, [b]);
      Sent(pk, |f.wire|, f.ok, c.world.clock(|c.log|))
  }

  // ---------------------------------------------------------------- steps

  /** The reply that receiving pk makes the engine owe, if any. */
  function ReplyTo(pk: Packet, pubs: map<Pid, Inflight>): Option<Packet> {
    match pk
    case Publish(_, Level1(p), _, _, _, _) => Some(Puback(p))
    case Publish(_, Level2(p), _, _, _, _) => Some(Pubrec(p))
    case Pubrel(p) => Some(Pubcomp(p))
    case Pubrec(p) => if p in pubs then Some(Pubrel(p)) else None
    case _ => None
  }

  function CtxAfterArrival(pk: Packet, pubs: map<Pid, Inflight>): Ctx {
    match ReplyTo(pk, pubs)
    case Some(r) => Owing(r, pk)
    case None =>
      match pk
      case Publish(_, Level0, _, _, _, _) => Delivering(pk)
      case Suback(p, codes) => Confirming(p, codes)
      case _ => Idle
  }

  function SessionAfterArrival(s: Session, pk: Packet): Session {
    match pk
    case Puback(p) => s.(pubs := s.pubs - {p})
    case Pubrec(p) => s.(pubs := s.pubs - {p})
    case Pubcomp(p) => s.(pubs := s.pubs - {p}, rels := s.rels - {p})
    case _ => s
  }

  function AfterArrival(c: Core, pk: Packet, at: Millis): Core {
    c.(lastRecv := at, sess := SessionAfterArrival(c.sess, pk), ctx := CtxAfterArrival(pk, c.sess.pubs))
  }

  function CtxAfterSend(ctx: Ctx, pk: Packet, ok: bool): Ctx {
    match ctx
    case Owing(_, cause) => if ok && cause.Publish? then Delivering(cause) else Idle
    case Resuming(left) =>
      if ok && pk.Publish? && PidOf(pk.qosPid).Some? && left != {PidOf(pk.qosPid).value}
      then Resuming(left - {PidOf(pk.qosPid).value})
      else Idle
    case _ => ctx
  }

  /** A first PUBREL is recorded only once it has been sent. */
  function RelsAfterSend(c: Core, pk: Packet, ok: bool): set<Pid> {
    if ok && c.ctx.Owing? && pk.Pubrel? then c.sess.rels + {pk.pid} else c.sess.rels
  }

  function AfterSend(c: Core, pk: Packet, written: nat, ok: bool, at: Millis): Core {
    c.(wire := c.wire + Take(Encoded(c.cfg, pk), written),
       lastSent := if ok then at else c.lastSent,
       connected := c.connected && !(ok && pk.Disconnect?),
       sess := c.sess.(rels := RelsAfterSend(c, pk, ok)),
       ctx := CtxAfterSend(c.ctx, pk, ok))
  }

  function Bump(m: Inflight, now: Millis): Inflight {
    m.(retryCount := m.retryCount + 1, timestamp := now)
  }

  /** The effect of an event on engine and session, short of logging it. */
  function Effect(c: Core, e: Event): (d: Core)
    ensures d.cfg == c.cfg && d.world == c.world && d.log == c.log
  {
    match e
    case Ticked(now) => c.(now := now)
    case Allocated(_) => c.(sess := c.sess.(nextPid := Succ(c.sess.nextPid)))
    case Stored(p, m) => c.(sess := c.sess.(pubs := c.sess.pubs[p := m]))
    case Sent(pk, written, ok, at) => AfterSend(c, pk, written, ok, at)
    case Greeted(pk, at) => c.(lastRecv := at, connected := pk.Connack? && pk.code == 0)
    case Arrived(pk, at) => AfterArrival(c, pk, at)
    case Dropped(p) => c.(sess := c.sess.(pubs := c.sess.pubs - {p}))
    case Bumped(p, now) =>
      if p in c.sess.pubs then c.(sess := c.sess.(pubs := c.sess.pubs[p := Bump(c.sess.pubs[p], now)])) else c
    case Cleared => c.(sess := Empty(c.sess.capacity))
    case Resumed => c.(ctx := if c.sess.pubs == map[] then Idle else Resuming(c.sess.pubs.Keys))
    case KeepAliveSet(ms) => c.(keepAliveMs := ms)
    case SubAdded(p, f, q) => c.(sess := c.sess.(subs := c.sess.subs[p := SubInfo(f, q, Pending)]))
    case SubConfirmed(p, codes) => c.(sess := ConfirmSub(c.sess, p, codes), ctx := Idle)
    case SubRemoved(p) => if p in c.sess.subs then c.(sess := RemoveSub(c.sess, p)) else c
    case AliasAssigned(topic) => c.(aliases := Aliases.Assign(c.aliases, topic))
    case Delivered(_) => c.(ctx := Idle)
    case _ => c
  }

  /** The effect of an event, logged. */
  function Post(c: Core, e: Event): Core {
    Effect(c, e).(log := c.log + [e])
  }

  /** The next backoff interval. */
  function NextInterval(r: Reconnect, interval: nat): nat {
    if interval == 0 then r.initialMs else Min(r.scale(interval), r.maxMs)
  }

  function PostApp(a: App, cfg: Config, e: Event): App {
    match e
    case StatusSet(st) => a.(status := st)
    case Attempted => a.(attempts := a.attempts + 1, intervalMs := NextInterval(cfg.reconnect, a.intervalMs))
    case AttemptsReset => a.(attempts := 0, intervalMs := 0)
    case Delivered(m) => a.(inbox := Inbox.Push(a.inbox, cfg.maxInflight, m))
    case Popped(_) => a.(inbox := if a.inbox == [] then [] else a.inbox[1..])
    case _ => a
  }

  function Apply(s: State, e: Event): State {
    State(Post(s.core, e), PostApp(s.app, s.core.cfg, e))
  }

  // ---------------------------------------------------------------- when the code takes a step

  predicate LastIs(log: seq<Event>, e: Event) { |log| > 0 && log[|log| - 1] == e }

  /** The call in progress has just allocated p (and possibly given its topic an alias). */
  predicate JustAllocated(log: seq<Event>, p: Pid) {
    || LastIs(log, Allocated(p))
    || (|log| >= 2 && log[|log| - 1].AliasAssigned? && log[|log| - 2] == Allocated(p))
  }

  /** The call in progress. */
  function CallOf(log: seq<Event>): Option<Op>
    decreases |log|
  {
    if log == [] then None
    else if log[|log| - 1].Called? then Some(log[|log| - 1].op)
    else CallOf(log[..|log| - 1])
  }

  /** The topic alias that the call in progress was asked to use. */
  function AskedBy(log: seq<Event>): Option<nat> {
    match CallOf(log)
    case Some(PublishV5Op(asked)) => asked
    case _ => None
  }

  lemma CallStays(log: seq<Event>, e: Event)
    requires !e.Called?
    ensures CallOf(log + [e]) == CallOf(log)
  {
    assert (log + [e])[..|log|] == log;
  }

  /** One CONNECT may go out for each call of connect and for each counted reconnect attempt. */
  predicate MayConnect(log: seq<Event>)
    decreases |log|
  {
    |log| > 0 &&
    match log[|log| - 1]
    case Called(op) => op.ConnectOp?
    case Attempted => true
    case Sent(pk, _, _, _) => !pk.Connect? && MayConnect(log[..|log| - 1])
    case _ => MayConnect(log[..|log| - 1])
  }

  lemma MayConnectStays(log: seq<Event>, e: Event)
    requires !e.Called? && !e.Attempted? && !e.Sent?
    ensures MayConnect(log + [e]) == MayConnect(log)
  {
    assert (log + [e])[..|log|] == log;
  }

  /** A CONNECT has just been answered by a CONNACK with return code 0. */
  predicate JustGreeted(log: seq<Event>) {
    && |log| >= 2
    && log[|log| - 1].Greeted? && log[|log| - 1].packet.Connack? && log[|log| - 1].packet.code == 0
    && log[|log| - 2].Sent? && log[|log| - 2].packet.Connect?
  }

  predicate JustOpened(log: seq<Event>) {
    |log| > 0 && log[|log| - 1] == StatusSet(Connected) && JustGreeted(log[..|log| - 1])
  }

  predicate JustStored(log: seq<Event>) { |log| > 0 && log[|log| - 1].Stored? }

  predicate JustBumped(log: seq<Event>, p: Pid) {
    |log| > 0 && log[|log| - 1].Bumped? && log[|log| - 1].pid == p
  }

  predicate JustArrived(log: seq<Event>) { |log| > 0 && log[|log| - 1].Arrived? }

  predicate JustSentConnect(log: seq<Event>) {
    && |log| > 0
    && var e := log[|log| - 1];
       e.Sent? && e.packet.Connect? && e.ok
  }

  /** May the code send PUBLISH pk in state c? A first send directly follows the storing of its
      message; a duplicate repeats a pending message, because the sweep has just chosen it or
      because a session resume still has to resend it. An alias is that of the table, or, for a topic
      outside the table, the one the caller asked for. */
  predicate MayPublish(c: Core, pk: Packet)
    requires pk.Publish?
  {
    && (pk.alias.Some? ==>
          if pk.topic in c.aliases.given then pk.alias.value == c.aliases.given[pk.topic]
          else pk.alias == AskedBy(c.log))
    && match PidOf(pk.qosPid)
    case None => c.ctx.Idle? && c.connected && !pk.dup && !JustStored(c.log)
    case Some(p) =>
      && c.connected
      && p in c.sess.pubs
      && Carries(pk, p, c.sess.pubs[p])
      && (if pk.dup then
            || (c.ctx.Idle? && JustBumped(c.log, p))
            || (c.ctx.Resuming? && p in c.ctx.left && !JustStored(c.log))
          else
            c.ctx.Idle? && LastIs(c.log, Stored(p, c.sess.pubs[p])))
  }

  predicate MaySend(c: Core, pk: Packet) {
    match pk
    case Connect(clean, seconds) =>
      && c.ctx.Idle? && !c.connected && MayConnect(c.log)
      && clean == c.cfg.cleanSession && seconds == c.cfg.keepAlive
      && LastIs(c.log, KeepAliveSet(c.cfg.keepAlive * 1000))
    case Publish(_, _, _, _, _, _) => MayPublish(c, pk)
    case Puback(_) => c.ctx.Owing? && c.ctx.reply == pk
    case Pubrec(_) => c.ctx.Owing? && c.ctx.reply == pk
    case Pubcomp(_) => c.ctx.Owing? && c.ctx.reply == pk
    case Pubrel(p) =>
      || (c.ctx.Owing? && c.ctx.reply == pk)
      || (c.ctx.Idle? && c.connected && p in c.sess.rels && c.lastSent + PUBREL_GAP_MS < c.now)
    case Subscribe(p, _) => c.ctx.Idle? && c.connected && LastIs(c.log, Allocated(p))
    case Unsubscribe(p, _) => c.ctx.Idle? && c.connected && LastIs(c.log, Allocated(p))
    case Pingreq => c.ctx.Idle? && c.connected
    case Disconnect => c.ctx.Idle? && c.connected
    case _ => false
  }

  /** The sweep's two verdicts on a pending message. */
  predicate IsDue(m: Inflight, now: Millis) {
    Elapsed(now, m.timestamp) >= RETRY_TIMEOUT_MS && m.retryCount < MAX_RETRY_COUNT
  }

  predicate IsSpent(m: Inflight) { m.retryCount >= MAX_RETRY_COUNT }

  predicate GuardCore(c: Core, e: Event) {
    && (JustStored(c.log) ==> e.Sent? && e.packet.Publish? && !e.packet.dup)
    && (e.Sent? || e.SubConfirmed? || e.Delivered? || c.ctx.Idle?)
    && (e.Sent? && JustArrived(c.log) ==> c.ctx.Owing?)
    && match e
       case Ticked(now) => c.connected && now == c.world.clock(|c.log|)
       case Allocated(p) => c.connected && p == c.sess.nextPid
       case Stored(p, m) =>
         && c.connected
         && JustAllocated(c.log, p)
         && m.qos != AtMostOnce
         && m.retryCount == 0
         && m.timestamp == c.world.clock(|c.log|)
       case Sent(pk, _, _, _) => MaySend(c, pk) && e == SendEvent(c, pk)
       case Greeted(pk, at) =>
         && !c.connected && JustSentConnect(c.log)
         && c.world.read(|c.log|) == Some(pk)
         && at == c.world.clock(|c.log|)
       case Arrived(pk, at) =>
         && c.connected
         && c.world.read(|c.log|) == Some(pk)
         && at == c.world.clock(|c.log|)
       case Dropped(p) => c.connected && p in c.sess.pubs && IsSpent(c.sess.pubs[p])
       case Bumped(p, now) => c.connected && p in c.sess.pubs && IsDue(c.sess.pubs[p], now) && now == c.now
       case Resumed => c.connected
       case KeepAliveSet(_) => !c.connected
       case SubAdded(_, _, _) => |c.sess.subs| < c.sess.capacity
       case SubConfirmed(p, codes) => c.ctx == Confirming(p, codes)
       case SubRemoved(p) => p in c.sess.subs
       case AliasAssigned(topic) => topic !in c.aliases.given
       case Delivered(m) => c.ctx.Delivering? && Hands(m, c.ctx.cause) && m.timestamp == c.world.clock(|c.log|)
       case _ => true
  }

  predicate Guard(s: State, e: Event) {
    && GuardCore(s.core, e)
    && match e
       case Stored(_, _) => |s.core.sess.pubs| < s.core.cfg.maxInflight
       case Sent(pk, _, _, _) => pk.Disconnect? ==> s.app.status == Disconnecting
       case Cleared => s.app.status == Connecting
       case StatusSet(st) => st == Connected ==> s.core.connected
       case Attempted =>
         var r := s.core.cfg.reconnect;
         r.enabled && (r.maxAttempts == 0 || s.app.attempts < r.maxAttempts)
       case AttemptsReset => s.app.status == Connected && JustOpened(s.core.log)
       case Popped(m) => m == if s.app.inbox == [] then None else Some(s.app.inbox[0])
       case _ => true
  }

  lemma GuardIsCore(s: State, e: Event)
    requires Guard(s, e)
    ensures GuardCore(s.core, e)
  {
  }

  // ---------------------------------------------------------------- runs

  ghost predicate TakesStep(s: State, e: Event, t: State) { Guard(s, e) && t == Apply(s, e) }

  /** The n-th event of the log was allowed and led from the n-th state to the next one. */
  ghost predicate StepAt(trace: seq<State>, log: seq<Event>, n: nat)
    requires |trace| == |log| + 1 && n < |log|
  {
    TakesStep(trace[n], log[n], trace[n + 1])
  }

  ghost predicate Traces(trace: seq<State>, i: State, log: seq<Event>, s: State) {
    && |trace| == |log| + 1
    && trace[0] == i
    && trace[|log|] == s
    && forall n: nat | n < |log| :: StepAt(trace, log, n)
  }

  function Start(s: State): State { Init(s.core.cfg, s.core.world) }

  /** s is where its own log leads from the initial state, by allowed steps only. */
  ghost predicate Sound(s: State) {
    exists trace :: Traces(trace, Start(s), s.core.log, s)
  }

  function Replay(i: State, log: seq<Event>): State
    decreases |log|
  {
    if log == [] then i else Apply(Replay(i, log[..|log| - 1]), log[|log| - 1])
  }

  /** The state of the run after its first n events. */
  function At(s: State, n: nat): State
    requires n <= |s.core.log|
  {
    Replay(Start(s), s.core.log[..n])
  }

  lemma InitIsSound(cfg: Config, world: World)
    ensures Sound(Init(cfg, world))
  {
    var s := Init(cfg, world);
    assert Traces([s], Start(s), s.core.log, s);
  }

  /** An allowed step leads from a sound state to a sound state. */
  lemma StepIsSound(s: State, e: Event)
    requires Sound(s) && Guard(s, e)
    ensures Sound(Apply(s, e))
  {
    hide Guard;
    var t, log := Apply(s, e), s.core.log;
    var trace: seq<State> :| Traces(trace, Start(s), log, s);
    forall n: nat | n < |log + [e]| ensures StepAt(trace + [t], log + [e], n) {
      if n < |log| {
        assert StepAt(trace, log, n);
      }
    }
    assert Traces(trace + [t], Start(t), t.core.log, t);
  }

  lemma {:induction false} TraceIsReplay(trace: seq<State>, i: State, log: seq<Event>, s: State, n: nat)
    requires Traces(trace, i, log, s) && n <= |log| && i.core.log == []
    ensures trace[n] == Replay(i, log[..n])
    ensures trace[n].core.log == log[..n]
    ensures trace[n].core.cfg == i.core.cfg && trace[n].core.world == i.core.world
    decreases n
  {
    hide Guard, Effect, PostApp, Post, Apply;
    if n > 0 {
      TraceIsReplay(trace, i, log, s, n - 1);
      assert StepAt(trace, log, n - 1);
      assert log[..n][..n - 1] == log[..n - 1];
      ApplyLogs(trace[n - 1], log[n - 1]);
    }
  }

  lemma ApplyLogs(s: State, e: Event)
    ensures var t := Apply(s, e).core;
            t.log == s.core.log + [e] && t.cfg == s.core.cfg && t.world == s.core.world
  {
  }

  lemma PrefixTraces(trace: seq<State>, i: State, log: seq<Event>, s: State, n: nat)
    requires Traces(trace, i, log, s) && n <= |log|
    ensures Traces(trace[..n + 1], i, log[..n], trace[n])
  {
    hide TakesStep;
    var front, short := trace[..n + 1], log[..n];
    forall k: nat | k < n ensures StepAt(front, short, k) {
      assert StepAt(trace, log, k);
    }
  }

  /** Every prefix of a sound run is sound, and each of its events was allowed when taken. */
  lemma AtIsSound(s: State, n: nat)
    requires Sound(s) && n <= |s.core.log|
    ensures Sound(At(s, n)) && At(s, n).core.log == s.core.log[..n]
    ensures At(s, n).core.cfg == s.core.cfg && At(s, n).core.world == s.core.world
    ensures n == |s.core.log| ==> At(s, n) == s
    ensures n < |s.core.log| ==> Guard(At(s, n), s.core.log[n]) && At(s, n + 1) == Apply(At(s, n), s.core.log[n])
  {
    hide Guard;
    var i, log := Start(s), s.core.log;
    var trace: seq<State> :| Traces(trace, i, log, s);
    TraceIsReplay(trace, i, log, s, n);
    PrefixTraces(trace, i, log, s, n);
    assert Traces(trace[..n + 1], Start(trace[n]), trace[n].core.log, trace[n]);
    if n < |log| {
      TraceIsReplay(trace, i, log, s, n + 1);
      assert StepAt(trace, log, n);
    }
  }

  /** The state before the last event: sound, one allowed step behind. */
  function Before(s: State): State
    requires |s.core.log| > 0
  {
    At(s, |s.core.log| - 1)
  }

  function Last(s: State): Event
    requires |s.core.log| > 0
  {
    s.core.log[|s.core.log| - 1]
  }

  lemma BeforeIsSound(s: State)
    requires Sound(s) && |s.core.log| > 0
    ensures Sound(Before(s)) && Guard(Before(s), Last(s)) && s == Apply(Before(s), Last(s))
    ensures Before(s).core.log == s.core.log[..|s.core.log| - 1]
    ensures s.core.log == Before(s).core.log + [Last(s)]
  {
    hide Guard, Apply;
    var n := |s.core.log|;
    AtIsSound(s, n - 1);
    AtIsSound(s, n);
  }
}
