/** The window hypothesis is no formality: from any connected state an ordinary run leads to an id that
    is handed out again while its first message is still pending, and the next publish destroys it. */
module IdReuse {
  import opened Mqtt
  import opened PacketIds
  import opened Wire
  import opened SessionModel
  import opened Machine
  import opened Control
  import opened Conformance
  import opened Publishing
  import AtLeastOnce
  import E = EngineModel
  import C = ClientModel

  lemma {:induction false} RemovingKeepsPending(c: Core, filters: seq<Filter>)
    ensures var d := C.RemoveAll(c, filters);
            d.sess.pubs == c.sess.pubs && d.sess.nextPid == c.sess.nextPid && d.cfg.maxInflight == c.cfg.maxInflight
    decreases |filters|
  {
    hide SendEvent;
    if filters != [] {
      match FindSub(c.sess.subs, filters[0], Enumerate(c.world.order(|c.log|), c.sess.subs.Keys))
      case None => RemovingKeepsPending(c, filters[1..]);
      case Some(p) => RemovingKeepsPending(Post(c, SubRemoved(p)), filters[1..]);
    }
  }

  lemma EngineUnsubscribeAllocates(c: Core, filters: seq<Filter>)
    requires c.connected && c.ctx.Idle?
    ensures var d := E.Unsubscribe(c, filters).c;
            && d.sess.pubs == c.sess.pubs && d.sess.nextPid == Succ(c.sess.nextPid)
            && d.cfg.maxInflight == c.cfg.maxInflight
  {
    hide SendEvent;
  }

  /** An unsubscribe uses up one id and touches nothing pending, whether or not it can be sent. */
  lemma UnsubscribeAllocates(s: State, filter: Filter)
    requires Ready(s) && s.app.status == Connected
    ensures var t := Perform(s, DoUnsubscribe([filter]));
            && Ready(t) && t.app == s.app
            && t.core.cfg.maxInflight == s.core.cfg.maxInflight
            && t.core.sess.pubs == s.core.sess.pubs
            && t.core.sess.nextPid == Succ(s.core.sess.nextPid)
  {
    hide E.Unsubscribe, C.RemoveAll, Sound;
    ControlHolds(s);
    UnsubscribeConforms(s, [filter]);
    CalledChangesNothing(s, UnsubscribeOp);
    var c := Apply(s, Called(UnsubscribeOp)).core;
    EngineUnsubscribeAllocates(c, [filter]);
    RemovingKeepsPending(E.Unsubscribe(c, [filter]).c, [filter]);
  }

  function Unsubscribes(n: nat, filter: Filter): seq<Request> { seq(n, i => DoUnsubscribe([filter])) }

  lemma {:induction false} ManyUnsubscribes(s: State, filter: Filter, n: nat, k: nat)
    requires Ready(s) && s.app.status == Connected && s.core.sess.nextPid == Nth(k)
    ensures var t := PerformAll(s, Unsubscribes(n, filter));
            && Ready(t) && t.app == s.app
            && t.core.cfg.maxInflight == s.core.cfg.maxInflight
            && t.core.sess.pubs == s.core.sess.pubs
            && t.core.sess.nextPid == Nth(k + n)
    decreases n
  {
    hide Perform, Ready;
    if n > 0 {
      ManyUnsubscribes(s, filter, n - 1, k);
      assert Unsubscribes(n, filter)[..n - 1] == Unsubscribes(n - 1, filter);
      UnsubscribeAllocates(PerformAll(s, Unsubscribes(n - 1, filter)), filter);
      NthStep(k + n - 1);
    }
  }

  /** The run: one publish, then as many unsubscribes as it takes for the allocator to come around. */
  function Around(s: State, topic: Topic, qos: QoS, retain: bool, payload: Bytes, filter: Filter): State {
    PerformAll(Perform(s, DoPublish(topic, qos, retain, payload)), Unsubscribes(MAX_PID - 1, filter))
  }

  lemma PublishKeepsReady(s: State, topic: Topic, qos: QoS, retain: bool, payload: Bytes)
    requires Ready(s)
    ensures var t := Perform(s, DoPublish(topic, qos, retain, payload));
            Ready(t) && t.core.cfg.maxInflight == s.core.cfg.maxInflight
  {
    hide SendEvent;
    PublishConforms(s, topic, qos, retain, payload);
  }

  lemma OnceAround(p: Pid)
    ensures Succ(p) == Nth(p) && Nth(p + (MAX_PID - 1)) == p
  {
    NthStep(p - 1);
    SameIdIff(p - 1, p + (MAX_PID - 1));
  }

  /** From every connected state below its in-flight limit, in every world: after one QoS 1 or QoS 2
      publish and 65534 unsubscribes, the client is connected, the message is still pending, and the next
      id is its id. */
  lemma IdComesAround(s: State, topic: Topic, qos: QoS, retain: bool, payload: Bytes, filter: Filter)
    requires Ready(s) && Accepts(s) && qos != AtMostOnce
    ensures var t, p := Around(s, topic, qos, retain, payload, filter), s.core.sess.nextPid;
            && Ready(t) && t.app == s.app && t.core.cfg.maxInflight == s.core.cfg.maxInflight
            && t.core.sess.nextPid == p
            && p in t.core.sess.pubs && SameContent(t.core.sess.pubs[p], topic, qos, retain, payload)
            && t.core.sess.pubs.Keys == s.core.sess.pubs.Keys + {p}
  {
    hide Ready, C.Publish, PerformAll, Unsubscribes, Nth, Succ;
    var p := s.core.sess.nextPid;
    PublishStoresAndSends(s, topic, qos, retain, payload);
    PublishKeepsReady(s, topic, qos, retain, payload);
    OnceAround(p);
    ManyUnsubscribes(Perform(s, DoPublish(topic, qos, retain, payload)), filter, MAX_PID - 1, p);
  }

  /** One more publish then stores another message under that id: the first one is gone from the session
      though it was never acknowledged, dropped or cleared, and the call may well report success. */
  lemma NextPublishOverwrites(s: State, topic: Topic, qos: QoS, retain: bool, payload: Bytes, filter: Filter, other: Topic)
    requires Ready(s) && Accepts(s) && qos != AtMostOnce
    requires |s.core.sess.pubs| + 1 < s.core.cfg.maxInflight
    ensures var t, p := Around(s, topic, qos, retain, payload, filter), s.core.sess.nextPid;
            var u := Perform(t, DoPublish(other, qos, retain, payload));
            && p in t.core.sess.pubs && t.core.sess.pubs[p].topic == topic
            && p in u.core.sess.pubs && u.core.sess.pubs[p].topic == other
            && u.core.sess.pubs.Keys == t.core.sess.pubs.Keys
  {
    hide Ready, C.Publish, Around;
    var t, p := Around(s, topic, qos, retain, payload, filter), s.core.sess.nextPid;
    IdComesAround(s, topic, qos, retain, payload, filter);
    OneMoreKey(s.core.sess.pubs, t.core.sess.pubs, p);
    PublishStoresAndSends(t, other, qos, retain, payload);
    assert t.core.sess.pubs.Keys + {p} == t.core.sess.pubs.Keys;
  }

  lemma OneMoreKey(a: map<Pid, Inflight>, b: map<Pid, Inflight>, p: Pid)
    requires b.Keys == a.Keys + {p}
    ensures |b| <= |a| + 1
  {
    assert |b| == |b.Keys| && |a| == |a.Keys|;
  }

  // ---------------------------------------------------------------- a connected state exists

  /** A transport that takes every byte and a server that accepts the connection. */
  ghost predicate Obliging(c: Core) {
    && (forall pk :: c.cfg.encode(pk).Some?)
    && (forall k: nat, j: nat :: c.world.write(k, j).Some? && c.world.write(k, j).value > 0)
    && (forall k: nat :: c.world.flush(k))
    && (forall k: nat :: c.world.read(k) == Some(Connack(false, 0)))
  }

  lemma ObligingSends(c: Core, pk: Packet)
    requires Obliging(c)
    ensures SendEvent(c, pk).ok
  {
    var b := c.cfg.encode(pk).value;
    AtLeastOnce.AllWritten(c.world, |c.log|, 0, |b|, 0);
    FlushSteps(c.world, |c.log|, 0, [b]);
    FlushSteps(c.world, |c.log|, WriteAll(c.world, |c.log|, 0, |b|, 0).calls, []);
    assert [b][1..] == [];
  }

  lemma EngineConnectSucceeds(c: Core)
    requires Obliging(c) && !c.connected && c.ctx.Idle?
    ensures var st := E.Connect(c);
            st.r == Ok(false) && st.c.connected && st.c.sess == c.sess && st.c.cfg == c.cfg
  {
    hide SendEvent;
    var c1 := Post(c, KeepAliveSet(c.cfg.keepAlive * 1000));
    ObligingSends(c1, Packet.Connect(c.cfg.cleanSession, c.cfg.keepAlive));
  }

  /** Where that is so, connecting succeeds from the initial state, which gives the two lemmas above
      their start. */
  lemma FirstConnectSucceeds(s: State)
    requires Obliging(s.core) && s == Start(s) && Validates(s.core.cfg)
    ensures var t := Perform(s, DoConnect);
            Ready(t) && Accepts(t) && t.core.sess.pubs == map[] && t.core.sess.nextPid == FIRST_PID
  {
    hide SendEvent, Sound, E.ResendPending, E.Connect, Obliging, C.Connect;
    InitIsSound(s.core.cfg, s.core.world);
    ConnectConforms(s);
    FirstConnectOpens(s);
  }

  lemma OpeningFirst(s: State)
    requires Obliging(s.core) && s == Start(s)
    ensures var c := C.Opening(Apply(s, Called(ConnectOp))).core;
            && Obliging(c) && !c.connected && c.ctx.Idle? && c.cfg == s.core.cfg
            && c.sess.pubs == map[] && c.sess.nextPid == FIRST_PID
  {
  }

  lemma FirstConnectOpens(s: State)
    requires Obliging(s.core) && s == Start(s) && Validates(s.core.cfg)
    ensures var t := C.Connect(s).s;
            Accepts(t) && t.core.sess.pubs == map[] && t.core.sess.nextPid == FIRST_PID
  {
    hide SendEvent, Sound, E.ResendPending, E.Connect, Obliging, C.Opening, Validates;
    OpeningFirst(s);
    EngineConnectSucceeds(C.Opening(Apply(s, Called(ConnectOp))).core);
    ValidMeansRoom(s.core.cfg);
  }

  lemma ValidMeansRoom(cfg: Config)
    requires Validates(cfg)
    ensures cfg.maxInflight > 0
  {
  }

  lemma ObligingExists()
    ensures exists s: State :: Obliging(s.core) && s == Start(s) && Validates(s.core.cfg)
  {
    var w := World(k => 0, k => Some(Connack(false, 0)), (k, j) => Some(1), k => true, k => true, k => true, k => []);
    var cfg := Config(V3, pk => Some([0]), "c", 60, false, None, 1024, 10, 10, 5000, Reconnect(false, 0, 0, 0, x => x));
    var s := Init(cfg, w);
    assert Obliging(s.core) && s == Start(s) && Validates(s.core.cfg);
  }
}
