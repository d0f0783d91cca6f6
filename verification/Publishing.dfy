/** What a publish does to the session and to the wire, on the plain and on the version 5 path. */
module Publishing {
  import opened Mqtt
  import opened PacketIds
  import opened SessionModel
  import opened Machine
  import opened Control
  import opened Conformance
  import Aliases
  import Grammar
  import E = EngineModel
  import C = ClientModel

  predicate Accepts(s: State) { s.app.status == Connected && |s.core.sess.pubs| < s.core.cfg.maxInflight }

  predicate SameContent(m: Inflight, topic: Topic, qos: QoS, retain: bool, payload: Bytes) {
    m.topic == topic && m.qos == qos && m.retain == retain && m.payload == payload
  }

  /** From c to d there was one attempt to send, as the last event: the given content without DUP, under
      p unless it is QoS 0, and with the given topic alias. */
  predicate SendsOnce(c: Core, d: Core, p: Pid, topic: Topic, qos: QoS, retain: bool, payload: Bytes,
                      alias: Option<nat>, ok: bool)
  {
    && c.log <= d.log && |c.log| < |d.log|
    && (forall k :: |c.log| <= k < |d.log| - 1 ==> !d.log[k].Sent?)
    && var e := d.log[|d.log| - 1];
       && e.Sent? && e.ok == ok && e.packet.Publish? && !e.packet.dup
       && e.packet.topic == topic && e.packet.retain == retain && e.packet.payload == payload
       && Qos(e.packet.qosPid) == qos
       && PidOf(e.packet.qosPid) == (if qos == AtMostOnce then None else Some(p))
       && e.packet.alias == alias
  }

  /** c became d by storing m under the next id; nothing else in the session changed. */
  predicate StoresNext(c: Core, d: Core, topic: Topic, qos: QoS, retain: bool, payload: Bytes) {
    var p := c.sess.nextPid;
    && p in d.sess.pubs
    && SameContent(d.sess.pubs[p], topic, qos, retain, payload)
    && d.sess.pubs[p].retryCount == 0
    && d.sess == c.sess.(nextPid := Succ(p), pubs := c.sess.pubs[p := d.sess.pubs[p]])
  }

  /** The whole contract of a publish call that sends with the given alias and leaves the given table. */
  predicate Publishes(s: State, o: C.Outcome<()>, topic: Topic, qos: QoS, retain: bool, payload: Bytes,
                      alias: Option<nat>, table: Aliases.Table)
  {
    var c, d := s.core, o.s.core;
    && o.s.app == s.app
    && if !Accepts(s) then
         && o.r.Err?
         && Grammar.SendsNothing(c, d)
         && d.sess == c.sess && d.wire == c.wire && d.aliases == c.aliases
       else
         && SendsOnce(c, d, c.sess.nextPid, topic, qos, retain, payload, alias, o.r.Ok?)
         && d.aliases == table
         && if qos == AtMostOnce then d.sess == c.sess else StoresNext(c, d, topic, qos, retain, payload)
  }

  lemma SendingKeepsSession(c: Core, pk: Packet)
    requires c.ctx.Idle? && pk.Publish?
    ensures var st := E.SendPacket(c, pk);
            && st.c.sess == c.sess && st.c.aliases == c.aliases
            && st.c.log == c.log + [SendEvent(c, pk)]
            && (SendEvent(c, pk).ok <==> st.r.Ok?)
  {
    hide SendEvent;
  }

  lemma CalledChangesNothing(s: State, op: Op)
    ensures var t := Apply(s, Called(op)); t.core == s.core.(log := t.core.log) && t.app == s.app
  {
  }

  /** What Publishes says of a call that is not refused, from the core that the call starts with. */
  predicate Carried(c: Core, st: E.Step<()>, topic: Topic, qos: QoS, retain: bool, payload: Bytes,
                    alias: Option<nat>, table: Aliases.Table)
  {
    && SendsOnce(c, st.c, c.sess.nextPid, topic, qos, retain, payload, alias, st.r.Ok?)
    && st.c.aliases == table
    && if qos == AtMostOnce then st.c.sess == c.sess else StoresNext(c, st.c, topic, qos, retain, payload)
  }

  /** Logging the call first makes no difference. */
  lemma CarriedFromCall(s: State, op: Op, st: E.Step<()>, topic: Topic, qos: QoS, retain: bool, payload: Bytes,
                        alias: Option<nat>, table: Aliases.Table)
    requires Carried(Apply(s, Called(op)).core, st, topic, qos, retain, payload, alias, table)
    ensures Carried(s.core, st, topic, qos, retain, payload, alias, table)
  {
    CalledChangesNothing(s, op);
    var c := Apply(s, Called(op)).core;
    assert c.log == s.core.log + [Called(op)];
    hide Apply;
  }

  lemma EngineCarries(c: Core, topic: Topic, qos: QoS, retain: bool, payload: Bytes)
    requires c.ctx.Idle? && c.connected
    ensures var st := E.Publish(c, topic, qos, retain, payload);
            Carried(c, E.Step(st.c, if st.r.Ok? then Ok(()) else Err(st.r.error)), topic, qos, retain, payload, None, c.aliases)
  {
    hide SendEvent, E.SendPacket, AfterSend, AfterArrival;
    if qos == AtMostOnce {
      SendingKeepsSession(c, CreatePublish(topic, qos, retain, payload, None, false).value);
    } else {
      var p := c.sess.nextPid;
      var c1 := Post(c, Allocated(p));
      var c2 := Post(c1, Stored(p, E.Stamp(c1, topic, qos, retain, payload)));
      SendingKeepsSession(c2, CreatePublish(topic, qos, retain, payload, Some(p), false).value);
    }
  }

  /** Unless the client is Connected and below its in-flight limit, a publish fails without a trace in
      session, alias table or on the wire. Otherwise its content goes out once and nothing else does,
      without DUP and without an alias, and for QoS 1 and 2 it is stored under the next id, whether or
      not the send succeeds; a failed send is reported although the message stays pending. */
  lemma PublishStoresAndSends(s: State, topic: Topic, qos: QoS, retain: bool, payload: Bytes)
    requires Ready(s)
    ensures Publishes(s, C.Publish(s, topic, qos, retain, payload), topic, qos, retain, payload, None, s.core.aliases)
  {
    hide E.Publish, Carried, StoresNext, SendsOnce, Sound;
    ControlHolds(s);
    CalledChangesNothing(s, PublishOp);
    if Accepts(s) {
      var c := Apply(s, Called(PublishOp)).core;
      var st := E.Publish(c, topic, qos, retain, payload);
      var done := E.Step(st.c, if st.r.Ok? then Ok(()) else Err(st.r.error));
      EngineCarries(c, topic, qos, retain, payload);
      CarriedFromCall(s, PublishOp, done, topic, qos, retain, payload, None, s.core.aliases);
      CarriedMeans(s.core, done, topic, qos, retain, payload, None, s.core.aliases);
    }
  }

  lemma CarriedMeans(c: Core, st: E.Step<()>, topic: Topic, qos: QoS, retain: bool, payload: Bytes,
                     alias: Option<nat>, table: Aliases.Table)
    requires Carried(c, st, topic, qos, retain, payload, alias, table)
    ensures SendsOnce(c, st.c, c.sess.nextPid, topic, qos, retain, payload, alias, st.r.Ok?)
    ensures st.c.aliases == table
    ensures if qos == AtMostOnce then st.c.sess == c.sess else StoresNext(c, st.c, topic, qos, retain, payload)
  {
  }

  lemma AliasingKeepsSession(c: Core, topic: Topic, asked: Option<nat>)
    ensures var d := E.AssignAlias(c, topic, asked);
            && d.sess == c.sess && d.ctx == c.ctx
            && d.aliases == (if Aliases.Assigns(c.aliases, topic, asked) then Aliases.Assign(c.aliases, topic) else c.aliases)
            && (d.log == c.log || d.log == c.log + [AliasAssigned(topic)])
  {
  }

  lemma AliasedCarries(c: Core, topic: Topic, qos: QoS, retain: bool, payload: Bytes, asked: Option<nat>)
    requires c.ctx.Idle?
    ensures Carried(c, C.PublishAliased(c, topic, qos, retain, payload, asked), topic, qos, retain, payload,
                    Some(Aliases.Chosen(c.aliases, topic, asked)),
                    if Aliases.Assigns(c.aliases, topic, asked) then Aliases.Assign(c.aliases, topic) else c.aliases)
  {
    hide SendEvent, E.SendPacket, E.AssignAlias, AfterSend, AfterArrival, Aliases.Chosen, Aliases.Assign, Aliases.Assigns;
    var p := c.sess.nextPid;
    var pid := if qos == AtMostOnce then None else Some(p);
    var c1 := if qos == AtMostOnce then c else Post(c, Allocated(p));
    var pk := CreatePublish(topic, qos, retain, payload, pid, false).value;
    AliasingKeepsSession(c1, topic, asked);
    var c2 := E.AssignAlias(c1, topic, asked);
    var c3 := if qos == AtMostOnce then c2 else Post(c2, Stored(p, E.Stamp(c2, topic, qos, retain, payload)));
    SendingKeepsSession(c3, pk.(alias := Some(Aliases.Chosen(c.aliases, topic, asked))));
  }

  /** The version 5 path keeps the same contract, although it bypasses the engine's publish. Its packet
      carries the alias of the table, else the one asked for, else the next one, which the topic then
      keeps in the table. */
  lemma PublishV5StoresAndSends(s: State, topic: Topic, qos: QoS, retain: bool, payload: Bytes, asked: Option<nat>)
    requires Ready(s)
    ensures var t := s.core.aliases;
            Publishes(s, C.PublishV5(s, topic, qos, retain, payload, asked), topic, qos, retain, payload,
                      Some(Aliases.Chosen(t, topic, asked)),
                      if Aliases.Assigns(t, topic, asked) then Aliases.Assign(t, topic) else t)
  {
    hide C.PublishAliased, Carried, StoresNext, SendsOnce, Sound, Aliases.Chosen, Aliases.Assign, Aliases.Assigns;
    CalledChangesNothing(s, PublishV5Op(asked));
    if Accepts(s) {
      var c, t := Apply(s, Called(PublishV5Op(asked))).core, s.core.aliases;
      var table := if Aliases.Assigns(t, topic, asked) then Aliases.Assign(t, topic) else t;
      var st := C.PublishAliased(c, topic, qos, retain, payload, asked);
      AliasedCarries(c, topic, qos, retain, payload, asked);
      CarriedFromCall(s, PublishV5Op(asked), st, topic, qos, retain, payload, Some(Aliases.Chosen(t, topic, asked)), table);
      CarriedMeans(s.core, st, topic, qos, retain, payload, Some(Aliases.Chosen(t, topic, asked)), table);
    }
  }
}
