/** What subscribe and unsubscribe do: the one packet they send, and the entries they add and remove. */
module Subscribing {
  import opened Mqtt
  import opened PacketIds
  import opened SessionModel
  import opened Machine
  import opened Control
  import opened Conformance
  import opened Connecting
  import opened Subscriptions
  import Grammar
  import E = EngineModel
  import C = ClientModel

  // ---------------------------------------------------------------- subscribe

  lemma EngineSubscribes(c: Core, wanted: seq<(Filter, QoS)>)
    requires c.connected && c.ctx.Idle? && wanted != []
    ensures var st, p := E.Subscribe(c, wanted), c.sess.nextPid;
            && st.c.log == c.log + [Allocated(p), SendEvent(Post(c, Allocated(p)), Packet.Subscribe(p, wanted))]
            && st.c.sess == c.sess.(nextPid := Succ(p)) && st.c.cfg == c.cfg
            && st.r == if st.c.log[|c.log| + 1].ok then Ok(p) else Err(SendError(c.cfg, Packet.Subscribe(p, wanted)))
  {
    hide SendEvent;
  }

  /** The call has sent pk, after allocating the next id, as its only packet. */
  predicate SendsUnderNext(s: State, d: Core, pk: Packet) {
    var n := |s.core.log|;
    OnlySend(s.core, d, n + 2) && d.log[n + 2].packet == pk && d.log[n + 1] == Allocated(s.core.sess.nextPid)
  }

  /** A subscribe call. Unless the client is Connected and filters are given it changes nothing. Otherwise it
      sends one SUBSCRIBE, with exactly the given filters under the next id. If that fails, the id is spent
      and nothing is stored; if it succeeds, what is stored, and whether the call succeeds, is as
      OnlyLastFilterIsStored says. */
  lemma SubscribeStores(s: State, wanted: seq<(Filter, QoS)>)
    requires Ready(s)
    ensures var o, p, pk := C.Subscribe(s, wanted), s.core.sess.nextPid, Packet.Subscribe(s.core.sess.nextPid, wanted);
            var after := s.core.sess.(nextPid := Succ(p));
            && o.s.app == s.app
            && if s.app.status != Connected || wanted == [] then
                 && o.r == (if s.app.status != Connected then Err(InvalidState) else Ok(()))
                 && Grammar.SendsNothing(s.core, o.s.core) && o.s.core.sess == s.core.sess
               else
                 && SendsUnderNext(s, o.s.core, pk)
                 && if !o.s.core.log[|s.core.log| + 2].ok then
                      o.r == Err(SendError(s.core.cfg, pk)) && o.s.core.sess == after
                    else if HasRoom(s.core.sess, p, wanted) then
                      o.r == Ok(()) && o.s.core.sess == after.(subs := after.subs[p := Wanted(wanted[|wanted| - 1])])
                    else
                      && o.r == Err(Internal)
                      && o.s.core.sess == if |after.subs| < after.capacity then after.(subs := after.subs[p := Wanted(wanted[0])])
                                          else after
  {
    hide SendEvent, Ready, E.Subscribe, C.AddAll;
    if s.app.status == Connected && wanted != [] {
      ReadyConnected(s);
      ReadyCanBuild(s);
      var c := Apply(s, Called(SubscribeOp)).core;
      EngineSubscribes(c, wanted);
      OnlyLastFilterIsStored(E.Subscribe(c, wanted).c, c.sess.nextPid, wanted);
    }
  }

  // ---------------------------------------------------------------- unsubscribe

  /** The ids whose entry has the given filter. */
  function Entries(subs: map<Pid, SubInfo>, f: Filter): set<Pid> { set p | p in subs && subs[p].filter == f }

  /** From s to t as many entries of each filter are gone as it occurs in filters, or all there were; no
      other entry has changed; and the filters that had an entry are out of the index. */
  ghost predicate Removes(s: Session, t: Session, filters: seq<Filter>) {
    && t == s.(subs := t.subs, active := t.active)
    && (forall p :: p in t.subs ==> p in s.subs && t.subs[p] == s.subs[p])
    && (forall f :: |Entries(t.subs, f)| == Max(0, |Entries(s.subs, f)| - multiset(filters)[f]))
    && (forall f :: f in t.active <==> f in s.active && !(f in filters && Entries(s.subs, f) != {}))
  }

  function Max(a: int, b: int): int { if a >= b then a else b }

  lemma OneRemoved(s: Session, p: Pid)
    requires p in s.subs
    ensures var t := RemoveSub(s, p);
            && Entries(t.subs, s.subs[p].filter) == Entries(s.subs, s.subs[p].filter) - {p}
            && p in Entries(s.subs, s.subs[p].filter)
            && forall f :: f != s.subs[p].filter ==> Entries(t.subs, f) == Entries(s.subs, f)
  {
  }

  lemma RemovesOneMore(s: Session, p: Pid, t: Session, filters: seq<Filter>)
    requires filters != [] && p in s.subs && s.subs[p].filter == filters[0] && Removes(RemoveSub(s, p), t, filters[1..])
    ensures Removes(s, t, filters)
  {
    hide Entries;
    OneRemoved(s, p);
    assert filters == [filters[0]] + filters[1..];
    assert forall f :: multiset(filters)[f] == multiset(filters[1..])[f] + if f == filters[0] then 1 else 0;
    assert forall f :: f in filters <==> f == filters[0] || f in filters[1..];
  }

  lemma RemovesNoneMore(s: Session, t: Session, filters: seq<Filter>)
    requires filters != [] && Entries(s.subs, filters[0]) == {} && Removes(s, t, filters[1..])
    ensures Removes(s, t, filters)
  {
    hide Entries;
    assert filters == [filters[0]] + filters[1..];
    assert forall f :: multiset(filters)[f] == multiset(filters[1..])[f] + if f == filters[0] then 1 else 0;
    assert forall f :: f in filters <==> f == filters[0] || f in filters[1..];
  }

  lemma RemovesNothing(s: Session)
    ensures Removes(s, s, [])
  {
  }

  lemma {:induction false} RemoveAllRemoves(c: Core, filters: seq<Filter>)
    ensures var d := C.RemoveAll(c, filters);
            && Removes(c.sess, d.sess, filters)
            && c.log <= d.log && forall k :: |c.log| <= k < |d.log| ==> d.log[k].SubRemoved?
    decreases |filters|
  {
    hide Removes, Effect;
    if filters == [] {
      RemovesNothing(c.sess);
    } else {
      var order := Enumerate(c.world.order(|c.log|), c.sess.subs.Keys);
      match FindSub(c.sess.subs, filters[0], order)
      case None =>
        assert Entries(c.sess.subs, filters[0]) == {};
        RemoveAllRemoves(c, filters[1..]);
        RemovesNoneMore(c.sess, C.RemoveAll(c, filters[1..]).sess, filters);
      case Some(p) =>
        var d := Post(c, SubRemoved(p));
        RemovingOne(c, p);
        RemoveAllRemoves(d, filters[1..]);
        RemovesOneMore(c.sess, p, C.RemoveAll(d, filters[1..]).sess, filters);
    }
  }

  lemma RemovingOne(c: Core, p: Pid)
    requires p in c.sess.subs
    ensures Post(c, SubRemoved(p)).sess == RemoveSub(c.sess, p)
  {
  }

  lemma EngineUnsubscribes(c: Core, filters: seq<Filter>)
    requires c.connected && c.ctx.Idle? && filters != []
    ensures var st, p := E.Unsubscribe(c, filters), c.sess.nextPid;
            && st.c.log == c.log + [Allocated(p), SendEvent(Post(c, Allocated(p)), Packet.Unsubscribe(p, filters))]
            && st.c.sess == c.sess.(nextPid := Succ(p)) && st.c.cfg == c.cfg
            && st.r == if st.c.log[|c.log| + 1].ok then Ok(p) else Err(SendError(c.cfg, Packet.Unsubscribe(p, filters)))
  {
    hide SendEvent;
  }

  /** An unsubscribe call. Unless the client is Connected and filters are given it changes nothing. Otherwise
      it sends one UNSUBSCRIBE, with exactly the given filters under the next id. If that fails, only the id
      is spent; if it succeeds, so does the call, and entries are removed as Removes says, without
      waiting for the UNSUBACK. */
  lemma UnsubscribeRemoves(s: State, filters: seq<Filter>)
    requires Ready(s)
    ensures var o, p, pk := C.Unsubscribe(s, filters), s.core.sess.nextPid, Packet.Unsubscribe(s.core.sess.nextPid, filters);
            var after := s.core.sess.(nextPid := Succ(p));
            && o.s.app == s.app
            && if s.app.status != Connected || filters == [] then
                 && o.r == (if s.app.status != Connected then Err(InvalidState) else Ok(()))
                 && Grammar.SendsNothing(s.core, o.s.core) && o.s.core.sess == s.core.sess
               else
                 && SendsUnderNext(s, o.s.core, pk)
                 && if o.s.core.log[|s.core.log| + 2].ok then o.r == Ok(()) && Removes(after, o.s.core.sess, filters)
                    else o.r == Err(SendError(s.core.cfg, pk)) && o.s.core.sess == after
  {
    hide SendEvent, Ready, E.Unsubscribe, C.RemoveAll, Removes;
    if s.app.status == Connected && filters != [] {
      ReadyConnected(s);
      ReadyCanBuild(s);
      var c := Apply(s, Called(UnsubscribeOp)).core;
      EngineUnsubscribes(c, filters);
      RemoveAllRemoves(E.Unsubscribe(c, filters).c, filters);
    }
  }

  // ---------------------------------------------------------------- ping and next_message

  /** A ping call sends one PINGREQ in a Connected client and nothing in any other. */
  lemma PingPings(s: State)
    requires Ready(s)
    ensures var o, n := C.Ping(s), |s.core.log|;
            && o.s.app == s.app && o.s.core.sess == s.core.sess
            && if s.app.status != Connected then o.r == Err(InvalidState) && Grammar.SendsNothing(s.core, o.s.core)
               else
                 && OnlySend(s.core, o.s.core, n + 1) && o.s.core.log[n + 1].packet == Pingreq
                 && o.r == if o.s.core.log[n + 1].ok then Ok(()) else Err(SendError(s.core.cfg, Pingreq))
  {
    hide SendEvent, Ready;
    if s.app.status == Connected {
      ReadyConnected(s);
      ReadyCanBuild(s);
    }
  }

  /** next_message hands out the oldest message of the queue and takes it out, or hands out nothing; what it
      hands out is what the log says was popped. */
  lemma NextMessageIsOldest(s: State)
    ensures var o := C.NextMessage(s);
            && o.r.Ok?
            && s.app.inbox == (if o.r.value.Some? then [o.r.value.value] else []) + o.s.app.inbox
            && (o.r.value.None? <==> s.app.inbox == [])
            && o.s.app.status == s.app.status && o.s.core.sess == s.core.sess
            && |o.s.core.log| == |s.core.log| + 2 && Last(o.s) == Popped(o.r.value)
            && Grammar.SendsNothing(s.core, o.s.core)
  {
  }
}
