/** When packets may be sent at all, what reaches the wire, and why an automatic reconnect fails. */
module Grammar {
  import opened Mqtt
  import opened SessionModel
  import opened Machine
  import opened Control
  import opened Conformance
  import opened Ledger
  import C = ClientModel
  import E = EngineModel

  // ---------------------------------------------------------------- session grammar

  /** CONNECT is sent only while the account of the log has the client offline, and every other
      packet only while it has it online, on every path, including those that bypass the engine's
      own connection check. */
  lemma PacketsKeepTheGrammar(s: State, j: nat)
    requires Sound(s) && j < |s.core.log| && s.core.log[j].Sent?
    ensures s.core.log[j].packet.Connect? <==> !Books(s.core.log[..j]).online
  {
    AtIsSound(s, j);
    BooksAgree(At(s, j));
    ControlHolds(At(s, j));
    SendingNeedsOnline(At(s, j).core, s.core.log[j]);
  }

  lemma SendingNeedsOnline(c: Core, e: Event)
    requires CtxOk(c) && GuardCore(c, e) && e.Sent?
    ensures e.packet.Connect? <==> !c.connected
  {
    hide SendEvent;
  }

  /** The client reports Connected only while the engine is connected. */
  lemma ConnectedMeansConnected(s: State)
    requires Sound(s) && s.app.status == Connected
    ensures s.core.connected && Books(s.core.log).online
  {
    ControlHolds(s);
    BooksAgree(s);
  }

  lemma OfflineStep(c: Core, e: Event)
    requires GuardCore(c, e) && !c.connected && !e.Sent? && !JustSentConnect(c.log)
    ensures !Post(c, e).connected
  {
  }

  lemma {:induction false} StaysOffline(s: State, i: nat, k: nat)
    requires Sound(s) && i < k <= |s.core.log|
    requires s.core.log[i].Sent? && s.core.log[i].packet.Disconnect? && s.core.log[i].ok
    requires forall n :: i < n < k ==> !s.core.log[n].Sent?
    ensures !At(s, k).core.connected
    decreases k
  {
    hide At, Effect, GuardCore;
    AtIsSound(s, k - 1);
    GuardIsCore(At(s, k - 1), s.core.log[k - 1]);
    if k == i + 1 {
      DisconnectEnds(At(s, i).core, s.core.log[i]);
    } else {
      StaysOffline(s, i, k - 1);
      OfflineStep(At(s, k - 1).core, s.core.log[k - 1]);
    }
  }

  lemma DisconnectEnds(c: Core, e: Event)
    requires e.Sent? && e.packet.Disconnect? && e.ok
    ensures !Post(c, e).connected
  {
  }

  /** MQTT 3.1.1 section 3.14.4: after a DISCONNECT that was sent successfully, the next packet is a
      CONNECT. */
  lemma AfterDisconnectComesConnect(s: State, i: nat, j: nat)
    requires Sound(s) && i < j < |s.core.log|
    requires s.core.log[i].Sent? && s.core.log[i].packet.Disconnect? && s.core.log[i].ok
    requires s.core.log[j].Sent? && forall n :: i < n < j ==> !s.core.log[n].Sent?
    ensures s.core.log[j].packet.Connect?
  {
    StaysOffline(s, i, j);
    AtIsSound(s, j);
    ControlHolds(At(s, j));
    SendingNeedsOnline(At(s, j).core, s.core.log[j]);
  }

  // ---------------------------------------------------------------- the wire

  /** The encodings of the packets sent, end to end. */
  function Encodings(cfg: Config, log: seq<Event>): Bytes
    decreases |log|
  {
    if log == [] then []
    else
      var e := log[|log| - 1];
      Encodings(cfg, log[..|log| - 1]) + if e.Sent? then Encoded(cfg, e.packet) else []
  }

  /** As long as every send has succeeded, the bytes on the wire are the encodings of the packets
      in the order they were sent, whatever short writes the transport made. */
  lemma {:induction false} WireCarriesEncodings(s: State)
    requires Sound(s)
    requires forall j :: 0 <= j < |s.core.log| && s.core.log[j].Sent? ==> s.core.log[j].ok
    ensures s.core.wire == Encodings(s.core.cfg, s.core.log)
    decreases |s.core.log|
  {
    hide At, SendEvent, MaySend, CtxAfterSend, RelsAfterSend, AfterArrival;
    if s.core.log == [] {
      AtIsSound(s, 0);
    } else {
      BeforeIsSound(s);
      AtIsSound(s, |s.core.log| - 1);
      var t, e := Before(s), Last(s);
      assert forall j :: 0 <= j < |t.core.log| ==> t.core.log[j] == s.core.log[j];
      WireCarriesEncodings(t);
      WireGrows(t.core, e);
    }
  }

  /** A send adds a prefix of its packet's encoding to the wire, all of it when it succeeds; nothing
      else touches the wire. */
  lemma WireGrows(c: Core, e: Event)
    requires GuardCore(c, e)
    ensures var w := Post(c, e).wire;
            if !e.Sent? then w == c.wire
            else
              && c.wire <= w
              && w[|c.wire|..] <= Encoded(c.cfg, e.packet)
              && (e.ok ==> w == c.wire + Encoded(c.cfg, e.packet))
  {
  }

  /** The first failing send leaves the encodings of everything sent before it on the wire, and then
      only a prefix of its own packet. */
  lemma FirstFailureAddsAPrefix(s: State, j: nat)
    requires Sound(s) && j < |s.core.log| && s.core.log[j].Sent?
    requires forall i :: 0 <= i < j && s.core.log[i].Sent? ==> s.core.log[i].ok
    ensures var before, w := Encodings(s.core.cfg, s.core.log[..j]), At(s, j + 1).core.wire;
            && before <= w
            && w[|before|..] <= Encoded(s.core.cfg, s.core.log[j].packet)
  {
    hide At, Effect;
    AtIsSound(s, j);
    var t := At(s, j);
    GuardIsCore(t, s.core.log[j]);
    assert forall i :: 0 <= i < |t.core.log| ==> t.core.log[i] == s.core.log[i];
    WireCarriesEncodings(t);
    WireGrows(t.core, s.core.log[j]);
  }

  // ---------------------------------------------------------------- reconnecting after a loss

  predicate SendsNothing(c: Core, d: Core) {
    c.log <= d.log && forall j :: |c.log| <= j < |d.log| ==> !d.log[j].Sent?
  }

  predicate ReadsNothing(c: Core, d: Core) {
    c.log <= d.log && forall j :: |c.log| <= j < |d.log| ==> !d.log[j].Arrived?
  }

  lemma EngineRefuses(c: Core)
    requires c.connected
    ensures E.Connect(c) == E.Step(c, Err(InvalidState))
  {
  }

  lemma OpeningIsSilent(s: State)
    ensures var t := C.Opening(s);
            && t.core.connected == s.core.connected && SendsNothing(s.core, t.core) && ReadsNothing(s.core, t.core)
            && t.core.wire == s.core.wire
            && t.core.sess == if s.core.cfg.cleanSession then Empty(s.core.sess.capacity) else s.core.sess
  {
  }

  /** An engine that was never told to disconnect refuses to connect: nothing is sent, and the
      client ends up in the error state, or where it was if its configuration is invalid. A clean
      session has been cleared all the same. */
  lemma ConnectingTwiceFails(s: State)
    requires s.core.connected
    ensures var o := C.ConnectBody(s);
            && o.r == Err(if Validates(s.core.cfg) then InvalidState else ConfigInvalid)
            && o.s.core.connected
            && SendsNothing(s.core, o.s.core) && ReadsNothing(s.core, o.s.core) && o.s.core.wire == s.core.wire
            && o.s.app.status == (if Validates(s.core.cfg) then Status.Failed else s.app.status)
            && o.s.core.sess ==
               if Validates(s.core.cfg) && s.core.cfg.cleanSession then Empty(s.core.sess.capacity) else s.core.sess
  {
    hide C.Opening, E.Connect, C.Opened, Validates;
    OpeningIsSilent(s);
    EngineRefuses(C.Opening(s).core);
  }

  lemma {:induction false} ResendsOnlyAdd(c: Core, pubs: map<Pid, Inflight>, pids: seq<Pid>)
    ensures c.log <= E.ResendAll(c, pubs, pids).c.log
    decreases |pids|
  {
    hide SendEvent, Effect;
    if pids != [] {
      if pids[0] !in pubs {
        ResendsOnlyAdd(c, pubs, pids[1..]);
      } else {
        var m := pubs[pids[0]];
        var r := CreatePublish(m.topic, m.qos, m.retain, m.payload, Some(pids[0]), true);
        if r.Ok? {
          ResendsOnlyAdd(Post(c, SendEvent(c, r.value)), pubs, pids[1..]);
        }
      }
    }
  }

  lemma OpenedOnlyAdds(s: State, present: bool)
    ensures s.core.log <= C.Opened(s, present).s.core.log
  {
    hide SendEvent, Effect;
    var s1 := Apply(Apply(s, StatusSet(Connected)), AttemptsReset);
    ResendsOnlyAdd(Post(s1.core, Resumed), s1.core.sess.pubs, E.PubOrder(s1.core));
  }

  lemma EngineSendsConnect(c: Core)
    requires !c.connected
    ensures var d := E.Connect(c).c;
            c.log <= d.log && |c.log| + 1 < |d.log| && d.log[|c.log| + 1].Sent? && d.log[|c.log| + 1].packet.Connect?
  {
    hide SendEvent, AfterSend, AfterArrival;
  }

  /** A connect attempts to send something if and only if the configuration is valid and the engine
      is not connected. */
  lemma ConnectingSendsIff(s: State)
    ensures SendsNothing(s.core, C.ConnectBody(s).s.core) <==> s.core.connected || !Validates(s.core.cfg)
  {
    hide C.Opening, E.Connect, C.Opened, Validates;
    if s.core.connected {
      ConnectingTwiceFails(s);
    } else if Validates(s.core.cfg) {
      var s1 := C.Opening(s);
      OpeningIsSilent(s);
      EngineSendsConnect(s1.core);
      var st := E.Connect(s1.core);
      if st.r.Ok? {
        OpenedOnlyAdds(C.Lift(s1, st).s, st.r.value);
      }
      var log := C.ConnectBody(s).s.core.log;
      assert log[|s1.core.log| + 1] == st.c.log[|s1.core.log| + 1];
    }
  }

  /** Poll's automatic reconnect gets as far as clearing the session: reconnects are on, attempts are
      left, the configuration is valid, and it asks for a clean session. */
  predicate ReconnectWipes(s: State) {
    var cfg := s.core.cfg;
    && cfg.reconnect.enabled
    && (cfg.reconnect.maxAttempts == 0 || s.app.attempts < cfg.reconnect.maxAttempts)
    && Validates(cfg)
    && cfg.cleanSession
  }

  /** The automatic reconnect of poll never reaches the network. When the transport is lost while the
      client is connected, poll reports a disconnection without sending anything, and leaves the
      client Disconnected above an engine that still believes it is connected. If and only if
      ReconnectWipes holds, it has cleared the session on the way. */
  lemma PollCannotReconnect(s: State)
    requires Ready(s) && s.app.status == Connected
    requires !s.core.world.alive(|s.core.log| + 1)
    ensures var o := C.Poll(s);
            && o.r == Ok(Some(ClientEvent.Disconnected))
            && o.s.app.status == Status.Disconnected && o.s.core.connected
            && SendsNothing(s.core, o.s.core) && ReadsNothing(s.core, o.s.core) && o.s.core.wire == s.core.wire
            && o.s.core.sess == if ReconnectWipes(s) then Empty(s.core.sess.capacity) else s.core.sess
  {
    hide C.ConnectBody, C.PollBody, Validates;
    ControlHolds(s);
    var s0 := Apply(s, Called(PollOp));
    if s.core.cfg.reconnect.enabled {
      var r := s.core.cfg.reconnect;
      if !(r.maxAttempts > 0 && s0.app.attempts >= r.maxAttempts) {
        ConnectingTwiceFails(Apply(s0, Attempted));
      }
    }
  }

  lemma StandsInBooks(log: seq<Event>, e: Event)
    requires e.Called? || e.Attempted? || e.StatusSet?
    ensures Books(log + [e]) == Books(log)
  {
    assert (log + [e])[..|log|] == log;
  }

  lemma OpeningInBooks(s: State)
    ensures var l := Books(s.core.log);
            Books(C.Opening(s).core.log) == if s.core.cfg.cleanSession then Wipe(l) else l
  {
    hide Wipe, Effect;
    var s1 := Apply(s, StatusSet(Connecting));
    StandsInBooks(s.core.log, StatusSet(Connecting));
    assert (s1.core.log + [Cleared])[..|s1.core.log|] == s1.core.log;
  }

  lemma RefusalInBooks(s: State)
    requires s.core.connected
    ensures var l := Books(s.core.log);
            Books(C.ConnectBody(s).s.core.log) == if Validates(s.core.cfg) && s.core.cfg.cleanSession then Wipe(l) else l
  {
    hide Validates, Wipe, Effect, C.Opening, E.Connect, Enter;
    if Validates(s.core.cfg) {
      OpeningInBooks(s);
      OpeningIsSilent(s);
      EngineRefuses(C.Opening(s).core);
      StandsInBooks(C.Opening(s).core.log, StatusSet(Status.Failed));
    }
  }

  /** So in that poll every message that was pending or awaited its PUBCOMP is lost without a byte sent:
      in the account of the log its fate becomes Wiped, if and only if ReconnectWipes holds. Otherwise
      the poll changes nothing in the account. */
  lemma LostTransportWipes(s: State)
    requires Ready(s) && s.app.status == Connected
    requires !s.core.world.alive(|s.core.log| + 1)
    ensures var l, t := Books(s.core.log), Books(C.Poll(s).s.core.log);
            if ReconnectWipes(s) then
              && |t.entries| == |l.entries|
              && forall i :: 0 <= i < |l.entries| && l.entries[i].fate in {InFlight, AwaitingComp} ==>
                   t.entries[i] == l.entries[i].(fate := Wiped)
            else t == l
  {
    hide C.ConnectBody, C.PollBody, Validates, Books;
    ControlHolds(s);
    var s0 := Apply(s, Called(PollOp));
    StandsInBooks(s.core.log, Called(PollOp));
    var cfg := s.core.cfg;
    if cfg.reconnect.enabled {
      var o := C.ReconnectBody(s0);
      if !(cfg.reconnect.maxAttempts > 0 && s0.app.attempts >= cfg.reconnect.maxAttempts) {
        StandsInBooks(s0.core.log, Attempted);
        ConnectingTwiceFails(Apply(s0, Attempted));
        RefusalInBooks(Apply(s0, Attempted));
      }
      StandsInBooks(o.s.core.log, StatusSet(Status.Disconnected));
    } else {
      StandsInBooks(s0.core.log, StatusSet(Status.Disconnected));
    }
  }

  /** From there a disconnect is a no-op and a connect fails before it sends anything, though not
      before it has cleared a clean session. */
  lemma StuckOnceDisconnected(s: State)
    requires s.app.status == Status.Disconnected && s.core.connected
    ensures C.Disconnect(s).r == Ok(()) && C.Disconnect(s).s.core.connected
    ensures C.Disconnect(s).s.app.status == Status.Disconnected
    ensures var o := C.Connect(s);
            && o.r == Err(if Validates(s.core.cfg) then InvalidState else ConfigInvalid)
            && o.s.core.connected && o.s.core.wire == s.core.wire
            && o.s.core.sess ==
               if Validates(s.core.cfg) && s.core.cfg.cleanSession then Empty(s.core.sess.capacity) else s.core.sess
  {
    hide C.ConnectBody, Validates, E.Disconnect;
    ConnectingTwiceFails(Apply(s, Called(ConnectOp)));
  }

  lemma OnlineStep(c: Core, e: Event)
    requires GuardCore(c, e) && c.connected && !(e.Sent? && e.packet.Disconnect? && e.ok)
    ensures Post(c, e).connected
  {
    hide MaySend, SendEvent;
  }

  /** Once connected, only a successfully sent DISCONNECT lets the engine connect again: until then it
      stays connected and no CONNECT is sent, whatever is called and whatever the transport does. */
  lemma {:induction false} OnlyDisconnectReopens(s: State, i: nat, k: nat)
    requires Sound(s) && i <= k <= |s.core.log| && At(s, i).core.connected
    requires forall n :: i <= n < k ==> !(s.core.log[n].Sent? && s.core.log[n].packet.Disconnect? && s.core.log[n].ok)
    ensures At(s, k).core.connected
    ensures forall n :: i <= n < k && s.core.log[n].Sent? ==> !s.core.log[n].packet.Connect?
    decreases k
  {
    hide At, Effect, GuardCore;
    if i < k {
      OnlyDisconnectReopens(s, i, k - 1);
      AtIsSound(s, k - 1);
      var t, e := At(s, k - 1), s.core.log[k - 1];
      ControlHolds(t);
      GuardIsCore(t, e);
      OnlineStep(t.core, e);
      if e.Sent? {
        SendingNeedsOnline(t.core, e);
      }
    }
  }
}
