/** What connect, reconnect and disconnect do, told from their logs and results alone: which packets
    are sent, when the call succeeds, what is resumed, and what is counted. */
module Connecting {
  import opened Mqtt
  import opened Wire
  import opened SessionModel
  import opened Machine
  import opened Control
  import opened Conformance
  import opened Traffic
  import Grammar
  import E = EngineModel
  import C = ClientModel

  /** The error of a send that failed. */
  function SendError(cfg: Config, pk: Packet): Error { if cfg.encode(pk).None? then Codec else Transport }

  // ---------------------------------------------------------------- disconnect

  /** Event n is the only send from c to d. */
  predicate OnlySend(c: Core, d: Core, n: nat) {
    && c.log <= d.log && |c.log| <= n < |d.log| && d.log[n].Sent?
    && forall k :: |c.log| <= k < |d.log| && d.log[k].Sent? ==> k == n
  }

  lemma EngineDisconnects(c: Core)
    requires c.connected && c.ctx.Idle?
    ensures var st, n := E.Disconnect(c), |c.log|;
            && st.c.log == c.log + [SendEvent(c, Packet.Disconnect)]
            && st.c.sess == c.sess && st.c.cfg == c.cfg
            && (!st.c.connected <==> SendEvent(c, Packet.Disconnect).ok)
            && st.r == (if !SendEvent(c, Packet.Disconnect).ok then Err(SendError(c.cfg, Packet.Disconnect))
                        else if c.world.close(n + 1) then Ok(()) else Err(Transport))
  {
    hide SendEvent;
  }

  /** A disconnect always ends Disconnected and leaves the session alone. Unless the client is
      Disconnected already, a connected engine attempts exactly one send, a DISCONNECT; the engine is
      unconnected afterwards if and only if that send was ok, and the call succeeds if and only if the
      transport could be closed as well. In every other case nothing is sent. */
  lemma DisconnectSends(s: State)
    requires Ready(s)
    ensures var o, n := C.Disconnect(s), |s.core.log|;
            && o.s.app == s.app.(status := Status.Disconnected)
            && o.s.core.sess == s.core.sess && o.s.core.cfg == s.core.cfg
            && if s.app.status == Status.Disconnected || !s.core.connected then
                 o.r == Ok(()) && Grammar.SendsNothing(s.core, o.s.core) && o.s.core.connected == s.core.connected
               else
                 && OnlySend(s.core, o.s.core, n + 2)
                 && var e := o.s.core.log[n + 2];
                    && e.packet == Packet.Disconnect
                    && (!o.s.core.connected <==> e.ok)
                    && o.r == if !e.ok then Err(SendError(s.core.cfg, Packet.Disconnect))
                              else if s.core.world.close(n + 3) then Ok(()) else Err(Transport)
  {
    hide E.Disconnect, SendEvent, Sound;
    var s1 := Apply(Apply(s, Called(DisconnectOp)), StatusSet(Disconnecting));
    if s.core.connected {
      EngineDisconnects(s1.core);
    } else {
      assert E.Disconnect(s1.core) == E.Step(s1.core, Ok(())) by { EngineStays(s1.core); }
    }
  }

  lemma EngineStays(c: Core)
    requires !c.connected
    ensures E.Disconnect(c) == E.Step(c, Ok(()))
  {
  }

  // ---------------------------------------------------------------- connect, up to the answer

  /** The position at which a connect that starts from s sets the keep-alive interval; the CONNECT
      follows, and then the answer. */
  function Base(s: State): nat { |s.core.log| + if s.core.cfg.cleanSession then 2 else 1 }

  lemma OpeningLogs(s: State)
    ensures var t := C.Opening(s);
            && s.core.log <= t.core.log && |t.core.log| == Base(s)
            && (forall k :: |s.core.log| <= k < Base(s) ==> !t.core.log[k].Sent?)
            && t.app == s.app.(status := Connecting)
            && t.core == s.core.(log := t.core.log, sess := t.core.sess)
            && t.core.sess == if s.core.cfg.cleanSession then Empty(s.core.sess.capacity) else s.core.sess
  {
  }

  /** The CONNECT that the configuration asks for. */
  function ConnectPacket(cfg: Config): Packet { Packet.Connect(cfg.cleanSession, cfg.keepAlive) }

  /** What the engine's part of a connect does: the keep-alive interval is set to the configured seconds,
      one CONNECT is sent, and only a CONNACK with return code 0 in answer to it connects. */
  lemma EngineConnectLogs(c: Core)
    requires !c.connected && c.ctx.Idle?
    ensures var st, n := E.Connect(c), |c.log|;
            && c.log <= st.c.log && n + 1 < |st.c.log|
            && st.c.log[n] == KeepAliveSet(c.cfg.keepAlive * 1000)
            && st.c.keepAliveMs == c.cfg.keepAlive * 1000
            && st.c.log[n + 1].Sent? && st.c.log[n + 1].packet == ConnectPacket(c.cfg)
            && st.c.sess == c.sess && st.c.cfg == c.cfg && st.c.world == c.world && st.c.ctx.Idle?
            && (st.c.connected <==> st.r.Ok?)
            && if !st.c.log[n + 1].ok then
                 |st.c.log| == n + 2 && st.r == Err(SendError(c.cfg, ConnectPacket(c.cfg)))
               else
                 |st.c.log| == n + 3 &&
                 match c.world.read(n + 2)
                 case None => st.c.log[n + 2] == ReadFailed && st.r == Err(Transport)
                 case Some(pk) =>
                   && st.c.log[n + 2] == Greeted(pk, c.world.clock(n + 2))
                   && st.r == if pk.Connack? then (if pk.code == 0 then Ok(pk.sessionPresent) else Err(AuthenticationFailed))
                              else if HandlePacket(c.cfg.version, pk).Err? then Err(Codec) else Err(InvalidHeader)
  {
    hide SendEvent;
  }

  /** The server has answered the CONNECT at position n of the log with return code 0. */
  predicate Accepted(log: seq<Event>, n: nat) {
    && n + 1 < |log| && log[n].Sent? && log[n].packet.Connect? && log[n].ok
    && log[n + 1].Greeted? && log[n + 1].packet.Connack? && log[n + 1].packet.code == 0
  }

  /** What holds of every connect with a valid configuration over an unconnected engine. */
  predicate Begins(s: State, t: State) {
    var b, log := Base(s), t.core.log;
    && s.core.log <= log && b + 1 < |log|
    && (forall k :: |s.core.log| <= k <= b ==> !log[k].Sent?)
    && log[b] == KeepAliveSet(s.core.cfg.keepAlive * 1000)
    && t.core.keepAliveMs == s.core.cfg.keepAlive * 1000
    && log[b + 1].Sent? && log[b + 1].packet == ConnectPacket(s.core.cfg)
    && t.core.sess == if s.core.cfg.cleanSession then Empty(s.core.sess.capacity) else s.core.sess
  }

  // ---------------------------------------------------------------- resume

  /** The log resends the first i of the given messages and then fails at the next one, for good. */
  predicate BreaksOff(log: seq<Event>, n: nat, pubs: map<Pid, Inflight>, pids: seq<Pid>, i: nat) {
    && i < |pids| && pids[i] in pubs && |log| == n + i + 1
    && (forall k :: 0 <= k < i ==> ResentAt(log, n + k, pids[k], pubs))
    && var e := log[n + i];
       e.Sent? && !e.ok && e.packet.Publish? && e.packet.dup && Carries(e.packet, pids[i], pubs[pids[i]])
  }

  lemma BreaksOffLater(log: seq<Event>, n: nat, pubs: map<Pid, Inflight>, pids: seq<Pid>, i: nat)
    requires pids != [] && ResentAt(log, n, pids[0], pubs) && BreaksOff(log, n + 1, pubs, pids[1..], i)
    ensures BreaksOff(log, n, pubs, pids, i + 1)
  {
    hide ResentAt, Carries;
    forall k | 0 <= k < i + 1 ensures ResentAt(log, n + k, pids[k], pubs) {
      if k > 0 {
        assert ResentAt(log, n + 1 + (k - 1), pids[1..][k - 1], pubs);
      }
    }
  }

  /** Every pending message can be built into a packet. */
  predicate Buildable(pubs: map<Pid, Inflight>) { forall p :: p in pubs ==> pubs[p].qos != AtMostOnce }

  lemma {:induction false} ResendAllEnds(c: Core, pubs: map<Pid, Inflight>, pids: seq<Pid>)
    requires Buildable(pubs) && forall p :: p in pids ==> p in pubs
    ensures var st := E.ResendAll(c, pubs, pids);
            && c.log <= st.c.log && st.c.cfg == c.cfg
            && (st.r.Err? ==> exists i :: BreaksOff(st.c.log, |c.log|, pubs, pids, i))
            && (st.r.Err? ==> |st.c.log| > 0 && st.c.log[|st.c.log| - 1].Sent?
                              && st.r == Err(SendError(c.cfg, st.c.log[|st.c.log| - 1].packet)))
    decreases |pids|
  {
    hide SendEvent, BreaksOff;
    if pids != [] {
      var m := pubs[pids[0]];
      var pk := CreatePublish(m.topic, m.qos, m.retain, m.payload, Some(pids[0]), true).value;
      var e := SendEvent(c, pk);
      var d := Post(c, e);
      if e.ok {
        ResendAllEnds(d, pubs, pids[1..]);
        var st := E.ResendAll(d, pubs, pids[1..]);
        if st.r.Err? {
          assert st.c.log[|c.log|] == d.log[|c.log|] == e;
          var i :| BreaksOff(st.c.log, |d.log|, pubs, pids[1..], i);
          BreaksOffLater(st.c.log, |c.log|, pubs, pids, i);
        }
      } else {
        FirstBreaksOff(c, e, pubs, pids);
      }
    }
  }

  lemma FirstBreaksOff(c: Core, e: Event, pubs: map<Pid, Inflight>, pids: seq<Pid>)
    requires pids != [] && pids[0] in pubs && e.Sent? && !e.ok && e.packet.Publish? && e.packet.dup
    requires Carries(e.packet, pids[0], pubs[pids[0]])
    ensures BreaksOff(Post(c, e).log, |c.log|, pubs, pids, 0)
  {
    hide Effect, Carries;
  }

  /** From position n on, the log resends every message pending in pubs exactly once, in some order, with
      DUP and its content; or it stops at the first send that fails, whose error is the result. */
  ghost predicate Resumes(log: seq<Event>, n: nat, pubs: map<Pid, Inflight>, cfg: Config, r: Result<()>) {
    exists order :: Distinct(order) && Elems(order) == pubs.Keys && ResumesIn(log, n, pubs, order, cfg, r)
  }

  ghost predicate ResumesIn(log: seq<Event>, n: nat, pubs: map<Pid, Inflight>, order: seq<Pid>, cfg: Config, r: Result<()>) {
    if r.Ok? then Resends(log, n, pubs, order)
    else
      && |log| > 0 && log[|log| - 1].Sent? && r == Err(SendError(cfg, log[|log| - 1].packet))
      && exists i :: BreaksOff(log, n, pubs, order, i)
  }

  lemma ResendAllResumes(c: Core, pubs: map<Pid, Inflight>, order: seq<Pid>)
    requires Buildable(pubs) && !c.ctx.Owing? && forall p :: p in order ==> p in pubs
    ensures var st := E.ResendAll(c, pubs, order);
            && c.log <= st.c.log && st.c.sess == c.sess
            && ResumesIn(st.c.log, |c.log|, pubs, order, c.cfg, st.r)
  {
    hide Resends, BreaksOff, Buildable;
    ResendAllResends(c, pubs, order);
    ResendAllEnds(c, pubs, order);
  }

  lemma EngineResumes(c: Core)
    requires c.ctx.Idle? && Buildable(c.sess.pubs)
    ensures var st := E.ResendPending(c);
            && c.log <= st.c.log && |c.log| < |st.c.log| && st.c.log[|c.log|] == Resumed
            && st.c.sess == c.sess
            && Resumes(st.c.log, |c.log| + 1, c.sess.pubs, c.cfg, st.r)
  {
    hide ResumesIn, E.PubOrder, Buildable, SendEvent;
    var d, order := Post(c, Resumed), E.PubOrder(c);
    ResendAllResumes(d, c.sess.pubs, order);
    assert Elems(order) == c.sess.pubs.Keys;
  }

  // ---------------------------------------------------------------- connect as a whole

  lemma OpenedLogs(s: State, present: bool)
    requires s.core.ctx.Idle? && Buildable(s.core.sess.pubs)
    ensures var o, n := C.Opened(s, present), |s.core.log|;
            && s.core.log <= o.s.core.log && n + 1 < |o.s.core.log|
            && o.s.core.log[n] == StatusSet(Connected) && o.s.core.log[n + 1] == AttemptsReset
            && o.s.app == s.app.(status := Connected, attempts := 0, intervalMs := 0)
            && o.s.core.connected == s.core.connected && o.s.core.keepAliveMs == s.core.keepAliveMs
            && o.s.core.sess == s.core.sess
            && if present && !s.core.cfg.cleanSession then
                 && n + 2 < |o.s.core.log| && o.s.core.log[n + 2] == Resumed
                 && Resumes(o.s.core.log, n + 3, s.core.sess.pubs, s.core.cfg, o.r)
               else |o.s.core.log| == n + 2 && o.r == Ok(())
  {
    hide E.ResendPending, Resumes, Buildable;
    var s1 := Apply(Apply(s, StatusSet(Connected)), AttemptsReset);
    EngineResumes(s1.core);
    ResumeStaysConnected(s1);
    ResumeKeepsInterval(s1.core);
  }

  lemma {:induction false} ResendsKeepInterval(c: Core, pubs: map<Pid, Inflight>, pids: seq<Pid>)
    ensures E.ResendAll(c, pubs, pids).c.keepAliveMs == c.keepAliveMs
    decreases |pids|
  {
    hide SendEvent;
    if pids != [] {
      if pids[0] !in pubs {
        ResendsKeepInterval(c, pubs, pids[1..]);
      } else {
        var m := pubs[pids[0]];
        var r := CreatePublish(m.topic, m.qos, m.retain, m.payload, Some(pids[0]), true);
        if r.Ok? {
          ResendsKeepInterval(Post(c, SendEvent(c, r.value)), pubs, pids[1..]);
        }
      }
    }
  }

  lemma ResumeKeepsInterval(c: Core)
    ensures E.ResendPending(c).c.keepAliveMs == c.keepAliveMs
  {
    hide E.ResendAll;
    ResendsKeepInterval(Post(c, Resumed), c.sess.pubs, E.PubOrder(c));
  }

  /** What a connect with a valid configuration over an unconnected engine ends with: a client that is
      Connected with a clean backoff and a resumed session, or one that is Failed and unconnected, with
      its backoff as it was and nothing sent but the CONNECT. */
  ghost predicate Ends(s: State, o: C.Outcome<()>) {
    var b, log := Base(s), o.s.core.log;
    && Begins(s, o.s)
    && (o.s.core.connected <==> Accepted(log, b + 1))
    && if Accepted(log, b + 1) then
         && o.s.app == s.app.(status := Connected, attempts := 0, intervalMs := 0)
         && if log[b + 2].packet.sessionPresent && !s.core.cfg.cleanSession then
              && b + 5 < |log| && (forall k :: b + 2 <= k <= b + 5 ==> !log[k].Sent?)
              && Resumes(log, b + 6, s.core.sess.pubs, s.core.cfg, o.r)
            else o.r == Ok(()) && forall k :: b + 2 <= k < |log| ==> !log[k].Sent?
       else
         && o.r.Err? && o.s.app == s.app.(status := Status.Failed)
         && forall k :: b + 2 <= k < |log| ==> !log[k].Sent?
  }

  /** Whether the CONNECT was accepted, and the error if not, depends on its send and on the next packet
      only. */
  predicate Answered(s: State, o: C.Outcome<()>) {
    var b, log, w := Base(s), o.s.core.log, s.core.world;
    && b + 1 < |log|
    && (Accepted(log, b + 1) <==>
          log[b + 1].Sent? && log[b + 1].ok && w.read(b + 2).Some? && w.read(b + 2).value.Connack? && w.read(b + 2).value.code == 0)
    && (Accepted(log, b + 1) ==> log[b + 2].packet == w.read(b + 2).value)
    && (!Accepted(log, b + 1) && log[b + 1].Sent? ==>
          o.r == Err(if !log[b + 1].ok then SendError(s.core.cfg, ConnectPacket(s.core.cfg))
                     else match w.read(b + 2)
                          case None => Transport
                          case Some(pk) =>
                            if pk.Connack? then AuthenticationFailed
                            else if HandlePacket(s.core.cfg.version, pk).Err? then Codec
                            else InvalidHeader))
  }

  lemma ConnectBodyAnswered(s: State)
    requires Validates(s.core.cfg) && !s.core.connected && s.core.ctx.Idle? && Buildable(s.core.sess.pubs)
    ensures Answered(s, C.ConnectBody(s))
  {
    hide C.Opening, C.Opened, E.Connect, Validates, Resumes, Buildable, HandlePacket;
    OpeningLogs(s);
    var s1 := C.Opening(s);
    EngineConnectLogs(s1.core);
    var st := E.Connect(s1.core);
    EmptyIsBuildable(s.core.sess.capacity);
    if st.r.Ok? {
      OpenedLogs(C.Lift(s1, st).s, st.r.value);
    }
  }

  lemma ConnectBodyBegins(s: State)
    requires Validates(s.core.cfg) && !s.core.connected && s.core.ctx.Idle? && Buildable(s.core.sess.pubs)
    ensures Begins(s, C.ConnectBody(s).s)
  {
    hide C.Opening, C.Opened, E.Connect, Validates, Resumes, Buildable, HandlePacket;
    OpeningLogs(s);
    var s1 := C.Opening(s);
    EngineConnectLogs(s1.core);
    var st := E.Connect(s1.core);
    EmptyIsBuildable(s.core.sess.capacity);
    if st.r.Ok? {
      OpenedLogs(C.Lift(s1, st).s, st.r.value);
    }
  }

  lemma ConnectBodyEnds(s: State)
    requires Validates(s.core.cfg) && !s.core.connected && s.core.ctx.Idle? && Buildable(s.core.sess.pubs)
    ensures Ends(s, C.ConnectBody(s)) && Answered(s, C.ConnectBody(s))
  {
    hide C.Opening, C.Opened, E.Connect, Validates, Resumes, Buildable, HandlePacket, Answered, Begins;
    ConnectBodyAnswered(s);
    ConnectBodyBegins(s);
    OpeningLogs(s);
    var s1 := C.Opening(s);
    EngineConnectLogs(s1.core);
    var st := E.Connect(s1.core);
    EmptyIsBuildable(s.core.sess.capacity);
    if st.r.Ok? {
      OpenedLogs(C.Lift(s1, st).s, st.r.value);
    }
  }

  lemma EmptyIsBuildable(capacity: nat)
    ensures Buildable(Empty(capacity).pubs)
  {
  }

  lemma ReadyCanBuild(s: State)
    requires Ready(s)
    ensures s.core.ctx.Idle? && Buildable(s.core.sess.pubs)
  {
    hide Sound;
    ControlHolds(s);
  }

  /** A connect call. With an invalid configuration it does nothing; over an engine that is connected it
      fails unsent, with a clean session cleared; otherwise it sends one CONNECT, and succeeds and resumes
      as Ends says. */
  lemma ConnectEnds(s: State)
    requires Ready(s)
    ensures var s0, o := Apply(s, Called(ConnectOp)), C.Connect(s);
            if !Validates(s.core.cfg) then o == C.Outcome(s0, Err(ConfigInvalid))
            else if s.core.connected then
              && o.r == Err(InvalidState) && Grammar.SendsNothing(s0.core, o.s.core) && o.s.app.status == Status.Failed
              && o.s.core.sess == if s.core.cfg.cleanSession then Empty(s.core.sess.capacity) else s.core.sess
            else Ends(s0, o) && Answered(s0, o)
  {
    hide C.Opening, C.Opened, E.Connect, Validates, Buildable, Ends, Answered, Ready;
    var s0 := Apply(s, Called(ConnectOp));
    ReadyCanBuild(s);
    if s.core.connected {
      Grammar.ConnectingTwiceFails(s0);
    } else if Validates(s.core.cfg) {
      hide C.ConnectBody;
      ConnectBodyEnds(s0);
    }
  }

  /** After a disconnect that was sent, a connect with a valid configuration sends a CONNECT. */
  lemma DisconnectThenConnect(s: State)
    requires Ready(s) && s.core.connected && s.app.status != Status.Disconnected && Validates(s.core.cfg)
    ensures var t := C.Disconnect(s).s;
            var u, n := C.Connect(t).s, Base(Apply(t, Called(ConnectOp))) + 1;
            t.core.log[|s.core.log| + 2].ok ==>
              n < |u.core.log| && u.core.log[n].Sent? && u.core.log[n].packet == ConnectPacket(s.core.cfg)
  {
    hide C.Connect, C.Disconnect, Ready, Validates, Answered, Resumes;
    DisconnectSends(s);
    DisconnectConforms(s);
    ConnectEnds(C.Disconnect(s).s);
  }

  // ---------------------------------------------------------------- reconnect

  /** Reconnects are on, and attempts are left. */
  predicate MayAttempt(s: State) {
    var r := s.core.cfg.reconnect;
    r.enabled && (r.maxAttempts == 0 || s.app.attempts < r.maxAttempts)
  }

  /** One attempt more than before; the interval waited is the initial one at first, then the scaled
      one, cut at the cap. */
  predicate CountsOne(a: App, b: App, r: Reconnect) {
    && b.attempts == a.attempts + 1
    && b.intervalMs == if a.intervalMs == 0 then r.initialMs
                       else if r.scale(a.intervalMs) <= r.maxMs then r.scale(a.intervalMs)
                       else r.maxMs
  }

  lemma AttemptCounts(s: State)
    ensures var t := Apply(s, Attempted);
            && CountsOne(s.app, t.app, s.core.cfg.reconnect) && t.app.status == s.app.status
            && t.core == s.core.(log := s.core.log + [Attempted])
  {
  }

  /** The state in which a reconnect connects. */
  function Attempting(s: State): State { Apply(Apply(s, Called(ReconnectOp)), Attempted) }

  /** A reconnect call. When reconnects are off or the limit is reached it changes nothing and sends
      nothing. Otherwise one attempt is counted before the connection is tried; if the call opens a
      connection, both counters are back at zero, and if not it fails with that attempt counted. */
  lemma ReconnectCounts(s: State)
    requires Ready(s)
    ensures var r, o := s.core.cfg.reconnect, C.Reconnect(s);
            if !MayAttempt(s) then
              && o.r == Err(if r.enabled then Internal else ReconnectDisabled)
              && o.s == Apply(s, Called(ReconnectOp)) && o.s.app == s.app
              && Grammar.SendsNothing(s.core, o.s.core) && o.s.core.sess == s.core.sess
            else
              && (if !s.core.connected && o.s.core.connected
                  then o.s.app.status == Connected && o.s.app.attempts == 0 && o.s.app.intervalMs == 0
                  else o.r.Err? && CountsOne(s.app, o.s.app, r))
              && (Validates(s.core.cfg) && !s.core.connected ==> Ends(Attempting(s), o) && Answered(Attempting(s), o))
  {
    hide C.ConnectBody, Ready, Validates, Buildable, Answered;
    ReadyCanBuild(s);
    var s0 := Apply(s, Called(ReconnectOp));
    AttemptCounts(s0);
    if MayAttempt(s) {
      ConnectingCounts(Attempting(s));
    }
  }

  /** The backoff after a connection has been tried, whichever way it went. */
  lemma ConnectingCounts(s: State)
    requires s.core.ctx.Idle? && Buildable(s.core.sess.pubs)
    ensures var o := C.ConnectBody(s);
            && (if !s.core.connected && o.s.core.connected
                then o.s.app.status == Connected && o.s.app.attempts == 0 && o.s.app.intervalMs == 0
                else o.r.Err? && o.s.app.attempts == s.app.attempts && o.s.app.intervalMs == s.app.intervalMs)
            && (Validates(s.core.cfg) && !s.core.connected ==> Ends(s, o) && Answered(s, o))
  {
    hide C.Opening, C.Opened, Buildable, Validates, Resumes, Answered;
    if s.core.connected {
      Grammar.ConnectingTwiceFails(s);
      ConnectingTwiceKeepsBackoff(s);
    } else if Validates(s.core.cfg) {
      hide C.ConnectBody;
      ConnectBodyEnds(s);
    }
  }

  lemma ConnectingTwiceKeepsBackoff(s: State)
    requires s.core.connected
    ensures var a := C.ConnectBody(s).s.app; a.attempts == s.app.attempts && a.intervalMs == s.app.intervalMs
  {
    hide C.Opening, E.Connect, C.Opened, Validates;
    OpeningLogs(s);
    Grammar.EngineRefuses(C.Opening(s).core);
  }

  /** Poll's own reconnect is counted in the same way, although it never gets a connection. */
  lemma PollReconnectCounts(s: State)
    requires Ready(s) && s.app.status == Connected && !s.core.world.alive(|s.core.log| + 1)
    ensures var a := C.Poll(s).s.app;
            if MayAttempt(s) then CountsOne(s.app, a, s.core.cfg.reconnect)
            else a.attempts == s.app.attempts && a.intervalMs == s.app.intervalMs
  {
    hide C.ConnectBody, C.PollBody, Ready, Validates;
    ReadyConnected(s);
    var s0 := Apply(s, Called(PollOp));
    AttemptCounts(s0);
    Grammar.ConnectingTwiceFails(Apply(s0, Attempted));
    ConnectingTwiceKeepsBackoff(Apply(s0, Attempted));
  }

  lemma ReadyConnected(s: State)
    requires Ready(s) && s.app.status == Connected
    ensures s.core.connected
  {
    hide Sound;
    ControlHolds(s);
  }
}
