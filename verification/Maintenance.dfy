/** What a poll does before it receives, told from the state it starts in and the log it leaves: when it
    times out, when it pings, what it sends and resends, and when it fails. */
module Maintenance {
  import opened Mqtt
  import opened Wire
  import opened SessionModel
  import opened Machine
  import opened Control
  import opened Conformance
  import opened Connecting
  import opened Retries
  import opened Chores
  import opened Pacing
  import Grammar
  import E = EngineModel
  import C = ClientModel

  // ---------------------------------------------------------------- what is called for

  /** Nothing has come in for one and a half keep-alive intervals. */
  predicate Late(c: Core, now: Millis) {
    c.keepAliveMs != 0 && Elapsed(now, c.lastRecv) >= c.keepAliveMs + c.keepAliveMs / 2
  }

  /** Nothing has gone out for one keep-alive interval. */
  predicate PingDue(c: Core, now: Millis) {
    c.keepAliveMs != 0 && Elapsed(now, c.lastSent) >= c.keepAliveMs
  }

  /** A PUBREL is recorded, more than a second has passed since the last packet, and no PUBLISH is due. */
  predicate RepeatDue(c: Core, now: Millis) {
    Due(c.sess.pubs, now) == {} && c.sess.rels != {} && c.lastSent + 1000 < now
  }

  // ---------------------------------------------------------------- what is in the log

  /** The log sends a PUBREL at or after position n. */
  predicate SendsPubrel(log: seq<Event>, n: nat) {
    exists j :: n <= j < |log| && log[j].Sent? && log[j].packet.Pubrel?
  }

  predicate SendsPublish(log: seq<Event>, n: nat) {
    exists j :: n <= j < |log| && log[j].Sent? && log[j].packet.Publish?
  }

  /** From c to d there are sweep steps only, and at most one PUBREL, recorded in c, as the last of them. */
  predicate Sweeps(c: Core, d: Core) {
    && c.log <= d.log
    && forall j :: |c.log| <= j < |d.log| ==>
         || PublishChore(d.log[j])
         || (j == |d.log| - 1 && d.log[j].Sent? && d.log[j].packet.Pubrel? && d.log[j].packet.pid in c.sess.rels)
  }

  lemma PublishesSweep(c: Core, d: Core)
    requires OnlyPublishes(c, d)
    ensures Sweeps(c, d) && !SendsPubrel(d.log, |c.log|)
    ensures SendsPublish(d.log, |c.log|) <==> !Grammar.SendsNothing(c, d)
  {
  }

  lemma ReleaseSweeps(c: Core, d: Core, p: Pid)
    requires OnlyPublishes(c, d) && p in c.sess.rels
    ensures var f := Post(d, SendEvent(d, Pubrel(p)));
            && Sweeps(c, f) && SendsPubrel(f.log, |c.log|)
            && (Grammar.SendsNothing(c, d) ==> !SendsPublish(f.log, |c.log|))
            && (AllOk(c, f) <==> AllOk(c, d) && SendEvent(d, Pubrel(p)).ok)
  {
    hide SendEvent, Effect;
    var e := SendEvent(d, Pubrel(p));
    var f := Post(d, e);
    assert f.log[|d.log|] == e;
    assert forall j :: |c.log| <= j < |d.log| ==> f.log[j] == d.log[j];
  }

  lemma BatchIsEmptyIff(c: Core)
    ensures E.RelBatch(c) == [] <==> c.sess.rels == {}
  {
    assert |E.RelBatch(c)| == Min(10, |c.sess.rels|);
  }

  /** The sweep repeats a PUBREL if and only if RepeatDue holds, resends something if and only if a message
      is due, and fails if and only if one of its sends does. */
  lemma SweepContract(c: Core, now: Millis)
    requires c.ctx.Idle? && Buildable(c.sess.pubs) && Monotone(c.world) && now <= c.world.clock(|c.log|)
    ensures var st := E.Sweep(c, now);
            && Sweeps(c, st.c) && st.c.sess.rels == c.sess.rels
            && (st.r.Ok? <==> AllOk(c, st.c))
            && (st.r.Err? ==> EndsBadly(st.c, st.r))
            && (SendsPubrel(st.c.log, |c.log|) <==> RepeatDue(c, now))
            && (SendsPublish(st.c.log, |c.log|) <==> Due(c.sess.pubs, now) != {})
  {
    hide E.SweepPublishes, E.ReleaseAll, E.RelBatch, OnlyPublishes, AllOk, EndsBadly, SendEvent, Sweeps, Due;
    hide Grammar.SendsNothing, SendsPubrel, SendsPublish;
    PublishHalf(c, now);
    var st := E.SweepPublishes(c, now);
    PublishesSweep(c, st.c);
    if st.r.Ok? {
      var batch := E.RelBatch(st.c);
      BatchIsEmptyIff(st.c);
      AfterPublishHalf(c, now);
      ReleaseOnce(st.c, batch, now);
      if batch != [] && st.c.lastSent + 1000 < now {
        assert batch[0] in batch;
        ReleaseSweeps(c, st.c, batch[0]);
        ReleaseFails(st.c, batch[0]);
      }
    }
  }

  /** After a successful PUBLISH half the last send is as before, or not before the reading. */
  lemma AfterPublishHalf(c: Core, now: Millis)
    requires c.ctx.Idle? && Buildable(c.sess.pubs) && Monotone(c.world) && now <= c.world.clock(|c.log|)
    requires E.SweepPublishes(c, now).r.Ok?
    ensures var d := E.SweepPublishes(c, now).c;
            && d.world == c.world && now <= d.world.clock(|d.log|)
            && if Due(c.sess.pubs, now) == {} then d.lastSent == c.lastSent else d.lastSent >= now
  {
    hide E.SweepPublishes, OnlyPublishes, EndsBadly, Due;
    PublishHalf(c, now);
    SweepPublishTimes(c, now);
    var d := E.SweepPublishes(c, now).c;
    TimesWorld(c, d, now);
    if Due(c.sess.pubs, now) != {} {
      var j :| |c.log| <= j < |d.log| && d.log[j].Sent?;
      assert d.log[j].ok;
    }
  }

  lemma ReleaseFails(c: Core, p: Pid)
    requires !c.ctx.Owing?
    ensures var st := E.SendPacket(c, Pubrel(p));
            && st.c == Post(c, SendEvent(c, Pubrel(p))) && st.c.sess == c.sess
            && (st.r.Ok? <==> SendEvent(c, Pubrel(p)).ok)
            && (st.r.Err? ==> EndsBadly(st.c, st.r))
  {
    hide SendEvent;
  }

  // ---------------------------------------------------------------- maintenance as a whole

  /** Event j is a send of pk. */
  predicate SendsAt(log: seq<Event>, j: nat, pk: Packet) { j < |log| && log[j].Sent? && log[j].packet == pk }

  /** Every send at or after position n succeeded. */
  predicate AllOkFrom(log: seq<Event>, n: nat) { forall k :: n <= k < |log| && log[k].Sent? ==> log[k].ok }

  /** The steps at or after position n are sweep steps, with at most one PUBREL, recorded in rels, at the end. */
  predicate SweepsFrom(log: seq<Event>, n: nat, rels: set<Pid>) {
    forall j :: n <= j < |log| ==>
      || PublishChore(log[j])
      || (j == |log| - 1 && log[j].Sent? && log[j].packet.Pubrel? && log[j].packet.pid in rels)
  }

  /** The whole contract of what a poll does before it receives. */
  predicate Maintains(s: State, o: C.Outcome<()>, now: Millis) {
    var c, n, log := s.core, |s.core.log|, o.s.core.log;
    && c.log <= log && n < |log| && log[n] == Ticked(now)
    && o.s.core.sess.rels == c.sess.rels
    && if Late(c, now) then
         o.r == Err(Timeout) && o.s.app.status == Status.Failed && log == c.log + [Ticked(now), StatusSet(Status.Failed)]
       else if PingDue(c, now) && s.app.status != Connected then
         o.r == Err(InvalidState) && o.s.app == s.app && log == c.log + [Ticked(now)]
       else
         && o.s.app == s.app
         && (SendsAt(log, n + 1, Pingreq) <==> PingDue(c, now))
         && SweepsFrom(log, if PingDue(c, now) then n + 2 else n + 1, c.sess.rels)
         && (o.r.Ok? <==> AllOkFrom(log, n))
         && (o.r.Err? ==> EndsBadly(o.s.core, o.r))
         && (SendsPubrel(log, n) <==> !PingDue(c, now) && RepeatDue(c, now))
         && (SendsPublish(log, n) <==> Due(c.sess.pubs, now) != {} && (PingDue(c, now) ==> log[n + 1].ok))
  }

  lemma PingDoes(s: State)
    requires s.app.status == Connected && s.core.connected && s.core.ctx.Idle?
    ensures var o, e := C.PingBody(s), SendEvent(s.core, Pingreq);
            && o.s == Apply(s, e)
            && o.s.core.sess == s.core.sess && o.s.core.ctx.Idle? && o.s.core.world == s.core.world && o.s.core.cfg == s.core.cfg
            && (o.r.Ok? <==> e.ok)
            && (o.r.Err? ==> EndsBadly(o.s.core, o.r))
            && (e.ok ==> o.s.core.lastSent == s.core.world.clock(|s.core.log|))
  {
    hide SendEvent;
    SendStampsNow(s.core, Pingreq);
  }

  lemma PingRefused(s: State)
    requires s.app.status != Connected
    ensures C.PingBody(s) == C.Outcome(s, Err(InvalidState))
  {
  }

  lemma TickDoes(s: State, now: Millis)
    ensures var t := Apply(s, Ticked(now));
            && t.app == s.app
            && t.core == s.core.(now := now, log := s.core.log + [Ticked(now)])
  {
  }

  lemma StatusDoes(s: State, st: Status)
    ensures var t := Apply(s, StatusSet(st));
            t.core == s.core.(log := s.core.log + [StatusSet(st)]) && t.app == s.app.(status := st)
  {
  }

  lemma SweptFrom(c: Core, d: Core, n: nat)
    requires Sweeps(c, d) && n <= |c.log| && forall j :: n <= j < |c.log| ==> !c.log[j].Sent? || c.log[j].packet.Pingreq?
    ensures SweepsFrom(d.log, |c.log|, c.sess.rels)
    ensures SendsPubrel(d.log, n) <==> SendsPubrel(d.log, |c.log|)
    ensures SendsPublish(d.log, n) <==> SendsPublish(d.log, |c.log|)
    ensures AllOkFrom(d.log, n) <==> AllOk(c, d) && AllOkFrom(c.log, n)
  {
    assert forall j :: n <= j < |c.log| ==> d.log[j] == c.log[j];
  }

  lemma FirstSendSweeps(c: Core, d: Core)
    requires Sweeps(c, d) && |c.log| < |d.log|
    ensures !(d.log[|c.log|].Sent? && d.log[|c.log|].packet.Pingreq?)
  {
  }

  /** Under a clock that never steps back: a poll that gets to its maintenance times out exactly when it is
      late, pings exactly when a ping is due, resends exactly when a message is due and no ping has failed,
      and repeats a PUBREL, exactly one, if and only if no ping is due and RepeatDue holds. Otherwise than
      by the time-out, or a ping due in a client that is not Connected, it fails if and only if one of these
      sends fails, right there and with its error. */
  lemma MaintenanceContract(s: State)
    requires Ready(s) && s.core.connected && Monotone(s.core.world)
    ensures Maintains(s, C.Maintain(s), s.core.world.clock(|s.core.log|))
  {
    hide Ready, Buildable, E.Sweep, C.PingBody, SendEvent, Sweeps, Due, AllOk, EndsBadly, SweepsFrom, AllOkFrom;
    hide SendsPubrel, SendsPublish, Effect;
    var n, now := |s.core.log|, s.core.world.clock(|s.core.log|);
    ReadyCanBuild(s);
    TickDoes(s, now);
    var s1 := Apply(s, Ticked(now));
    assert now <= s1.core.world.clock(n + 1);
    if !E.TimedOut(s1.core, now) {
      if !E.KeepAliveDue(s1.core, now) {
        SweptWithoutPing(s, s1, now);
      } else if s.app.status == Connected {
        SweptAfterPing(s, s1, now);
      } else {
        PingRefused(s1);
      }
    } else {
      StatusDoes(s1, Status.Failed);
    }
  }

  lemma SweptWithoutPing(s: State, s1: State, now: Millis)
    requires s.core.ctx.Idle? && Buildable(s.core.sess.pubs) && Monotone(s.core.world) && now == s.core.world.clock(|s.core.log|)
    requires s1.app == s.app && s1.core == s.core.(now := now, log := s.core.log + [Ticked(now)])
    requires !Late(s.core, now) && !PingDue(s.core, now)
    ensures var st := E.Sweep(s1.core, now); Maintains(s, C.Lift(s1, st), now)
  {
    hide Buildable, E.Sweep, Sweeps, Due, AllOk, EndsBadly, SendsPubrel, SendsPublish, Late, PingDue;
    var n := |s.core.log|;
    assert now <= s1.core.world.clock(n + 1);
    SweepContract(s1.core, now);
    var d := E.Sweep(s1.core, now).c;
    assert AllOkFrom(s1.core.log, n);
    SweptFrom(s1.core, d, n);
    LogsOfSweep(s1.core, d);
    if n + 1 < |d.log| {
      FirstSendSweeps(s1.core, d);
    }
  }

  lemma LogsOfSweep(c: Core, d: Core)
    requires Sweeps(c, d)
    ensures c.log <= d.log
  {
  }

  lemma SweptAfterPing(s: State, s1: State, now: Millis)
    requires s.core.ctx.Idle? && Buildable(s.core.sess.pubs) && Monotone(s.core.world) && now == s.core.world.clock(|s.core.log|)
    requires s1.app == s.app && s1.core == s.core.(now := now, log := s.core.log + [Ticked(now)])
    requires !Late(s.core, now) && PingDue(s.core, now) && s.app.status == Connected && s.core.connected
    ensures var o := C.PingBody(s1);
            Maintains(s, if o.r.Err? then o else C.Lift(o.s, E.Sweep(o.s.core, now)), now)
  {
    hide Buildable, E.Sweep, Sweeps, Due, AllOk, EndsBadly, SendEvent, Effect, Late, PingDue, C.PingBody;
    var n := |s.core.log|;
    PingDoes(s1);
    var e, o := SendEvent(s1.core, Pingreq), C.PingBody(s1);
    assert o.s.core.log == s.core.log + [Ticked(now), e];
    if o.r.Ok? {
      assert now <= s1.core.world.clock(n + 1) <= o.s.core.world.clock(n + 2);
      hide SendsPubrel, SendsPublish;
      SweepContract(o.s.core, now);
      var d := E.Sweep(o.s.core, now).c;
      assert AllOkFrom(o.s.core.log, n);
      SweptFrom(o.s.core, d, n);
      LogsOfSweep(o.s.core, d);
    }
  }

  /** The same for a poll call over a live connection: its maintenance starts with the call logged. */
  lemma PollMaintains(s: State)
    requires Ready(s) && s.core.connected && s.core.world.alive(|s.core.log| + 1) && Monotone(s.core.world)
    ensures var s0 := Apply(s, Called(PollOp));
            var o := C.Maintain(s0);
            && Maintains(s0, o, s.core.world.clock(|s.core.log| + 1))
            && C.Poll(s) == if o.r.Err? then C.Outcome(o.s, Err(o.r.error)) else C.ReceiveOne(o.s)
  {
    hide C.Maintain, C.ReceiveOne, Maintains;
    Step(s, Called(PollOp));
    MaintenanceContract(Apply(s, Called(PollOp)));
  }
}
