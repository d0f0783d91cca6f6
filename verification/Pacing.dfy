/** PUBREL pacing and keep-alive, under a clock that never steps back. */
module Pacing {
  import opened Mqtt
  import opened Wire
  import opened SessionModel
  import opened Machine
  import opened Control
  import opened Conformance
  import opened Connecting
  import opened Retries
  import opened Chores
  import Grammar
  import E = EngineModel
  import C = ClientModel

  /** The time of the last successful send in the log. */
  function LastSend(log: seq<Event>): Millis
    decreases |log|
  {
    if log == [] then 0
    else
      var e := log[|log| - 1];
      if e.Sent? && e.ok then e.at else LastSend(log[..|log| - 1])
  }

  lemma {:induction false} LastSentIsLastSend(s: State)
    requires Sound(s)
    ensures s.core.lastSent == LastSend(s.core.log)
    decreases |s.core.log|
  {
    if s.core.log == [] {
      AtIsSound(s, 0);
    } else {
      BeforeIsSound(s);
      LastSentIsLastSend(Before(s));
      LastSentStep(Before(s).core, Last(s));
    }
  }

  lemma LastSentStep(c: Core, e: Event)
    ensures Post(c, e).lastSent == if e.Sent? && e.ok then e.at else c.lastSent
  {
  }

  /** In any run, a PUBREL that is not the direct answer to a PUBREC goes out more than 1000 ms after
      the last packet sent before it. */
  lemma RepeatedPubrelsAreSpaced(s: State, j: nat)
    requires Sound(s) && Monotone(s.core.world) && j < |s.core.log|
    requires s.core.log[j].Sent? && s.core.log[j].packet.Pubrel?
    requires !JustArrived(s.core.log[..j])
    ensures LastSend(s.core.log[..j]) + 1000 < s.core.log[j].at
  {
    AtIsSound(s, j);
    var t := At(s, j);
    ControlHolds(t);
    LastSentIsLastSend(t);
    StampsNeverLead(t);
  }

  /** The time of the last packet received in the log. */
  function LastReceipt(log: seq<Event>): Millis
    decreases |log|
  {
    if log == [] then 0
    else
      var e := log[|log| - 1];
      if e.Arrived? || e.Greeted? then e.at else LastReceipt(log[..|log| - 1])
  }

  /** In every reachable state the two times that keep-alive goes by are those of the last successful send
      and of the last packet received; and a connected engine has the configured interval. */
  lemma {:induction false} TimesAreKept(s: State)
    requires Sound(s)
    ensures s.core.lastSent == LastSend(s.core.log) && s.core.lastRecv == LastReceipt(s.core.log)
    ensures s.core.connected || JustSentConnect(s.core.log) ==> s.core.keepAliveMs == s.core.cfg.keepAlive * 1000
    ensures LastIs(s.core.log, KeepAliveSet(s.core.cfg.keepAlive * 1000)) ==> s.core.keepAliveMs == s.core.cfg.keepAlive * 1000
    decreases |s.core.log|
  {
    hide At, GuardCore, Effect;
    LastSentIsLastSend(s);
    if s.core.log == [] {
      StartsAtZero(s);
    } else {
      var t, e := Before(s), Last(s);
      BeforeIsSound(s);
      AtIsSound(s, |s.core.log| - 1);
      TimesAreKept(t);
      GuardIsCore(t, e);
      ReceiptStep(t.core, e);
      IntervalStep(t.core, e);
    }
  }

  lemma StartsAtZero(s: State)
    requires Sound(s) && s.core.log == []
    ensures s.core.lastRecv == 0 && !s.core.connected
  {
    AtIsSound(s, 0);
  }

  lemma ReceiptStep(c: Core, e: Event)
    ensures Post(c, e).lastRecv == if e.Arrived? || e.Greeted? then e.at else c.lastRecv
  {
  }

  lemma IntervalStep(c: Core, e: Event)
    requires GuardCore(c, e)
    ensures Post(c, e).keepAliveMs == if e.KeepAliveSet? then e.ms else c.keepAliveMs
    ensures Post(c, e).connected ==> !e.KeepAliveSet? && (c.connected || JustSentConnect(c.log))
    ensures e.Sent? && e.packet.Connect? ==> LastIs(c.log, KeepAliveSet(c.cfg.keepAlive * 1000))
  {
    hide SendEvent, MayConnect;
  }

  // ---------------------------------------------------------------- no end to repeating

  predicate EndsRelease(e: Event, p: Pid) { e.Cleared? || (e.Arrived? && e.packet == Pubcomp(p)) }

  lemma OnlyPubcompEndsRelease(c: Core, e: Event, p: Pid)
    requires p in c.sess.rels
    ensures p in Post(c, e).sess.rels <==> !EndsRelease(e, p)
  {
  }

  /** A PUBREL is never given up: once recorded it stays recorded, and up for repetition, in any run
      until its PUBCOMP arrives or the session is cleared, and no longer than that. */
  lemma {:induction false} RepeatedUntilPubcomp(s: State, i: nat, k: nat, p: Pid)
    requires Sound(s) && i <= k <= |s.core.log| && p in At(s, i).core.sess.rels
    ensures (forall n :: i <= n < k ==> !EndsRelease(s.core.log[n], p)) ==> p in At(s, k).core.sess.rels
    ensures k < |s.core.log| && EndsRelease(s.core.log[k], p) ==> p !in At(s, k + 1).core.sess.rels
    decreases k
  {
    hide At, Effect;
    AtIsSound(s, k);
    if i < k {
      RepeatedUntilPubcomp(s, i, k - 1, p);
      AtIsSound(s, k - 1);
      if p in At(s, k - 1).core.sess.rels {
        OnlyPubcompEndsRelease(At(s, k - 1).core, s.core.log[k - 1], p);
      }
    }
    if k < |s.core.log| && EndsRelease(s.core.log[k], p) {
      EndedIsGone(At(s, k).core, s.core.log[k], p);
    }
  }

  lemma EndedIsGone(c: Core, e: Event, p: Pid)
    requires EndsRelease(e, p)
    ensures p !in Post(c, e).sess.rels
  {
  }

  // ---------------------------------------------------------------- one sweep

  lemma {:induction false} NoReleaseSoonAfterSend(c: Core, pids: seq<Pid>, now: Millis)
    requires c.lastSent + 1000 >= now
    ensures E.ReleaseAll(c, pids, now) == E.Step(c, Ok(()))
    decreases |pids|
  {
    if pids != [] {
      NoReleaseSoonAfterSend(c, pids[1..], now);
    }
  }

  /** However many PUBRELs were collected, a sweep sends (or attempts) at most one: after it, the
      clock reading of the sweep is no longer a second past the last send. */
  lemma {:induction false} AtMostOneRelease(c: Core, pids: seq<Pid>, now: Millis)
    requires Monotone(c.world) && now <= c.world.clock(|c.log|)
    ensures var d := E.ReleaseAll(c, pids, now).c;
            || d == c
            || (exists p :: p in pids && d == Post(c, SendEvent(c, Pubrel(p))))
    decreases |pids|
  {
    hide SendEvent;
    if pids != [] {
      if SaturatingAdd(c.lastSent, 1000) < now {
        var e := SendEvent(c, Pubrel(pids[0]));
        SendStampsNow(c, Pubrel(pids[0]));
        if e.ok {
          NoReleaseSoonAfterSend(Post(c, e), pids[1..], now);
        }
      } else {
        NoReleaseSoonAfterSend(c, pids, now);
      }
    }
  }

  /** What the PUBREL loop does: nothing when there is nothing to release or the last packet is not more
      than a second older than the reading; otherwise one PUBREL is attempted, and a failure is the
      loop's error. */
  lemma ReleaseOnce(c: Core, pids: seq<Pid>, now: Millis)
    requires Monotone(c.world) && now <= c.world.clock(|c.log|)
    ensures E.ReleaseAll(c, pids, now)
            == if pids != [] && c.lastSent + 1000 < now then E.SendPacket(c, Pubrel(pids[0])) else E.Step(c, Ok(()))
  {
    hide SendEvent;
    if pids != [] && c.lastSent + 1000 < now {
      var e := SendEvent(c, Pubrel(pids[0]));
      SendStampsNow(c, Pubrel(pids[0]));
      if e.ok {
        NoReleaseSoonAfterSend(Post(c, e), pids[1..], now);
      }
    } else if pids != [] {
      NoReleaseSoonAfterSend(c, pids, now);
    }
  }

  lemma SendStampsNow(c: Core, pk: Packet)
    ensures SendEvent(c, pk).at == c.world.clock(|c.log|)
  {
  }

  // ---------------------------------------------------------------- one poll

  /** Some packet was sent successfully between c and d. */
  predicate SentSince(c: Core, d: Core) {
    && c.log <= d.log
    && exists j :: |c.log| <= j < |d.log| && d.log[j].Sent? && d.log[j].ok
  }

  /** What the maintenance half of a poll does to the times: the last arrival stays, the last send
      moves to the poll's reading or later exactly when something was sent. */
  ghost predicate TimesOnly(c: Core, d: Core, now: Millis) {
    && c.log <= d.log && d.world == c.world && d.keepAliveMs == c.keepAliveMs && d.lastRecv == c.lastRecv
    && (d.lastSent == c.lastSent || d.lastSent >= now)
    && (SentSince(c, d) ==> d.lastSent >= now)
  }

  lemma SendTimes(c: Core, pk: Packet, now: Millis)
    requires Monotone(c.world) && now <= c.world.clock(|c.log|)
    ensures TimesOnly(c, Post(c, SendEvent(c, pk)), now)
  {
  }

  lemma TimesChain(c: Core, d: Core, f: Core, now: Millis)
    requires TimesOnly(c, d, now) && TimesOnly(d, f, now)
    ensures TimesOnly(c, f, now)
  {
  }

  lemma QuietTimes(c: Core, e: Event, now: Millis)
    requires e.Dropped? || e.Bumped?
    ensures TimesOnly(c, Post(c, e), now)
  {
  }

  lemma NowHolds(c: Core, d: Core, now: Millis)
    requires Monotone(c.world) && now <= c.world.clock(|c.log|) && TimesOnly(c, d, now)
    ensures now <= d.world.clock(|d.log|)
  {
  }

  lemma {:induction false} DropTimes(c: Core, pids: seq<Pid>, now: Millis)
    ensures TimesOnly(c, E.DropAll(c, pids), now)
    decreases |pids|
  {
    hide TimesOnly, Effect;
    if pids == [] {
      NothingTimes(c, now);
    } else {
      QuietTimes(c, Dropped(pids[0]), now);
      DropTimes(Post(c, Dropped(pids[0])), pids[1..], now);
      TimesChain(c, Post(c, Dropped(pids[0])), E.DropAll(c, pids), now);
    }
  }

  lemma NothingTimes(c: Core, now: Millis)
    ensures TimesOnly(c, c, now)
  {
  }

  lemma {:induction false} RetryTimes(c: Core, pids: seq<Pid>, now: Millis)
    requires Monotone(c.world) && now <= c.world.clock(|c.log|)
    ensures TimesOnly(c, E.RetryAll(c, pids, now).c, now)
    decreases |pids|
  {
    hide TimesOnly, E.RetryOne;
    if pids == [] {
      NothingTimes(c, now);
    } else if pids[0] !in c.sess.pubs {
      RetryTimes(c, pids[1..], now);
    } else {
      RetryOneTimes(c, pids[0], now);
      var d := E.RetryOne(c, pids[0], now);
      if d.r.Ok? {
        TimesWorld(c, d.c, now);
        NowHolds(c, d.c, now);
        RetryTimes(d.c, pids[1..], now);
        TimesChain(c, d.c, E.RetryAll(d.c, pids[1..], now).c, now);
      }
    }
  }

  lemma TimesWorld(c: Core, d: Core, now: Millis)
    requires TimesOnly(c, d, now)
    ensures d.world == c.world
  {
  }

  lemma RetryOneTimes(c: Core, p: Pid, now: Millis)
    requires Monotone(c.world) && now <= c.world.clock(|c.log|) && p in c.sess.pubs
    ensures TimesOnly(c, E.RetryOne(c, p, now).c, now)
  {
    hide TimesOnly, SendEvent, AfterSend, AfterArrival;
    var c1 := Post(c, Bumped(p, now));
    QuietTimes(c, Bumped(p, now), now);
    NowHolds(c, c1, now);
    var m := c1.sess.pubs[p];
    var r := CreatePublish(m.topic, m.qos, m.retain, m.payload, Some(p), true);
    if r.Ok? {
      SendTimes(c1, r.value, now);
      TimesChain(c, c1, Post(c1, SendEvent(c1, r.value)), now);
    }
  }

  lemma SweepPublishTimes(c: Core, now: Millis)
    requires Monotone(c.world) && now <= c.world.clock(|c.log|)
    ensures var d := E.SweepPublishes(c, now).c;
            TimesOnly(c, d, now) && now <= d.world.clock(|d.log|)
  {
    hide TimesOnly, E.DropAll, E.RetryAll, E.ToDrop, E.ToRetry;
    var order := E.PubOrder(c);
    var drop, retry := E.ToDrop(order, c.sess.pubs), E.ToRetry(order, c.sess.pubs, now);
    DropTimes(c, drop, now);
    TimesWorld(c, E.DropAll(c, drop), now);
    NowHolds(c, E.DropAll(c, drop), now);
    RetryTimes(E.DropAll(c, drop), retry, now);
    TimesChain(c, E.DropAll(c, drop), E.RetryAll(E.DropAll(c, drop), retry, now).c, now);
    TimesWorld(c, E.SweepPublishes(c, now).c, now);
    NowHolds(c, E.SweepPublishes(c, now).c, now);
  }

  /** A sweep of poll sends at most one PUBREL, although it may collect ten, and none at all if it
      has already retried a PUBLISH or if the keep-alive ping has just gone out. */
  lemma OnePubrelPerSweep(s: State, now: Millis)
    requires Monotone(s.core.world) && now <= s.core.world.clock(|s.core.log|)
    ensures var st := E.SweepPublishes(s.core, now);
            var d := E.Sweep(s.core, now).c;
            && (d == st.c || exists p :: p in E.RelBatch(st.c) && d == Post(st.c, SendEvent(st.c, Pubrel(p))))
            && (SentSince(s.core, st.c) ==> d == st.c)
            && (s.core.lastSent >= now ==> d == st.c)
  {
    hide E.SweepPublishes, E.ReleaseAll, E.RelBatch, SendEvent, SentSince;
    SweepPublishTimes(s.core, now);
    var st := E.SweepPublishes(s.core, now);
    if st.r.Ok? {
      TimesWorld(s.core, st.c, now);
      AtMostOneRelease(st.c, E.RelBatch(st.c), now);
      if SentSince(s.core, st.c) || s.core.lastSent >= now {
        NoReleaseSoonAfterSend(st.c, E.RelBatch(st.c), now);
      }
    }
  }

  // ---------------------------------------------------------------- over whole runs

  /** Between ticks the clock reading of the poll stays, and after a successful send at i the time of
      the last send is never before the clock at i. */
  lemma {:induction false} BetweenTicks(s: State, i: nat, k: nat)
    requires Sound(s) && Monotone(s.core.world) && i < k <= |s.core.log|
    requires s.core.log[i].Sent? && s.core.log[i].ok
    requires forall n :: i < n < k ==> !s.core.log[n].Ticked?
    ensures At(s, k).core.now == At(s, i).core.now
    ensures At(s, k).core.lastSent >= s.core.world.clock(i)
    decreases k
  {
    hide At, Effect, GuardCore;
    AtIsSound(s, k - 1);
    var t, e := At(s, k - 1), s.core.log[k - 1];
    GuardIsCore(t, e);
    LastSentStep(t.core, e);
    NowStep(t.core, e);
    SendIsStamped(t.core, e);
    if k > i + 1 {
      BetweenTicks(s, i, k - 1);
    }
  }

  lemma NowStep(c: Core, e: Event)
    requires !e.Ticked?
    ensures Post(c, e).now == c.now
  {
  }

  lemma SendIsStamped(c: Core, e: Event)
    requires GuardCore(c, e)
    ensures e.Sent? ==> e.at == c.world.clock(|c.log|)
  {
  }

  predicate Repeats(log: seq<Event>, j: nat) {
    j < |log| && log[j].Sent? && log[j].packet.Pubrel? && !JustArrived(log[..j])
  }

  lemma RepeatIsLate(c: Core, e: Event)
    requires CtxOk(c) && GuardCore(c, e) && e.Sent? && e.packet.Pubrel? && !JustArrived(c.log)
    ensures c.lastSent + 1000 < c.now
  {
    hide SendEvent;
  }

  /** In any run under a monotone clock, a repeated PUBREL never follows a successful send, of whatever
      packet, within the same clock reading of poll. */
  lemma TickBeforeRepeat(s: State, i: nat, j: nat)
    requires Sound(s) && Monotone(s.core.world) && i < j && Repeats(s.core.log, j)
    requires s.core.log[i].Sent? && s.core.log[i].ok
    ensures exists n :: i < n < j && s.core.log[n].Ticked?
  {
    hide At, Effect, GuardCore;
    if forall n :: i < n < j ==> !s.core.log[n].Ticked? {
      BetweenTicks(s, i, j);
      AtIsSound(s, i);
      StampsNeverLead(At(s, i));
      AtIsSound(s, j);
      ControlHolds(At(s, j));
      GuardIsCore(At(s, j), s.core.log[j]);
      RepeatIsLate(At(s, j).core, s.core.log[j]);
    }
  }

  /** From c to d the log grew without reading the clock for a poll. */
  ghost predicate NoTick(c: Core, d: Core) {
    c.log <= d.log && d.world == c.world && forall k :: |c.log| <= k < |d.log| ==> !d.log[k].Ticked?
  }

  lemma NoTickChain(c: Core, d: Core, f: Core)
    requires NoTick(c, d) && NoTick(d, f)
    ensures NoTick(c, f)
  {
  }

  lemma NoTickStep(c: Core, e: Event)
    requires !e.Ticked?
    ensures NoTick(c, Post(c, e))
  {
    hide Effect;
  }

  /** From c to d there were sends only. */
  ghost predicate OnlySends(c: Core, d: Core) {
    c.log <= d.log && d.world == c.world && forall k :: |c.log| <= k < |d.log| ==> d.log[k].Sent?
  }

  lemma {:induction false} ReleasesOnlySend(c: Core, pids: seq<Pid>, now: Millis)
    ensures OnlySends(c, E.ReleaseAll(c, pids, now).c)
    decreases |pids|
  {
    hide Effect, SendEvent;
    if pids != [] {
      ReleasesOnlySend(E.SendPacket(c, Pubrel(pids[0])).c, pids[1..], now);
      ReleasesOnlySend(c, pids[1..], now);
    }
  }

  lemma NothingDoesNotTick(c: Core)
    ensures NoTick(c, c)
  {
  }

  /** A sweep takes neither a clock reading nor a packet. */
  lemma SweepDoesNotTick(c: Core, now: Millis)
    requires c.ctx.Idle? && Buildable(c.sess.pubs)
    ensures var d := E.Sweep(c, now).c; NoTick(c, d) && Grammar.ReadsNothing(c, d)
  {
    hide E.SweepPublishes, E.ReleaseAll, E.RelBatch, EndsBadly, Buildable;
    PublishHalf(c, now);
    var f := E.SweepPublishes(c, now).c;
    ReleasesOnlySend(f, E.RelBatch(f), now);
  }

  lemma EngineReceiveDoesNotTick(c: Core)
    ensures NoTick(c, E.Receive(c).c)
  {
    hide SendEvent, Effect;
  }

  lemma ReceiveDoesNotTick(s: State)
    ensures NoTick(s.core, C.ReceiveOne(s).s.core)
  {
    hide E.Receive, Effect;
    EngineReceiveDoesNotTick(s.core);
  }

  lemma PollIsTick(s: State)
    requires s.core.connected && s.core.world.alive(|s.core.log| + 1)
    ensures var now := s.core.world.clock(|s.core.log| + 1);
            var s1 := Apply(Apply(s, Called(PollOp)), Ticked(now));
            C.Poll(s).s == AfterTick(s1, now)
  {
    hide E.Sweep, C.PingBody, C.ReceiveOne, E.KeepAliveDue, E.TimedOut, Effect;
    TickedKeepsWorld(s, s.core.world.clock(|s.core.log| + 1));
  }

  /** A poll reads its clock once, before it sends anything. */
  lemma PollTicksOnce(s: State)
    requires Ready(s) && s.core.connected && s.core.world.alive(|s.core.log| + 1)
    ensures var n, log := |s.core.log|, C.Poll(s).s.core.log;
            && s.core.log <= log && n + 1 < |log| && log[n].Called? && log[n + 1].Ticked?
            && (forall k :: n + 1 < k < |log| ==> !log[k].Ticked?)
            && C.Poll(s).s.core.world == s.core.world
  {
    hide C.Poll, AfterTick, NoTick, Ready, Buildable;
    ReadyCanBuild(s);
    var now := s.core.world.clock(|s.core.log| + 1);
    var s1 := Apply(Apply(s, Called(PollOp)), Ticked(now));
    assert s1.core.log == s.core.log + [Called(PollOp), Ticked(now)];
    PollIsTick(s);
    PollAfterTick(s1, now);
    NoTickReads(s1.core, C.Poll(s).s.core);
  }

  lemma TickedKeepsWorld(s: State, now: Millis)
    ensures var s0 := Apply(s, Called(PollOp));
            s0.core.world == s.core.world && s0.core.connected == s.core.connected
  {
  }

  lemma NoTickReads(c: Core, d: Core)
    requires NoTick(c, d)
    ensures c.log <= d.log && d.world == c.world && forall k :: |c.log| <= k < |d.log| ==> !d.log[k].Ticked?
  {
  }

  /** What follows the clock reading of a poll. */
  function AfterTick(s1: State, now: Millis): State {
    if E.TimedOut(s1.core, now) then Apply(s1, StatusSet(Status.Failed))
    else
      var o := if E.KeepAliveDue(s1.core, now) then C.PingBody(s1) else C.Outcome(s1, Ok(()));
      if o.r.Err? then o.s
      else
        var st := E.Sweep(o.s.core, now);
        if st.r.Err? then C.Lift(o.s, st).s else C.ReceiveOne(C.Lift(o.s, st).s).s
  }

  lemma PollAfterTick(s1: State, now: Millis)
    requires s1.core.ctx.Idle? && Buildable(s1.core.sess.pubs)
    ensures NoTick(s1.core, AfterTick(s1, now).core)
  {
    hide E.Sweep, C.PingBody, C.ReceiveOne, E.KeepAliveDue, E.TimedOut, Effect, NoTick;
    NoTickStep(s1.core, StatusSet(Status.Failed));
    NothingDoesNotTick(s1.core);
    PingKeepsSession(s1);
    PingDoesNotTick(s1);
    var o := if E.KeepAliveDue(s1.core, now) then C.PingBody(s1) else C.Outcome(s1, Ok(()));
    var t := C.Lift(o.s, E.Sweep(o.s.core, now)).s;
    SweepDoesNotTick(o.s.core, now);
    NoTickChain(s1.core, o.s.core, t.core);
    ReceiveDoesNotTick(t);
    NoTickChain(s1.core, t.core, C.ReceiveOne(t).s.core);
  }

  lemma PingDoesNotTick(s: State)
    ensures NoTick(s.core, C.PingBody(s).s.core)
  {
    hide SendEvent, Effect;
  }

  /** One poll repeats at most one PUBREL, although its sweep may collect ten, and none at all after a
      PINGREQ, a PUBLISH retry or any other packet that went out successfully earlier in the same
      poll: any other PUBREL of that poll directly answers the PUBREC it received. */
  lemma OneRepeatPerPoll(s: State, i: nat, j: nat)
    requires Ready(s) && Monotone(s.core.world) && |s.core.log| <= i < j
    ensures var log := C.Poll(s).s.core.log;
            j < |log| && log[i].Sent? && log[i].ok ==> !Repeats(log, j)
  {
    hide C.Poll, Effect, Guard, GuardCore;
    var t := C.Poll(s).s;
    PollConforms(s);
    ControlHolds(s);
    if s.core.connected && s.core.world.alive(|s.core.log| + 1) {
      PollTicksOnce(s);
      if j < |t.core.log| && t.core.log[i].Sent? && t.core.log[i].ok && Repeats(t.core.log, j) {
        TickBeforeRepeat(t, i, j);
      }
    } else {
      LostPollIsSilent(s);
    }
  }

  lemma LostPollIsSilent(s: State)
    requires Ready(s) && !(s.core.connected && s.core.world.alive(|s.core.log| + 1))
    ensures Grammar.SendsNothing(s.core, C.Poll(s).s.core) && Grammar.ReadsNothing(s.core, C.Poll(s).s.core)
    ensures C.Poll(s).r == Ok(None) || C.Poll(s).r == Ok(Some(ClientEvent.Disconnected))
  {
    hide C.ConnectBody, C.PollBody;
    ControlHolds(s);
    if s.app.status == Connected {
      Grammar.PollCannotReconnect(s);
    }
  }

  /** When a poll gets as far as receiving, keep-alive has been seen to: with an interval set, the
      last packet went out less than one interval before the poll's clock reading, and the last one
      came in less than one and a half intervals before it. */
  lemma ReceivingMeansAlive(s: State)
    requires Sound(s) && Monotone(s.core.world) && s.core.keepAliveMs != 0
    requires C.Maintain(s).r.Ok?
    ensures var now, d := s.core.world.clock(|s.core.log|), C.Maintain(s).s.core;
            && Elapsed(now, d.lastSent) < d.keepAliveMs
            && 2 * Elapsed(now, d.lastRecv) < 3 * d.keepAliveMs
  {
    hide E.Sweep, SendEvent;
    var now := s.core.world.clock(|s.core.log|);
    var s1 := Apply(s, Ticked(now));
    var o := if E.KeepAliveDue(s1.core, now) then C.PingBody(s1) else C.Outcome(s1, Ok(()));
    assert now <= s1.core.world.clock(|s1.core.log|);
    if E.KeepAliveDue(s1.core, now) {
      SendTimes(s1.core, Pingreq, now);
      PingStamps(s1, now);
    }
    SweepTimes(o.s.core, now);
  }

  lemma PingStamps(s: State, now: Millis)
    requires Monotone(s.core.world) && now <= s.core.world.clock(|s.core.log|) && C.PingBody(s).r.Ok?
    ensures C.PingBody(s).s.core.lastSent >= now
    ensures now <= C.PingBody(s).s.core.world.clock(|C.PingBody(s).s.core.log|)
  {
  }

  lemma SweepTimes(c: Core, now: Millis)
    requires Monotone(c.world) && now <= c.world.clock(|c.log|)
    ensures TimesOnly(c, E.Sweep(c, now).c, now)
  {
    hide TimesOnly, E.SweepPublishes, E.ReleaseAll, E.RelBatch, SendEvent, Post;
    SweepPublishTimes(c, now);
    var st := E.SweepPublishes(c, now);
    if st.r.Ok? {
      TimesWorld(c, st.c, now);
      AtMostOneRelease(st.c, E.RelBatch(st.c), now);
      var d := E.ReleaseAll(st.c, E.RelBatch(st.c), now).c;
      if d != st.c {
        var p :| d == Post(st.c, SendEvent(st.c, Pubrel(p)));
        SendTimes(st.c, Pubrel(p), now);
        TimesChain(c, st.c, d, now);
      }
    }
  }
}
