/** The retry sweep: its result does not depend on the order in which the hash table yields the
    messages, and retrying ends. */
module Retries {
  import opened Mqtt
  import opened Wire
  import opened SessionModel
  import opened Machine
  import opened Control
  import opened Conformance
  import E = EngineModel
  import C = ClientModel

  // ---------------------------------------------------------------- one sweep

  /** The messages whose retries are used up, whatever their age. */
  function Spent(pubs: map<Pid, Inflight>): set<Pid> { set p | p in pubs && pubs[p].retryCount >= 3 }

  /** The messages to be sent again. */
  function Due(pubs: map<Pid, Inflight>, now: Millis): set<Pid> {
    set p | p in pubs && pubs[p].retryCount < 3 && Elapsed(now, pubs[p].timestamp) >= 5000
  }

  /** What a sweep is meant to do, message by message: forget the spent, count and restamp the due,
      leave the others alone. */
  function Swept(pubs: map<Pid, Inflight>, now: Millis): map<Pid, Inflight> {
    map p | p in pubs && p !in Spent(pubs) ::
      if p in Due(pubs, now) then pubs[p].(retryCount := pubs[p].retryCount + 1, timestamp := now) else pubs[p]
  }

  /** Events i and i + 1 count a retry of p and send it successfully as a duplicate of m. */
  predicate RetriedAt(log: seq<Event>, i: nat, p: Pid, m: Inflight, now: Millis) {
    && i + 1 < |log|
    && log[i] == Bumped(p, now)
    && var e := log[i + 1];
       e.Sent? && e.ok && e.packet.Publish? && e.packet.dup && Carries(e.packet, p, m)
  }

  /** From event n on, the log retries exactly the given messages, once each. */
  predicate RetriesOnce(log: seq<Event>, n: nat, pubs: map<Pid, Inflight>, pids: seq<Pid>, now: Millis) {
    && |log| == n + 2 * |pids|
    && forall k :: 0 <= k < |pids| ==> pids[k] in pubs && RetriedAt(log, n + 2 * k, pids[k], pubs[pids[k]], now)
  }

  /** From event n on, the log drops the given messages, in this order. */
  predicate DropsOnce(log: seq<Event>, n: nat, pids: seq<Pid>) {
    n + |pids| <= |log| && forall k :: 0 <= k < |pids| ==> log[n + k] == Dropped(pids[k])
  }

  lemma RetriesOneMore(log: seq<Event>, n: nat, pubs: map<Pid, Inflight>, pids: seq<Pid>, now: Millis, later: map<Pid, Inflight>)
    requires pids != [] && pids[0] in pubs && RetriedAt(log, n, pids[0], pubs[pids[0]], now)
    requires RetriesOnce(log, n + 2, later, pids[1..], now)
    requires forall p :: p in pids[1..] ==> p in pubs && p in later && later[p] == pubs[p]
    ensures RetriesOnce(log, n, pubs, pids, now)
  {
  }

  function BumpSome(pubs: map<Pid, Inflight>, some: set<Pid>, now: Millis): map<Pid, Inflight> {
    map p | p in pubs :: if p in some then Bump(pubs[p], now) else pubs[p]
  }

  lemma RetryOneRetries(c: Core, p: Pid, now: Millis)
    requires !c.ctx.Owing? && p in c.sess.pubs
    ensures var st := E.RetryOne(c, p, now);
            st.r.Ok? ==>
              && |st.c.log| == |c.log| + 2 && c.log <= st.c.log
              && RetriedAt(st.c.log, |c.log|, p, c.sess.pubs[p], now)
              && !st.c.ctx.Owing?
              && st.c.sess == c.sess.(pubs := c.sess.pubs[p := Bump(c.sess.pubs[p], now)])
  {
    hide SendEvent;
  }

  lemma {:induction false} RetryAllRetries(c: Core, pids: seq<Pid>, now: Millis)
    requires Distinct(pids) && !c.ctx.Owing? && forall p :: p in pids ==> p in c.sess.pubs
    ensures var st := E.RetryAll(c, pids, now);
            st.r.Ok? ==>
              && RetriesOnce(st.c.log, |c.log|, c.sess.pubs, pids, now)
              && c.log <= st.c.log
              && !st.c.ctx.Owing?
              && st.c.sess == c.sess.(pubs := BumpSome(c.sess.pubs, Elems(pids), now))
    decreases |pids|
  {
    hide E.RetryOne, RetriesOnce, RetriedAt;
    if pids == [] {
      RetriesNone(c, now);
      assert BumpSome(c.sess.pubs, Elems([]), now) == c.sess.pubs;
    } else {
      var p, rest := pids[0], pids[1..];
      RetryOneRetries(c, p, now);
      var c2 := E.RetryOne(c, p, now).c;
      if E.RetryOne(c, p, now).r.Ok? {
        RetryAllRetries(c2, rest, now);
        var st := E.RetryAll(c2, rest, now);
        if st.r.Ok? {
          RetriedLater(c2.log, st.c.log, |c.log|, p, c.sess.pubs[p], now);
          RetriesOneMore(st.c.log, |c.log|, c.sess.pubs, pids, now, c2.sess.pubs);
          assert Elems(pids) == Elems(rest) + {p} && p !in Elems(rest);
          assert BumpSome(c2.sess.pubs, Elems(rest), now) == BumpSome(c.sess.pubs, Elems(pids), now);
        }
      }
    }
  }

  lemma RetriedLater(log: seq<Event>, later: seq<Event>, i: nat, p: Pid, m: Inflight, now: Millis)
    requires log <= later && RetriedAt(log, i, p, m, now)
    ensures RetriedAt(later, i, p, m, now)
  {
  }

  lemma RetriesNone(c: Core, now: Millis)
    ensures E.RetryAll(c, [], now) == E.Step(c, Ok(()))
    ensures RetriesOnce(c.log, |c.log|, c.sess.pubs, [], now)
  {
  }

  lemma {:induction false} DropAllDrops(c: Core, pids: seq<Pid>)
    requires Distinct(pids)
    ensures var d := E.DropAll(c, pids);
            && d.log == c.log + seq(|pids|, i requires 0 <= i < |pids| => Dropped(pids[i]))
            && d == c.(sess := c.sess.(pubs := c.sess.pubs - Elems(pids)), log := d.log)
    decreases |pids|
  {
    if pids == [] {
      assert c.sess.pubs - Elems([]) == c.sess.pubs;
    } else {
      var c1 := Post(c, Dropped(pids[0]));
      DropAllDrops(c1, pids[1..]);
      assert Elems(pids) == {pids[0]} + Elems(pids[1..]);
      assert c1.sess.pubs - Elems(pids[1..]) == c.sess.pubs - Elems(pids);
    }
  }

  /** Whatever order the hash table yields the pending messages in, a successful collect-drop-retry
      pass leaves the session as the pointwise sweep says, and its log is one drop for each spent
      message and then one counted and successfully sent duplicate PUBLISH for each due message. */
  lemma SweepIsPointwise(c: Core, now: Millis)
    requires !c.ctx.Owing? && E.SweepPublishes(c, now).r.Ok?
    ensures var d, order := E.SweepPublishes(c, now).c, E.PubOrder(c);
            var drop, retry := E.ToDrop(order, c.sess.pubs), E.ToRetry(order, c.sess.pubs, now);
            && d.sess == c.sess.(pubs := Swept(c.sess.pubs, now))
            && Distinct(drop) && Elems(drop) == Spent(c.sess.pubs)
            && Distinct(retry) && Elems(retry) == Due(c.sess.pubs, now)
            && DropsOnce(d.log, |c.log|, drop)
            && RetriesOnce(d.log, |c.log| + |drop|, c.sess.pubs, retry, now)
  {
    hide E.RetryAll, E.DropAll, E.ToDrop, E.ToRetry, E.PubOrder, Swept, RetriesOnce, DropsOnce, Distinct;
    var pubs, order := c.sess.pubs, E.PubOrder(c);
    var drop, retry := E.ToDrop(order, pubs), E.ToRetry(order, pubs, now);
    assert Elems(drop) == Spent(pubs);
    assert Elems(retry) == Due(pubs, now);
    assert E.SweepPublishes(c, now) == E.RetryAll(E.DropAll(c, drop), retry, now);
    hide E.SweepPublishes, Elems, Spent, Due;
    DropsThenRetries(c, drop, retry, now);
  }

  lemma DropsThenRetries(c: Core, drop: seq<Pid>, retry: seq<Pid>, now: Millis)
    requires !c.ctx.Owing? && E.RetryAll(E.DropAll(c, drop), retry, now).r.Ok?
    requires Distinct(drop) && Elems(drop) == Spent(c.sess.pubs)
    requires Distinct(retry) && Elems(retry) == Due(c.sess.pubs, now)
    ensures var d := E.RetryAll(E.DropAll(c, drop), retry, now).c;
            && d.sess == c.sess.(pubs := Swept(c.sess.pubs, now))
            && DropsOnce(d.log, |c.log|, drop)
            && RetriesOnce(d.log, |c.log| + |drop|, c.sess.pubs, retry, now)
  {
    hide E.RetryAll, E.DropAll, BumpSome, Swept, RetriesOnce, Distinct;
    var pubs := c.sess.pubs;
    DropAllDrops(c, drop);
    var c1 := E.DropAll(c, drop);
    forall p | p in retry ensures p in c1.sess.pubs {
      assert p in Elems(retry) && p !in Elems(drop);
    }
    RetryAllRetries(c1, retry, now);
    var d := E.RetryAll(c1, retry, now).c;
    BumpRemainingIsSwept(pubs, Elems(drop), Elems(retry), now);
    KeptRetries(d.log, |c.log| + |drop|, pubs, c1.sess.pubs, retry, now);
    forall k | 0 <= k < |drop| ensures d.log[|c.log| + k] == Dropped(drop[k]) {
      assert c1.log[|c.log| + k] == Dropped(drop[k]);
    }
  }

  lemma BumpRemainingIsSwept(pubs: map<Pid, Inflight>, drop: set<Pid>, retry: set<Pid>, now: Millis)
    requires drop == Spent(pubs)
    requires retry == Due(pubs, now)
    ensures BumpSome(pubs - drop, retry, now) == Swept(pubs, now)
  {
  }

  lemma KeptRetries(log: seq<Event>, n: nat, pubs: map<Pid, Inflight>, kept: map<Pid, Inflight>, pids: seq<Pid>, now: Millis)
    requires RetriesOnce(log, n, kept, pids, now)
    requires forall p :: p in kept ==> p in pubs && pubs[p] == kept[p]
    ensures RetriesOnce(log, n, pubs, pids, now)
  {
  }

  lemma {:induction false} ReleasesKeepSession(c: Core, pids: seq<Pid>, now: Millis)
    requires !c.ctx.Owing?
    ensures var st := E.ReleaseAll(c, pids, now); st.c.sess == c.sess && !st.c.ctx.Owing?
    decreases |pids|
  {
    hide SendEvent;
    if pids != [] {
      if SaturatingAdd(c.lastSent, 1000) < now {
        ReleasesKeepSession(Post(c, SendEvent(c, Pubrel(pids[0]))), pids[1..], now);
      } else {
        ReleasesKeepSession(c, pids[1..], now);
      }
    }
  }

  // ---------------------------------------------------------------- the measure

  /** How many sweeps a message can still take part in. */
  function Left(m: Inflight): nat { if m.retryCount <= 3 then 4 - m.retryCount else 0 }

  ghost function Weight(pubs: map<Pid, Inflight>): nat
    decreases |pubs|
  {
    if pubs == map[] then 0
    else
      var p :| p in pubs;
      assert |pubs - {p}| < |pubs| by { Smaller(pubs, p); }
      Left(pubs[p]) + Weight(pubs - {p})
  }

  lemma Smaller(pubs: map<Pid, Inflight>, p: Pid)
    requires p in pubs
    ensures |pubs - {p}| == |pubs| - 1
  {
  }

  lemma {:induction false} WeightSplits(pubs: map<Pid, Inflight>, p: Pid)
    requires p in pubs
    ensures Weight(pubs) == Left(pubs[p]) + Weight(pubs - {p})
    decreases |pubs|
  {
    var q :| q in pubs && Weight(pubs) == Left(pubs[q]) + Weight(pubs - {q});
    if q != p {
      Smaller(pubs, q);
      WeightSplits(pubs - {q}, p);
      Smaller(pubs, p);
      WeightSplits(pubs - {p}, q);
      assert pubs - {q} - {p} == pubs - {p} - {q};
    }
  }

  lemma WeightWithout(pubs: map<Pid, Inflight>, p: Pid)
    ensures Weight(pubs - {p}) <= Weight(pubs)
    ensures p in pubs && pubs[p].retryCount <= 3 ==> Weight(pubs - {p}) < Weight(pubs)
  {
    if p in pubs {
      WeightSplits(pubs, p);
    } else {
      assert pubs - {p} == pubs;
    }
  }

  lemma WeightBumped(pubs: map<Pid, Inflight>, p: Pid, now: Millis)
    requires p in pubs && pubs[p].retryCount < 3
    ensures Weight(pubs[p := Bump(pubs[p], now)]) < Weight(pubs)
  {
    var later := pubs[p := Bump(pubs[p], now)];
    WeightSplits(pubs, p);
    WeightSplits(later, p);
    assert later - {p} == pubs - {p};
  }

  predicate Retires(e: Event) { e.Bumped? || e.Dropped? }

  lemma ArrivalTakesOne(c: Core, pk: Packet, at: Millis)
    ensures var d := Post(c, Arrived(pk, at)).sess.pubs;
            || d == c.sess.pubs
            || ((pk.Puback? || pk.Pubrec? || pk.Pubcomp?) && d == c.sess.pubs - {pk.pid})
  {
  }

  lemma OthersKeepPending(c: Core, e: Event)
    requires !e.Stored? && !e.Dropped? && !e.Bumped? && !e.Arrived? && !e.Cleared?
    ensures Post(c, e).sess.pubs == c.sess.pubs
  {
  }

  /** Nothing but accepting a message adds weight, and every retry and every drop takes some away. */
  lemma StepSpendsWeight(s: State, e: Event)
    requires InControl(s) && GuardCore(s.core, e) && !e.Stored?
    ensures Weight(Post(s.core, e).sess.pubs) + (if Retires(e) then 1 else 0) <= Weight(s.core.sess.pubs)
  {
    hide SendEvent, Weight, AfterArrival, AfterSend, MaySend;
    var pubs := s.core.sess.pubs;
    match e
    case Dropped(p) => WeightWithout(pubs, p);
    case Bumped(p, now) => WeightBumped(pubs, p, now);
    case Arrived(pk, at) =>
      ArrivalTakesOne(s.core, pk, at);
      if pk.Puback? || pk.Pubrec? || pk.Pubcomp? {
        WeightWithout(pubs, pk.pid);
      }
    case Cleared => NoWeight();
    case _ => OthersKeepPending(s.core, e);
  }

  lemma NoWeight()
    ensures Weight(map[]) == 0
  {
  }

  /** Retries and drops in the log from event n on. */
  function Retirements(log: seq<Event>, n: nat): nat
    decreases |log|
  {
    if |log| <= n then 0
    else Retirements(log[..|log| - 1], n) + if Retires(log[|log| - 1]) then 1 else 0
  }

  /** While nothing is accepted, whatever else happens, the retries and drops from event n on are
      paid for by the weight of what was pending then: retrying ends. */
  lemma {:induction false} RetryingEnds(s: State, n: nat)
    requires Sound(s) && n <= |s.core.log|
    requires forall k :: n <= k < |s.core.log| ==> !s.core.log[k].Stored?
    ensures Weight(s.core.sess.pubs) + Retirements(s.core.log, n) <= Weight(At(s, n).core.sess.pubs)
    decreases |s.core.log|
  {
    hide Weight, Effect, Guard;
    if n == |s.core.log| {
      AtIsSound(s, n);
    } else {
      var t := Before(s);
      BeforeIsSound(s);
      assert t.core.log[..n] == s.core.log[..n];
      RetryingEnds(t, n);
      ControlHolds(t);
      GuardIsCore(t, Last(s));
      StepSpendsWeight(t, Last(s));
    }
  }

  // ---------------------------------------------------------------- four sweeps

  /** Every pending message has been counted k times, and once more if its stamp is later than t. */
  predicate Aged(pubs: map<Pid, Inflight>, k: nat, t: Millis) {
    forall p :: p in pubs ==> pubs[p].retryCount >= k && (pubs[p].timestamp > t ==> pubs[p].retryCount >= k + 1)
  }

  /** Every stamp is at least 5000 ms before now. */
  predicate OldEnough(pubs: map<Pid, Inflight>, now: Millis) { forall p :: p in pubs ==> pubs[p].timestamp + 5000 <= now }

  predicate NoStampAfter(pubs: map<Pid, Inflight>, now: Millis) {
    forall p :: p in pubs ==> pubs[p].timestamp <= now
  }

  lemma StepKeepsAged(c: Core, e: Event, k: nat, t: Millis)
    requires GuardCore(c, e) && !e.Stored? && Aged(c.sess.pubs, k, t)
    ensures Aged(Post(c, e).sess.pubs, k, t)
  {
    hide SendEvent;
  }

  lemma {:induction false} RunKeepsAged(s: State, n: nat, m: nat, k: nat, t: Millis)
    requires Sound(s) && n <= m <= |s.core.log|
    requires forall j :: n <= j < m ==> !s.core.log[j].Stored?
    requires Aged(At(s, n).core.sess.pubs, k, t)
    ensures Aged(At(s, m).core.sess.pubs, k, t)
    decreases m
  {
    hide At, Effect, Guard, GuardCore, Aged;
    if n < m {
      RunKeepsAged(s, n, m - 1, k, t);
      AtIsSound(s, m - 1);
      GuardIsCore(At(s, m - 1), s.core.log[m - 1]);
      StepKeepsAged(At(s, m - 1).core, s.core.log[m - 1], k, t);
    }
  }

  /** Between events a and b of the run a sweep with clock reading now has been made of the pending
      messages, none of which carried a later stamp. */
  ghost predicate SweptBetween(s: State, a: nat, b: nat, now: Millis) {
    && a <= b <= |s.core.log|
    && NoStampAfter(At(s, a).core.sess.pubs, now)
    && At(s, b).core.sess.pubs == Swept(At(s, a).core.sess.pubs, now)
  }

  lemma SweepLeavesSwept(c: Core, now: Millis)
    requires !c.ctx.Owing? && E.Sweep(c, now).r.Ok?
    ensures E.Sweep(c, now).c.sess.pubs == Swept(c.sess.pubs, now)
  {
    hide E.SweepPublishes, E.ReleaseAll;
    SweepIsPointwise(c, now);
    SweepKeepsNotOwing(c, now);
    var st := E.SweepPublishes(c, now);
    ReleasesKeepSession(st.c, E.RelBatch(st.c), now);
  }

  lemma SweepKeepsNotOwing(c: Core, now: Millis)
    requires !c.ctx.Owing? && E.SweepPublishes(c, now).r.Ok?
    ensures !E.SweepPublishes(c, now).c.ctx.Owing?
  {
    hide E.RetryAll, E.DropAll, E.ToDrop, E.ToRetry;
    var order := E.PubOrder(c);
    var drop, retry := E.ToDrop(order, c.sess.pubs), E.ToRetry(order, c.sess.pubs, now);
    DropAllDrops(c, drop);
    RetryAllRetries(E.DropAll(c, drop), retry, now);
  }

  lemma SweepAges(pubs: map<Pid, Inflight>, k: nat, t: Millis, now: Millis)
    requires Aged(pubs, k, t) && NoStampAfter(pubs, now) && now >= t + 5000
    ensures Aged(Swept(pubs, now), k + 1, now)
    ensures k >= 3 ==> Swept(pubs, now) == map[]
  {
  }

  lemma FirstSweepAges(pubs: map<Pid, Inflight>, now: Millis)
    requires OldEnough(pubs, now)
    ensures Aged(Swept(pubs, now), 1, now)
  {
  }

  lemma AnotherSweepAges(s: State, b0: nat, a: nat, b: nat, k: nat, t: Millis, now: Millis)
    requires Sound(s) && b0 <= a && SweptBetween(s, a, b, now) && now >= t + 5000
    requires forall j :: b0 <= j < a ==> !s.core.log[j].Stored?
    requires Aged(At(s, b0).core.sess.pubs, k, t)
    ensures Aged(At(s, b).core.sess.pubs, k + 1, now)
    ensures k >= 3 ==> At(s, b).core.sess.pubs == map[]
  {
    hide At, Aged, Swept;
    RunKeepsAged(s, b0, a, k, t);
    SweepAges(At(s, a).core.sess.pubs, k, t, now);
  }

  /** Any four sweeps at least 5000 ms apart, the first of them at least 5000 ms after the newest stamp
      and none with a reading behind a stamp, empty the store of pending messages, provided nothing is
      accepted meanwhile, whatever else happens between them: acknowledgments, failing sweeps, resumes,
      reconnects. */
  lemma FourSweepsDrain(s: State, a: seq<nat>, b: seq<nat>, t: seq<Millis>)
    requires Sound(s) && |a| == |b| == |t| == 4
    requires forall k :: 0 <= k < 4 ==> a[k] <= b[k] <= |s.core.log| && SweptBetween(s, a[k], b[k], t[k])
    requires forall k :: 0 <= k < 3 ==> b[k] <= a[k + 1] && t[k] as int + 5000 <= t[k + 1] as int
    requires OldEnough(At(s, a[0]).core.sess.pubs, t[0])
    requires forall j :: a[0] <= j < b[3] ==> !s.core.log[j].Stored?
    ensures At(s, b[3]).core.sess.pubs == map[]
  {
    hide At, Aged, Swept, OldEnough;
    FirstSweepAges(At(s, a[0]).core.sess.pubs, t[0]);
    AnotherSweepAges(s, b[0], a[1], b[1], 1, t[0], t[1]);
    AnotherSweepAges(s, b[1], a[2], b[2], 2, t[1], t[2]);
    AnotherSweepAges(s, b[2], a[3], b[3], 3, t[2], t[3]);
  }

  // ---------------------------------------------------------------- stamps and a monotone clock

  ghost predicate Monotone(w: World) {
    forall i: nat, j: nat :: i <= j ==> w.clock(i) <= w.clock(j)
  }

  /** With a clock that never steps back, no stamp is ahead of the next reading; in particular every
      sweep of poll reads a time that no pending stamp exceeds. */
  lemma {:induction false} StampsNeverLead(s: State)
    requires Sound(s) && Monotone(s.core.world)
    ensures NoStampAfter(s.core.sess.pubs, s.core.world.clock(|s.core.log|))
    ensures s.core.now <= s.core.world.clock(|s.core.log|)
    decreases |s.core.log|
  {
    if s.core.log == [] {
      AtIsSound(s, 0);
    } else {
      BeforeIsSound(s);
      StampsNeverLead(Before(s));
      StepKeepsStamps(Before(s).core, Last(s));
    }
  }

  lemma StepKeepsStamps(c: Core, e: Event)
    requires GuardCore(c, e) && Monotone(c.world)
    requires NoStampAfter(c.sess.pubs, c.world.clock(|c.log|)) && c.now <= c.world.clock(|c.log|)
    ensures var d := Post(c, e);
            NoStampAfter(d.sess.pubs, c.world.clock(|d.log|)) && d.now <= c.world.clock(|d.log|)
  {
    hide SendEvent;
    assert c.world.clock(|c.log|) <= c.world.clock(|c.log| + 1);
  }

  /** So the sweep of a poll meets the stamp condition of FourSweepsDrain. */
  lemma PollSweepsAfterAllStamps(s: State)
    requires Ready(s) && Monotone(s.core.world) && s.core.connected
    ensures var now := s.core.world.clock(|s.core.log|);
            var s1 := Apply(s, Ticked(now));
            && NoStampAfter(s1.core.sess.pubs, now)
            && NoStampAfter(C.PingBody(s1).s.core.sess.pubs, now)
  {
    hide SendEvent;
    StampsNeverLead(s);
  }

  lemma PingKeepsSession(s: State)
    requires s.core.ctx.Idle?
    ensures var d := C.PingBody(s).s.core; d.sess == s.core.sess && d.ctx.Idle?
  {
    hide SendEvent;
  }

  /** A poll that gets as far as receiving has swept: what is pending then is what the pointwise rule
      makes of what was pending when poll was called, whether or not a ping went out first. */
  lemma MaintenanceSweeps(s: State)
    requires Ready(s) && C.Maintain(s).r.Ok?
    ensures C.Maintain(s).s.core.sess.pubs == Swept(s.core.sess.pubs, s.core.world.clock(|s.core.log|))
  {
    hide SendEvent, E.Sweep, C.PingBody, Swept, Sound;
    var now := s.core.world.clock(|s.core.log|);
    var s1 := Apply(s, Ticked(now));
    PingKeepsSession(s1);
    var o := if E.KeepAliveDue(s1.core, now) then C.PingBody(s1) else C.Outcome(s1, Ok(()));
    SweepLeavesSwept(o.s.core, now);
  }

  // ---------------------------------------------------------------- four polls

  /** A poll called after event a of the run over a live connection gets as far as receiving, at event b. */
  ghost predicate PollReaches(s: State, a: nat, b: nat) {
    && a < b <= |s.core.log|
    && Ready(At(s, a)) && At(s, a).core.connected && s.core.world.alive(a + 1)
    && var o := C.Maintain(Apply(At(s, a), Called(PollOp)));
       o.r.Ok? && At(s, b) == o.s
  }

  /** Such a poll sweeps, with the clock reading after a. */
  lemma PollSweeps(s: State, a: nat, b: nat)
    requires Sound(s) && Monotone(s.core.world) && a < b <= |s.core.log|
    ensures PollReaches(s, a, b) ==> SweptBetween(s, a, b, s.core.world.clock(a + 1))
  {
    hide At, Swept, C.Maintain;
    if PollReaches(s, a, b) {
      AtIsSound(s, a);
      var t := Apply(At(s, a), Called(PollOp));
      Step(At(s, a), Called(PollOp));
      MaintenanceSweeps(t);
      StampsNeverLead(t);
    }
  }

  /** And it does receive at b. */
  lemma PollReceives(s: State, a: nat, b: nat)
    requires Sound(s) && a < b <= |s.core.log|
    ensures PollReaches(s, a, b) ==> C.Poll(At(s, a)) == C.ReceiveOne(At(s, b))
  {
    hide At, C.Maintain, C.ReceiveOne;
    if PollReaches(s, a, b) {
      AtIsSound(s, a);
    }
  }

  /** Four polls that get as far as receiving, at least 5000 ms apart by a clock that never steps back and
      the first at least 5000 ms after the newest stamp, leave nothing pending when the fourth receives,
      provided nothing is accepted meanwhile. */
  lemma FourPollsDrain(s: State, a: seq<nat>, b: seq<nat>, t: seq<Millis>)
    requires Sound(s) && Monotone(s.core.world) && |a| == |b| == |t| == 4
    requires forall k :: 0 <= k < 4 ==>
               a[k] < b[k] <= |s.core.log| && PollReaches(s, a[k], b[k]) && t[k] == s.core.world.clock(a[k] + 1)
    requires forall k :: 0 <= k < 3 ==> b[k] <= a[k + 1] && t[k] as int + 5000 <= t[k + 1] as int
    requires OldEnough(At(s, a[0]).core.sess.pubs, t[0])
    requires forall j :: a[0] <= j < b[3] ==> !s.core.log[j].Stored?
    ensures At(s, b[3]).core.sess.pubs == map[]
  {
    hide At, SweptBetween, PollReaches, Monotone, OldEnough;
    forall k | 0 <= k < 4 ensures a[k] <= b[k] <= |s.core.log| && SweptBetween(s, a[k], b[k], t[k]) {
      PollSweeps(s, a[k], b[k]);
    }
    FourSweepsDrain(s, a, b, t);
  }
}
