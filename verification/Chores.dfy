/** What the parts of the retry sweep put into the log, and when they fail. */
module Chores {
  import opened Mqtt
  import opened SessionModel
  import opened Machine
  import opened Connecting
  import opened Retries
  import Grammar
  import E = EngineModel

  /** A step of the PUBLISH half of the sweep. */
  predicate PublishChore(e: Event) { e.Dropped? || e.Bumped? || (e.Sent? && e.packet.Publish?) }

  /** From c to d nothing was logged but such steps. */
  ghost predicate OnlyPublishes(c: Core, d: Core) {
    && c.log <= d.log && d.world == c.world && d.cfg == c.cfg
    && forall k :: |c.log| <= k < |d.log| ==> PublishChore(d.log[k])
  }

  /** Every send from c to d succeeded. */
  predicate AllOk(c: Core, d: Core) {
    forall k :: |c.log| <= k < |d.log| && d.log[k].Sent? ==> d.log[k].ok
  }

  /** The last step is a send that failed, and r is its error. */
  predicate EndsBadly(d: Core, r: Result<()>) {
    && |d.log| > 0
    && var e := d.log[|d.log| - 1];
       e.Sent? && !e.ok && r == Err(SendError(d.cfg, e.packet))
  }

  lemma OnlyPublishesChain(c: Core, d: Core, f: Core)
    requires OnlyPublishes(c, d) && OnlyPublishes(d, f)
    ensures OnlyPublishes(c, f)
    ensures AllOk(c, f) <==> AllOk(c, d) && AllOk(d, f)
  {
    assert forall k :: |c.log| <= k < |d.log| ==> f.log[k] == d.log[k];
  }

  lemma {:induction false} DropsLog(c: Core, pids: seq<Pid>)
    ensures var d := E.DropAll(c, pids);
            && OnlyPublishes(c, d) && Grammar.SendsNothing(c, d)
            && d == c.(sess := c.sess.(pubs := d.sess.pubs), log := d.log)
            && d.sess.pubs.Keys == c.sess.pubs.Keys - Elems(pids)
            && (forall p :: p in d.sess.pubs ==> d.sess.pubs[p] == c.sess.pubs[p])
    decreases |pids|
  {
    hide SendEvent;
    if pids != [] {
      DropsLog(Post(c, Dropped(pids[0])), pids[1..]);
      assert Elems(pids) == {pids[0]} + Elems(pids[1..]);
    }
  }

  lemma RetryLogs(c: Core, p: Pid, now: Millis)
    requires p in c.sess.pubs && Buildable(c.sess.pubs) && !c.ctx.Owing?
    ensures var st, n := E.RetryOne(c, p, now), |c.log|;
            && OnlyPublishes(c, st.c) && |st.c.log| == n + 2
            && st.c.log[n] == Bumped(p, now)
            && st.c.log[n + 1].Sent? && st.c.log[n + 1].packet.dup && Carries(st.c.log[n + 1].packet, p, c.sess.pubs[p])
            && (st.r.Ok? <==> st.c.log[n + 1].ok)
            && (st.r.Err? ==> EndsBadly(st.c, st.r))
            && st.c.sess == c.sess.(pubs := c.sess.pubs[p := Bump(c.sess.pubs[p], now)])
            && Buildable(st.c.sess.pubs) && !st.c.ctx.Owing?
  {
    hide SendEvent;
  }

  lemma NothingIsOk(c: Core)
    ensures OnlyPublishes(c, c) && AllOk(c, c)
  {
  }

  /** The retry loop fails if and only if one of its sends does, and then stops right there. */
  lemma {:induction false} RetriesLog(c: Core, pids: seq<Pid>, now: Millis)
    requires Buildable(c.sess.pubs) && !c.ctx.Owing?
    ensures var st := E.RetryAll(c, pids, now);
            && OnlyPublishes(c, st.c)
            && (st.r.Ok? <==> AllOk(c, st.c))
            && (st.r.Err? ==> EndsBadly(st.c, st.r) && |c.log| < |st.c.log|)
            && (pids != [] && pids[0] in c.sess.pubs ==> |c.log| + 1 < |st.c.log| && st.c.log[|c.log| + 1].Sent?)
            && st.c.sess.rels == c.sess.rels && !st.c.ctx.Owing?
    decreases |pids|
  {
    hide E.RetryOne, OnlyPublishes, AllOk, EndsBadly, Buildable;
    if pids == [] {
      NothingIsOk(c);
    } else if pids[0] !in c.sess.pubs {
      RetriesLog(c, pids[1..], now);
    } else {
      var st := E.RetryOne(c, pids[0], now);
      RetryLogs(c, pids[0], now);
      OneRetryIsOk(c, st.c, st.r);
      if st.r.Ok? {
        RetriesLog(st.c, pids[1..], now);
        var f := E.RetryAll(st.c, pids[1..], now).c;
        OnlyPublishesChain(c, st.c, f);
        LogsGrow(st.c, f);
      }
    }
  }

  lemma LogsGrow(c: Core, d: Core)
    requires OnlyPublishes(c, d)
    ensures c.log <= d.log
  {
  }

  lemma OneRetryIsOk(c: Core, d: Core, r: Result<()>)
    requires |d.log| == |c.log| + 2 && !d.log[|c.log|].Sent? && d.log[|c.log| + 1].Sent?
    ensures AllOk(c, d) <==> d.log[|c.log| + 1].ok
  {
  }

  /** The first i + 1 of the given messages were counted and sent again, the first i successfully; the last
      of these sends failed and ends the log. */
  predicate StopsAt(log: seq<Event>, n: nat, pids: seq<Pid>, now: Millis, i: nat) {
    && i < |pids| && |log| == n + 2 * i + 2
    && forall k :: 0 <= k <= i ==>
         && log[n + 2 * k] == Bumped(pids[k], now)
         && log[n + 2 * k + 1].Sent? && PublishesUnder(log[n + 2 * k + 1].packet, pids[k]) && log[n + 2 * k + 1].packet.dup
         && (log[n + 2 * k + 1].ok <==> k < i)
  }

  lemma StopsLater(log: seq<Event>, n: nat, pids: seq<Pid>, now: Millis, i: nat)
    requires pids != [] && StopsAt(log, n + 2, pids[1..], now, i)
    requires n + 1 < |log| && log[n] == Bumped(pids[0], now)
    requires log[n + 1].Sent? && PublishesUnder(log[n + 1].packet, pids[0]) && log[n + 1].packet.dup && log[n + 1].ok
    ensures StopsAt(log, n, pids, now, i + 1)
  {
    forall k | 0 <= k <= i + 1
      ensures log[n + 2 * k] == Bumped(pids[k], now)
      ensures log[n + 2 * k + 1].Sent? && PublishesUnder(log[n + 2 * k + 1].packet, pids[k]) && log[n + 2 * k + 1].packet.dup
      ensures log[n + 2 * k + 1].ok <==> k < i + 1
    {
      if k > 0 {
        assert pids[k] == pids[1..][k - 1] && n + 2 * k == n + 2 + 2 * (k - 1);
      }
    }
  }

  /** A retry loop that fails has counted and resent a prefix of what it collected, in order. */
  lemma {:induction false} RetriesStop(c: Core, pids: seq<Pid>, now: Millis)
    requires Buildable(c.sess.pubs) && !c.ctx.Owing? && forall p :: p in pids ==> p in c.sess.pubs
    requires E.RetryAll(c, pids, now).r.Err?
    ensures exists i :: StopsAt(E.RetryAll(c, pids, now).c.log, |c.log|, pids, now, i)
    decreases |pids|
  {
    hide E.RetryOne, OnlyPublishes, EndsBadly, Buildable, StopsAt, Carries;
    if pids != [] {
      var st := E.RetryOne(c, pids[0], now);
      RetryLogs(c, pids[0], now);
      CarriesIsUnder(st.c.log[|c.log| + 1].packet, pids[0], c.sess.pubs[pids[0]]);
      if st.r.Ok? {
        RetriesStop(st.c, pids[1..], now);
        RetriesLog(st.c, pids[1..], now);
        var f := E.RetryAll(st.c, pids[1..], now).c;
        LogsGrow(st.c, f);
        var i :| StopsAt(f.log, |st.c.log|, pids[1..], now, i);
        assert f.log[|c.log|] == st.c.log[|c.log|] && f.log[|c.log| + 1] == st.c.log[|c.log| + 1];
        StopsLater(f.log, |c.log|, pids, now, i);
      } else {
        StopsAtOnce(st.c.log, |c.log|, pids, now);
      }
    }
  }

  lemma CarriesIsUnder(pk: Packet, p: Pid, m: Inflight)
    requires Carries(pk, p, m)
    ensures PublishesUnder(pk, p)
  {
  }

  lemma StopsAtOnce(log: seq<Event>, n: nat, pids: seq<Pid>, now: Millis)
    requires pids != [] && |log| == n + 2 && log[n] == Bumped(pids[0], now)
    requires log[n + 1].Sent? && PublishesUnder(log[n + 1].packet, pids[0]) && log[n + 1].packet.dup && !log[n + 1].ok
    ensures StopsAt(log, n, pids, now, 0)
  {
  }

  /** The PUBLISH half of the sweep: it sends something if and only if a message is due, and it fails if and
      only if one of its sends does. */
  lemma PublishHalf(c: Core, now: Millis)
    requires c.ctx.Idle? && Buildable(c.sess.pubs)
    ensures var st := E.SweepPublishes(c, now);
            && OnlyPublishes(c, st.c)
            && (st.r.Ok? <==> AllOk(c, st.c))
            && (st.r.Err? ==> EndsBadly(st.c, st.r) && |c.log| < |st.c.log|)
            && st.c.sess.rels == c.sess.rels && !st.c.ctx.Owing?
            && (Due(c.sess.pubs, now) == {} ==> st.r.Ok? && Grammar.SendsNothing(c, st.c) && st.c.lastSent == c.lastSent)
            && (Due(c.sess.pubs, now) != {} ==> !Grammar.SendsNothing(c, st.c))
  {
    hide E.DropAll, E.RetryAll, E.ToDrop, E.ToRetry, E.PubOrder, OnlyPublishes, AllOk, EndsBadly, Distinct;
    var order := E.PubOrder(c);
    var drop, retry := E.ToDrop(order, c.sess.pubs), E.ToRetry(order, c.sess.pubs, now);
    var d := E.DropAll(c, drop);
    DropsLog(c, drop);
    DropsAreOk(c, d);
    RetriesLog(d, retry, now);
    var st := E.RetryAll(d, retry, now);
    OnlyPublishesChain(c, d, st.c);
    LogsGrow(c, d);
    LogsGrow(d, st.c);
    if retry == [] {
      assert Due(c.sess.pubs, now) == {};
      RetriesNone(d, now);
    } else {
      assert retry[0] in retry;
      assert retry[0] in Due(c.sess.pubs, now) && retry[0] !in drop && retry[0] in d.sess.pubs;
      assert st.c.log[|d.log| + 1].Sent?;
    }
  }

  lemma DropsAreOk(c: Core, d: Core)
    requires Grammar.SendsNothing(c, d)
    ensures AllOk(c, d)
  {
  }
}
