/** How often, how far apart and with what content a message is sent. */
module Traffic {
  import opened Mqtt
  import opened SessionModel
  import opened Machine
  import opened Control
  import opened Ledger
  import opened Window
  import E = EngineModel

  predicate StoredLast(log: seq<Event>, p: Pid) { JustStored(log) && log[|log| - 1].pid == p }

  function One(b: bool): nat { if b then 1 else 0 }

  /** Sends of the pending message p that the call in progress still has to make. */
  function Owed(c: Core, p: Pid): nat {
    One(StoredLast(c.log, p)) + One(JustBumped(c.log, p)) + One(c.ctx.Resuming? && p in c.ctx.left)
  }

  /** Consecutive tries are at least the retry time-out apart, by the times they are stamped with. */
  predicate Spaced(first: Millis, times: seq<Millis>) {
    forall k {:trigger Prior(first, times, k)} ::
      0 <= k < |times| ==> times[k] >= Prior(first, times, k) + 5000
  }

  /** The time stamp that the k-th retry replaces. */
  function Prior(first: Millis, times: seq<Millis>, k: nat): Millis
    requires k <= |times|
  {
    if k == 0 then first else times[k - 1]
  }

  predicate EntryBounded(c: Core, x: Entry) {
    && |x.retries| <= 3
    && (x.fate == GivenUp ==> |x.retries| == 3)
    && Spaced(x.msg.timestamp, x.retries)
    && x.sends + (if x.fate == InFlight then Owed(c, x.pid) else 0) <= 1 + |x.retries| + x.resumes
    && (x.fate == InFlight ==> (x.sends == 0 <==> StoredLast(c.log, x.pid)))
  }

  predicate Bounded(c: Core, l: Ledger) {
    forall i :: 0 <= i < |l.entries| ==> EntryBounded(c, l.entries[i])
  }

  lemma MovingKeepsBounds(c: Core, d: Core, x: Entry, y: Entry)
    requires EntryBounded(c, x) && OnlyMoved(x, y)
    requires y.fate == InFlight ==> Owed(d, x.pid) <= Owed(c, x.pid) && !StoredLast(d.log, x.pid) && !StoredLast(c.log, x.pid)
    ensures EntryBounded(d, y)
  {
  }

  /** An event that is no store, bump or resume leaves no more sends owed than before; a PUBLISH
      of p settles all that is owed for p. */
  lemma NothingNewOwed(c: Core, e: Event, p: Pid)
    requires GuardCore(c, e) && !e.Stored? && !e.Bumped? && !e.Resumed?
    ensures Owed(Post(c, e), p) <= Owed(c, p) && !StoredLast(Post(c, e).log, p)
    ensures SendsPublish(e, p) ==> Owed(Post(c, e), p) == 0
  {
    hide SendEvent;
  }

  lemma PublishSettlesOne(c: Core, e: Event, p: Pid)
    requires GuardCore(c, e) && SendsPublish(e, p)
    ensures Owed(c, p) >= 1 && p in c.sess.pubs
    ensures forall q :: StoredLast(c.log, q) ==> q == p
  {
    hide SendEvent;
  }

  lemma QuietKeepsBounds(c: Core, l: Ledger, e: Event, t: Ledger)
    requires GuardCore(c, e) && Bounded(c, l) && !e.Stored? && !e.Bumped? && !e.Resumed? && !JustStored(c.log)
    requires AllMoved(l, t)
    ensures Bounded(Post(c, e), t)
  {
    hide GuardCore, Effect, EntryBounded, Owed;
    forall i | 0 <= i < |t.entries| ensures EntryBounded(Post(c, e), t.entries[i]) {
      NothingNewOwed(c, e, l.entries[i].pid);
      MovingKeepsBounds(c, Post(c, e), l.entries[i], t.entries[i]);
    }
  }

  lemma PublishKeepsBounds(c: Core, l: Ledger, e: Event, p: Pid)
    requires GuardCore(c, e) && Reconciled(c, l) && Bounded(c, l) && SendsPublish(e, p)
    ensures Bounded(Post(c, e), CountSend(l, p))
  {
    hide GuardCore, Effect, Owed;
    var d, t := Post(c, e), CountSend(l, p);
    PublishSettlesOne(c, e, p);
    forall i | 0 <= i < |t.entries| ensures EntryBounded(d, t.entries[i]) {
      NothingNewOwed(c, e, l.entries[i].pid);
      NothingNewOwed(c, e, p);
    }
  }

  lemma AcceptKeepsBounds(c: Core, l: Ledger, p: Pid, m: Inflight)
    requires GuardCore(c, Stored(p, m)) && InOrder(l) && Bounded(c, l)
    ensures Bounded(Post(c, Stored(p, m)), Accept(l, p, m))
  {
    hide SendEvent, MaySend, AfterSend, AfterArrival;
    ClosePendStays(l, p, Overwritten);
    hide InOrder, ClosePend;
    var d, t := Post(c, Stored(p, m)), Accept(l, p, m);
    forall i | 0 <= i < |t.entries| ensures EntryBounded(d, t.entries[i]) {
      if i < |l.entries| {
        assert EntryBounded(c, l.entries[i]);
      }
    }
  }

  lemma RetryBoundsTheRetried(c: Core, l: Ledger, p: Pid, now: Millis)
    requires GuardCore(c, Bumped(p, now)) && Reconciled(c, l) && Bounded(c, l)
    ensures p in l.pend && EntryBounded(Post(c, Bumped(p, now)), CountRetry(l, p, now).entries[l.pend[p]])
  {
    hide SendEvent;
    var x := l.entries[l.pend[p]];
    assert EntryBounded(c, x) && Tracks(x, c.sess.pubs[p]);
    SpacedFurther(x.msg.timestamp, x.retries, now);
  }

  /** A bump leaves the sends owed for any other message as they were. */
  lemma BumpOwesOnlyItsOwn(c: Core, p: Pid, now: Millis, x: Entry)
    requires GuardCore(c, Bumped(p, now)) && EntryBounded(c, x) && x.pid != p
    ensures EntryBounded(Post(c, Bumped(p, now)), x)
  {
  }

  lemma RetryKeepsBounds(c: Core, l: Ledger, p: Pid, now: Millis)
    requires GuardCore(c, Bumped(p, now)) && Reconciled(c, l) && Bounded(c, l)
    ensures Bounded(Post(c, Bumped(p, now)), CountRetry(l, p, now))
  {
    hide EntryBounded, Effect, GuardCore;
    var d, t := Post(c, Bumped(p, now)), CountRetry(l, p, now);
    RetryBoundsTheRetried(c, l, p, now);
    forall i | 0 <= i < |t.entries| ensures EntryBounded(d, t.entries[i]) {
      if i != l.pend[p] {
        if l.entries[i].fate == InFlight {
          BumpOwesOnlyItsOwn(c, p, now, l.entries[i]);
        } else {
          SettledStayBounded(c, d, l.entries[i]);
        }
      }
    }
  }

  lemma SettledStayBounded(c: Core, d: Core, x: Entry)
    requires EntryBounded(c, x) && x.fate != InFlight
    ensures EntryBounded(d, x)
  {
  }

  lemma SpacedFurther(first: Millis, times: seq<Millis>, now: Millis)
    requires Spaced(first, times) && now >= Prior(first, times, |times|) + 5000
    ensures Spaced(first, times + [now])
  {
    var more := times + [now];
    forall k | 0 <= k < |more| ensures more[k] >= Prior(first, more, k) + 5000 {
      assert Prior(first, more, k) == Prior(first, times, k);
      if k < |times| {
        assert more[k] == times[k];
      }
    }
  }

  lemma ResumeKeepsBounds(c: Core, l: Ledger)
    requires GuardCore(c, Resumed) && Bounded(c, l)
    ensures Bounded(Post(c, Resumed), CountResume(l))
  {
  }

  lemma DropKeepsBounds(c: Core, l: Ledger, p: Pid)
    requires GuardCore(c, Dropped(p)) && Reconciled(c, l) && Bounded(c, l)
    ensures Bounded(Post(c, Dropped(p)), ClosePend(l, p, GivenUp))
  {
    hide SendEvent;
    var d, t := Post(c, Dropped(p)), ClosePend(l, p, GivenUp);
    forall i | 0 <= i < |t.entries| ensures EntryBounded(d, t.entries[i]) {
      assert EntryBounded(c, l.entries[i]);
      assert Tracks(l.entries[l.pend[p]], c.sess.pubs[p]);
    }
  }

  lemma StepKeepsBounds(c: Core, l: Ledger, e: Event)
    requires GuardCore(c, e) && Reconciled(c, l) && Bounded(c, l)
    ensures Bounded(Post(c, e), Enter(l, e))
  {
    hide Effect, EntryBounded, Owed, GuardCore, Reconciled, InOrder, AllMoved, EnterArrival, Bounded, Wipe, Accept, CountRetry;
    AgreesInOrder(c, l);
    match e
    case Stored(p, m) => AcceptKeepsBounds(c, l, p, m);
    case Bumped(p, now) => RetryKeepsBounds(c, l, p, now);
    case Resumed => ResumeKeepsBounds(c, l);
    case Dropped(p) => DropKeepsBounds(c, l, p);
    case Cleared =>
      WipeMoves(l);
      OthersKeepBounds(c, l, e);
    case Arrived(pk, _) =>
      ArrivalMoves(l, pk);
      OthersKeepBounds(c, l, e);
    case Sent(pk, _, ok, _) =>
      if pk.Publish? && PidOf(pk.qosPid).Some? {
        PublishKeepsBounds(c, l, e, PidOf(pk.qosPid).value);
      } else {
        OtherSendMoves(l, pk, ok);
        OthersKeepBounds(c, l, e);
      }
    case _ =>
      StandingMoves(l, Enter(l, e));
      OthersKeepBounds(c, l, e);
  }

  lemma OthersKeepBounds(c: Core, l: Ledger, e: Event)
    requires GuardCore(c, e) && Bounded(c, l) && AllMoved(l, Enter(l, e))
    requires !e.Stored? && !e.Bumped? && !e.Resumed? && !(e.Sent? && e.packet.Publish? && PidOf(e.packet.qosPid).Some?)
    ensures Bounded(Post(c, e), Enter(l, e))
  {
    hide Effect, Bounded, AllMoved, Enter, SendEvent;
    QuietKeepsBounds(c, l, e, Enter(l, e));
  }

  lemma {:induction false} BoundsHold(s: State)
    requires Sound(s)
    ensures Bounded(s.core, Books(s.core.log))
    decreases |s.core.log|
  {
    hide At, Effect, Enter, EntryBounded, GuardCore;
    if s.core.log != [] {
      BeforeIsSound(s);
      BoundsHold(Before(s));
      BooksAgree(Before(s));
      StepKeepsBounds(Before(s).core, Books(Before(s).core.log), Last(s));
    }
  }

  // ---------------------------------------------------------------- what the bounds say

  /** Each retry is stamped at least 5000 ms after the one before it, and the first after the message. */
  predicate FiveSecondsApart(x: Entry) {
    forall k :: 0 <= k < |x.retries| ==> x.retries[k] >= (if k == 0 then x.msg.timestamp else x.retries[k - 1]) + 5000
  }

  /** Over any run and for every accepted message: at most three sweep retries, exactly three if it
      was given up, all at least 5000 ms apart by the times they carry even if the clock steps back,
      and at most 1 + 3 + (resumes that found it pending) PUBLISH packets. */
  lemma TrafficIsBounded(s: State, i: nat)
    requires Sound(s) && i < |Books(s.core.log).entries|
    ensures var x := Books(s.core.log).entries[i];
            && |x.retries| <= 3
            && (x.fate == GivenUp ==> |x.retries| == 3)
            && FiveSecondsApart(x)
            && x.sends <= 1 + |x.retries| + x.resumes <= 4 + x.resumes
  {
    BoundsHold(s);
    SpacedOut(Books(s.core.log).entries[i]);
  }

  lemma SpacedOut(x: Entry)
    requires Spaced(x.msg.timestamp, x.retries)
    ensures FiveSecondsApart(x)
  {
    forall k | 0 <= k < |x.retries| ensures x.retries[k] >= (if k == 0 then x.msg.timestamp else x.retries[k - 1]) + 5000 {
      assert Prior(x.msg.timestamp, x.retries, k) + 5000 <= x.retries[k];
    }
  }

  /** Every PUBLISH sent under p carries the message most recently accepted under p: same id, QoS,
      retain flag, topic and payload. It is marked as a duplicate exactly when that message has
      been sent before. */
  lemma RetransmissionIsFaithful(s: State, j: nat, p: Pid)
    requires Sound(s) && j < |s.core.log| && SendsPublish(s.core.log[j], p)
    ensures var l := Books(s.core.log[..j]);
            && p in l.pend && l.pend[p] < |l.entries|
            && var x := l.entries[l.pend[p]];
               && x.pid == p && x.fate == InFlight
               && Carries(s.core.log[j].packet, p, x.msg)
               && (s.core.log[j].packet.dup <==> x.sends > 0)
  {
    hide At, Books, Guard, Bounded, Reconciled, Carries;
    AtIsSound(s, j);
    BooksAgree(At(s, j));
    BoundsHold(At(s, j));
    GuardIsCore(At(s, j), s.core.log[j]);
    PublishIsFaithful(At(s, j).core, Books(At(s, j).core.log), s.core.log[j], p);
  }

  lemma PublishIsFaithful(c: Core, l: Ledger, e: Event, p: Pid)
    requires GuardCore(c, e) && SendsPublish(e, p) && Reconciled(c, l) && Bounded(c, l)
    ensures p in l.pend && l.pend[p] < |l.entries|
    ensures var x := l.entries[l.pend[p]];
            && x.pid == p && x.fate == InFlight
            && Carries(e.packet, p, x.msg)
            && (e.packet.dup <==> x.sends > 0)
  {
    hide SendEvent;
    PublishSettlesOne(c, e, p);
    PendingIsTracked(c, l, p);
    assert EntryBounded(c, l.entries[l.pend[p]]);
    hide Reconciled, Bounded, Owed;
  }

  lemma PendingIsTracked(c: Core, l: Ledger, p: Pid)
    requires Reconciled(c, l) && p in c.sess.pubs
    ensures p in l.pend && l.pend[p] < |l.entries|
    ensures var x := l.entries[l.pend[p]]; x.pid == p && x.fate == InFlight && Tracks(x, c.sess.pubs[p])
  {
  }

  /** A QoS 0 PUBLISH is never marked as a duplicate. */
  lemma QosZeroIsNoDuplicate(s: State, j: nat)
    requires Sound(s) && j < |s.core.log|
    requires s.core.log[j].Sent? && s.core.log[j].packet.Publish? && s.core.log[j].packet.qosPid == Level0
    ensures !s.core.log[j].packet.dup
  {
    AtIsSound(s, j);
  }

  /** Every pending message can be rebuilt into a packet: no retry or resend fails before it is sent. */
  lemma RetriesCanBeBuilt(s: State, p: Pid)
    requires Sound(s) && p in s.core.sess.pubs
    ensures var m := s.core.sess.pubs[p];
            CreatePublish(m.topic, m.qos, m.retain, m.payload, Some(p), true).Ok?
  {
    ControlHolds(s);
  }

  // ---------------------------------------------------------------- session resume

  /** Event i successfully resends the pending message p as a duplicate. */
  predicate ResentAt(log: seq<Event>, i: nat, p: Pid, pubs: map<Pid, Inflight>) {
    && i < |log| && p in pubs
    && var e := log[i];
       e.Sent? && e.ok && e.packet.Publish? && e.packet.dup && Carries(e.packet, p, pubs[p])
  }

  /** From event number n on, the log resends the given messages in the given order. */
  predicate Resends(log: seq<Event>, n: nat, pubs: map<Pid, Inflight>, pids: seq<Pid>) {
    |log| == n + |pids| && forall k :: 0 <= k < |pids| ==> ResentAt(log, n + k, pids[k], pubs)
  }

  lemma ResendsMore(log: seq<Event>, n: nat, pubs: map<Pid, Inflight>, pids: seq<Pid>)
    requires pids != [] && ResentAt(log, n, pids[0], pubs) && Resends(log, n + 1, pubs, pids[1..])
    ensures Resends(log, n, pubs, pids)
  {
  }

  lemma {:induction false} ResendAllResends(c: Core, pubs: map<Pid, Inflight>, pids: seq<Pid>)
    requires forall p :: p in pids ==> p in pubs
    ensures var st := E.ResendAll(c, pubs, pids);
            && (!c.ctx.Owing? ==> st.c.sess == c.sess)
            && c.log <= st.c.log
            && (st.r.Ok? ==> Resends(st.c.log, |c.log|, pubs, pids))
    decreases |pids|
  {
    hide SendEvent, Resends;
    if pids == [] {
      NoResends(c.log, pubs);
    } else {
      var m := pubs[pids[0]];
      var r := CreatePublish(m.topic, m.qos, m.retain, m.payload, Some(pids[0]), true);
      if r.Ok? {
        var e := SendEvent(c, r.value);
        if e.ok {
          var d := Post(c, e);
          ResendAllResends(d, pubs, pids[1..]);
          var st := E.ResendAll(d, pubs, pids[1..]);
          if st.r.Ok? {
            assert st.c.log[|c.log|] == d.log[|c.log|] == e;
            ResendsMore(st.c.log, |c.log|, pubs, pids);
          }
        }
      }
    }
  }

  lemma NoResends(log: seq<Event>, pubs: map<Pid, Inflight>)
    ensures Resends(log, |log|, pubs, [])
  {
  }

  /** A session resume changes nothing in the session, and if it succeeds it has resent every
      pending message exactly once, with DUP set and its original content, in iteration order. */
  lemma ResumeCoversPendingOnce(s: State)
    requires Sound(s) && s.core.ctx.Idle?
    ensures var c, st := s.core, E.ResendPending(s.core);
            && st.c.sess == c.sess
            && (st.r.Ok? ==>
                  && Resends(st.c.log, |c.log| + 1, c.sess.pubs, E.PubOrder(c))
                  && Distinct(E.PubOrder(c)) && Elems(E.PubOrder(c)) == c.sess.pubs.Keys)
  {
    ResendAllResends(Post(s.core, Resumed), s.core.sess.pubs, E.PubOrder(s.core));
  }
}
