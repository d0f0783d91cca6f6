/** Packet ids are reused safely as long as nothing stays in flight for 65535 allocations. Under
    that window hypothesis the two stores stay disjoint, no accepted message is ever overwritten,
    and a PUBLISH never follows the PUBREL of the same message. */
module Window {
  import opened Mqtt
  import opened PacketIds
  import opened SessionModel
  import opened Machine
  import opened Control
  import opened Ledger

  predicate Live(x: Entry) { x.fate in {InFlight, Releasing, AwaitingComp} }

  /** Every live message was accepted within the last 65534 allocations. */
  predicate InWindow(l: Ledger) {
    forall i :: 0 <= i < |l.entries| && Live(l.entries[i]) ==> l.allocs - l.entries[i].born < MAX_PID
  }

  /** The window hypothesis on a run: it holds whenever an id is about to be allocated. */
  ghost predicate Windowed(log: seq<Event>) {
    forall j :: 0 <= j < |log| && log[j].Allocated? ==> InWindow(Books(log[..j]))
  }

  /** The allocator is where the number of allocations puts it, and live messages carry the ids of
      the allocations they were born in. */
  predicate Numbered(c: Core, l: Ledger) {
    && c.sess.nextPid == Nth(l.allocs)
    && (forall p :: JustAllocated(c.log, p) ==> l.allocs > 0 && p == Nth(l.allocs - 1))
    && (forall i :: 0 <= i < |l.entries| && Live(l.entries[i]) ==>
          l.entries[i].born < l.allocs && l.entries[i].pid == Nth(l.entries[i].born))
  }

  /** From l to t, no entry came alive, and those that stayed alive kept their id and birth. */
  predicate NoneBorn(l: Ledger, t: Ledger) {
    && |t.entries| == |l.entries|
    && forall i :: 0 <= i < |l.entries| && Live(t.entries[i]) ==>
         Live(l.entries[i]) && t.entries[i].born == l.entries[i].born && t.entries[i].pid == l.entries[i].pid
  }

  lemma MovingBearsNone(l: Ledger, t: Ledger)
    requires AllMoved(l, t)
    ensures NoneBorn(l, t)
  {
  }

  lemma CountingBearsNone(l: Ledger, p: Pid, now: Millis)
    ensures NoneBorn(l, CountSend(l, p)) && NoneBorn(l, CountRetry(l, p, now))
  {
  }

  lemma QuietEventAllocatesNone(l: Ledger, e: Event)
    requires !e.Cleared? && !e.Allocated?
    ensures Enter(l, e).allocs == l.allocs
  {
  }

  lemma DroppingBearsNone(l: Ledger, p: Pid)
    ensures NoneBorn(l, ClosePend(l, p, GivenUp))
  {
  }

  lemma OthersBearNone(l: Ledger, e: Event)
    requires !e.Stored? && !e.Cleared? && !e.Allocated? && !e.Arrived? && !e.Sent? && !e.Dropped? && !e.Bumped?
    ensures NoneBorn(l, Enter(l, e))
  {
  }

  lemma QuietEventBearsNone(l: Ledger, e: Event)
    requires InOrder(l) && !e.Stored? && !e.Cleared? && !e.Allocated?
    ensures NoneBorn(l, Enter(l, e)) && Enter(l, e).allocs == l.allocs
  {
    QuietEventAllocatesNone(l, e);
    hide EnterArrival, InOrder, ClosePend, AllMoved, NoneBorn;
    match e
    case Arrived(pk, _) =>
      ArrivalMoves(l, pk);
      MovingBearsNone(l, EnterArrival(l, pk));
    case Sent(pk, _, ok, _) =>
      if pk.Publish? && PidOf(pk.qosPid).Some? {
        CountingBearsNone(l, PidOf(pk.qosPid).value, 0);
      } else {
        OtherSendMoves(l, pk, ok);
        MovingBearsNone(l, EnterSend(l, pk, ok));
      }
    case Dropped(p) => DroppingBearsNone(l, p);
    case Bumped(p, now) => CountingBearsNone(l, p, now);
    case _ => OthersBearNone(l, e);
  }

  lemma AllocationsLookBack(c: Core, e: Event)
    ensures forall p :: JustAllocated(c.log + [e], p) ==> e == Allocated(p) || (e.AliasAssigned? && JustAllocated(c.log, p))
  {
  }

  lemma AcceptBearsOne(l: Ledger, p: Pid, m: Inflight)
    requires InOrder(l)
    ensures var t := Accept(l, p, m);
            && t.allocs == l.allocs
            && |t.entries| == |l.entries| + 1
            && t.entries[|l.entries|].pid == p
            && (l.allocs > 0 ==> t.entries[|l.entries|].born == l.allocs - 1)
            && forall i :: 0 <= i < |l.entries| && Live(t.entries[i]) ==> t.entries[i] == l.entries[i]
  {
  }

  lemma StepNumbers(s: State, l: Ledger, e: Event)
    requires GuardCore(s.core, e) && Reconciled(s.core, l) && Numbered(s.core, l)
    ensures Numbered(Post(s.core, e), Enter(l, e))
  {
    hide Reconciled, Numbered, GuardCore, Effect;
    match e
    case Allocated(p) => AllocatingNumbers(s.core, l, p);
    case Stored(p, m) => StoringNumbers(s.core, l, p, m);
    case Cleared => ClearingNumbers(s.core, l);
    case _ => QuietEventNumbers(s.core, l, e);
  }

  lemma AllocatingNumbers(c: Core, l: Ledger, p: Pid)
    requires GuardCore(c, Allocated(p)) && Numbered(c, l)
    ensures Numbered(Post(c, Allocated(p)), Enter(l, Allocated(p)))
  {
  }

  lemma ClearingNumbers(c: Core, l: Ledger)
    requires GuardCore(c, Cleared) && Reconciled(c, l)
    ensures Numbered(Post(c, Cleared), Wipe(l))
  {
  }

  lemma StoringNumbers(c: Core, l: Ledger, p: Pid, m: Inflight)
    requires GuardCore(c, Stored(p, m)) && Reconciled(c, l) && Numbered(c, l)
    ensures Numbered(Post(c, Stored(p, m)), Accept(l, p, m))
  {
    hide SendEvent, Accept, InOrder;
    AgreesInOrder(c, l);
    AllocationsLookBack(c, Stored(p, m));
    AcceptBearsOne(l, p, m);
  }

  lemma QuietEventNumbers(c: Core, l: Ledger, e: Event)
    requires GuardCore(c, e) && Reconciled(c, l) && Numbered(c, l) && !e.Allocated? && !e.Stored? && !e.Cleared?
    ensures Numbered(Post(c, e), Enter(l, e))
  {
    hide Enter, SendEvent, MaySend, Agrees, AfterSend, AfterArrival, NoneBorn, JustAllocated;
    AllocationsLookBack(c, e);
    AgreesInOrder(c, l);
    QuietEventBearsNone(l, e);
    QuietEventKeepsPid(c, e);
    NoneBornNumbers(c, Post(c, e), l, Enter(l, e));
  }

  lemma AgreesInOrder(c: Core, l: Ledger)
    requires Reconciled(c, l)
    ensures InOrder(l)
  {
  }

  lemma QuietEventKeepsPid(c: Core, e: Event)
    requires !e.Allocated? && !e.Cleared?
    ensures Post(c, e).sess.nextPid == c.sess.nextPid
  {
  }

  lemma NoneBornNumbers(c: Core, d: Core, l: Ledger, t: Ledger)
    requires Numbered(c, l) && NoneBorn(l, t) && t.allocs == l.allocs && d.sess.nextPid == c.sess.nextPid
    requires forall p :: JustAllocated(d.log, p) ==> JustAllocated(c.log, p)
    ensures Numbered(d, t)
  {
    hide JustAllocated;
  }

  lemma {:induction false} NumbersHold(s: State)
    requires Sound(s)
    ensures Numbered(s.core, Books(s.core.log))
    decreases |s.core.log|
  {
    if s.core.log == [] {
      AtIsSound(s, 0);
    } else {
      BeforeIsSound(s);
      NumbersHold(Before(s));
      BooksAgree(Before(s));
      StepNumbers(Before(s), Books(Before(s).core.log), Last(s));
    }
  }

  // ---------------------------------------------------------------- freshness

  /** If every live message was accepted within the last 65534 allocations, the next id is in
      neither store: storing a message under it overwrites nothing. */
  lemma NextIdIsFresh(s: State)
    requires Sound(s) && InWindow(Books(s.core.log))
    ensures s.core.sess.nextPid !in s.core.sess.pubs && s.core.sess.nextPid !in s.core.sess.rels
  {
    var l := Books(s.core.log);
    NumbersHold(s);
    BooksAgree(s);
    forall i | 0 <= i < |l.entries| && Live(l.entries[i]) ensures l.entries[i].pid != s.core.sess.nextPid {
      WindowIsDistinct(l.entries[i].born, l.allocs);
    }
  }

  predicate HeldUnder(l: Ledger, i: nat, p: Pid) {
    i < |l.entries| && l.entries[i].fate in {InFlight, AwaitingComp} && l.entries[i].pid == p
  }

  /** Entry i is in a store and was accepted a multiple of 65535 allocations ago. */
  predicate Clashes(l: Ledger, i: nat) {
    && i < |l.entries|
    && l.entries[i].fate in {InFlight, AwaitingComp}
    && (l.allocs - l.entries[i].born) % MAX_PID == 0
  }

  lemma InUseIff(c: Core, l: Ledger, p: Pid)
    requires Reconciled(c, l)
    ensures p in c.sess.pubs || p in c.sess.rels <==> exists i :: HeldUnder(l, i, p)
  {
    if p in c.sess.pubs {
      assert HeldUnder(l, l.pend[p], p);
    } else if p in c.sess.rels {
      assert HeldUnder(l, l.rel[p], p);
    }
  }

  lemma ClashesIff(c: Core, l: Ledger, i: nat)
    requires Numbered(c, l)
    ensures HeldUnder(l, i, c.sess.nextPid) <==> Clashes(l, i)
  {
  }

  /** Without the hypothesis, exactly when the allocator hands out an id that is in use: some message
      that is pending or awaits its PUBCOMP was accepted a multiple of 65535 allocations ago. */
  lemma NextIdIsTakenIff(s: State)
    requires Sound(s)
    ensures s.core.sess.nextPid in s.core.sess.pubs || s.core.sess.nextPid in s.core.sess.rels
            <==> exists i :: Clashes(Books(s.core.log), i)
  {
    hide Sound, Numbered, Reconciled, HeldUnder, Clashes, Enter;
    var l := Books(s.core.log);
    NumbersHold(s);
    BooksAgree(s);
    InUseIff(s.core, l, s.core.sess.nextPid);
    forall i: nat ensures HeldUnder(l, i, s.core.sess.nextPid) <==> Clashes(l, i) {
      ClashesIff(s.core, l, i);
    }
    assert (exists i :: HeldUnder(l, i, s.core.sess.nextPid)) <==> exists i :: Clashes(l, i);
    assert l == Books(s.core.log);
  }

  predicate Disjoint(c: Core) {
    && (forall p :: p in c.sess.pubs ==> p !in c.sess.rels)
    && (forall p :: JustAllocated(c.log, p) ==> p !in c.sess.pubs && p !in c.sess.rels)
    && (c.ctx.Owing? && c.ctx.reply.Pubrel? ==> c.ctx.reply.pid !in c.sess.rels)
  }

  lemma SendKeepsDisjoint(c: Core, e: Event)
    requires GuardCore(c, e) && CtxOk(c) && Disjoint(c) && e.Sent?
    ensures Disjoint(Post(c, e))
  {
    hide SendEvent;
    AllocationsLookBack(c, e);
  }

  lemma ArrivalKeepsDisjoint(c: Core, e: Event)
    requires GuardCore(c, e) && Disjoint(c) && e.Arrived?
    ensures Disjoint(Post(c, e))
  {
    AllocationsLookBack(c, e);
  }

  lemma LocalStepKeepsDisjoint(c: Core, e: Event)
    requires GuardCore(c, e) && Disjoint(c) && !e.Sent? && !e.Arrived?
    requires e.Allocated? ==> c.sess.nextPid !in c.sess.pubs && c.sess.nextPid !in c.sess.rels
    ensures Disjoint(Post(c, e))
  {
    hide SendEvent, MaySend, AfterSend, AfterArrival, JustAllocated;
    AllocationsLookBack(c, e);
    OthersStoreNothing(c, e);
  }

  /** What the steps between a send and an arrival can add to the two stores. */
  lemma OthersStoreNothing(c: Core, e: Event)
    requires GuardCore(c, e) && !e.Sent? && !e.Arrived?
    ensures Post(c, e).sess.rels <= c.sess.rels
    ensures e.Stored? ==> Post(c, e).sess.pubs.Keys == c.sess.pubs.Keys + {e.pid} && JustAllocated(c.log, e.pid)
    ensures !e.Stored? ==> Post(c, e).sess.pubs.Keys <= c.sess.pubs.Keys
  {
    hide SendEvent, MaySend, AfterSend, AfterArrival, JustAllocated;
  }

  lemma StepKeepsDisjoint(c: Core, e: Event)
    requires GuardCore(c, e) && CtxOk(c) && Disjoint(c)
    requires e.Allocated? ==> c.sess.nextPid !in c.sess.pubs && c.sess.nextPid !in c.sess.rels
    ensures Disjoint(Post(c, e))
  {
    hide GuardCore, Effect, Disjoint;
    if e.Sent? {
      SendKeepsDisjoint(c, e);
    } else if e.Arrived? {
      ArrivalKeepsDisjoint(c, e);
    } else {
      LocalStepKeepsDisjoint(c, e);
    }
  }

  lemma WindowedBefore(s: State)
    requires Sound(s) && |s.core.log| > 0 && Windowed(s.core.log)
    ensures Windowed(Before(s).core.log) && (Last(s).Allocated? ==> InWindow(Books(Before(s).core.log)))
  {
    BeforeIsSound(s);
    var log, short := s.core.log, Before(s).core.log;
    forall j | 0 <= j < |short| && short[j].Allocated? ensures InWindow(Books(short[..j])) {
      assert short[..j] == log[..j];
    }
  }

  /** Under the window hypothesis a packet id is never in both stores. */
  lemma {:induction false} StoresStayDisjoint(s: State)
    requires Sound(s) && Windowed(s.core.log)
    ensures Disjoint(s.core)
    decreases |s.core.log|
  {
    if s.core.log == [] {
      AtIsSound(s, 0);
    } else {
      BeforeIsSound(s);
      WindowedBefore(s);
      StoresStayDisjoint(Before(s));
      ControlHolds(Before(s));
      if Last(s).Allocated? {
        NextIdIsFresh(Before(s));
      }
      StepKeepsDisjoint(Before(s).core, Last(s));
    }
  }

  // ---------------------------------------------------------------- no PUBLISH after PUBREL

  predicate SendsPubrel(e: Event, p: Pid) { e.Sent? && e.packet == Pubrel(p) }

  predicate SendsPublish(e: Event, p: Pid) { e.Sent? && PublishesUnder(e.packet, p) }

  /** Right after a PUBREL for p has been sent, p is no longer pending. */
  lemma PubrelEndsPending(s: State, i: nat, p: Pid)
    requires Sound(s) && Windowed(s.core.log) && i < |s.core.log| && SendsPubrel(s.core.log[i], p)
    ensures p !in At(s, i + 1).core.sess.pubs
  {
    hide At, Books, Apply;
    AtIsSound(s, i);
    var t := At(s, i);
    ControlHolds(t);
    assert Windowed(t.core.log) by {
      forall j | 0 <= j < |t.core.log| && t.core.log[j].Allocated? ensures InWindow(Books(t.core.log[..j])) {
        assert t.core.log[..j] == s.core.log[..j];
      }
    }
    StoresStayDisjoint(t);
    GuardIsCore(t, s.core.log[i]);
    PubrelFindsNonePending(t.core, s.core.log[i], p);
    AppliesPost(t, s.core.log[i]);
  }

  lemma AppliesPost(s: State, e: Event)
    ensures Apply(s, e).core == Post(s.core, e)
  {
  }

  lemma PubrelFindsNonePending(c: Core, e: Event, p: Pid)
    requires GuardCore(c, e) && CtxOk(c) && Disjoint(c) && SendsPubrel(e, p)
    ensures p !in Post(c, e).sess.pubs
  {
    hide SendEvent;
  }

  /** Only what is pending is published. */
  lemma PublishNeedsPending(s: State, j: nat, p: Pid)
    requires Sound(s) && j < |s.core.log| && SendsPublish(s.core.log[j], p)
    ensures p in At(s, j).core.sess.pubs
  {
    AtIsSound(s, j);
  }

  lemma OnlyStoringAdds(c: Core, e: Event, p: Pid)
    requires p !in c.sess.pubs && !(e.Stored? && e.pid == p)
    ensures p !in Post(c, e).sess.pubs
  {
  }

  lemma NotJustAllocated(log: seq<Event>, i: nat, p: Pid)
    requires i < |log| && log[i].Sent?
    requires forall n :: i < n < |log| ==> log[n] != Allocated(p)
    ensures !JustAllocated(log, p)
  {
  }

  /** Without a new allocation of p, p does not become pending again. */
  lemma {:induction false} StaysUnpublished(s: State, i: nat, k: nat, p: Pid)
    requires Sound(s) && i < k <= |s.core.log| && s.core.log[i].Sent?
    requires p !in At(s, i + 1).core.sess.pubs
    requires forall n :: i < n < k ==> s.core.log[n] != Allocated(p)
    ensures p !in At(s, k).core.sess.pubs
    decreases k
  {
    hide At, Effect;
    if k > i + 1 {
      StaysUnpublished(s, i, k - 1, p);
      AtIsSound(s, k - 1);
      NotJustAllocated(At(s, k - 1).core.log, i, p);
      OnlyStoringAdds(At(s, k - 1).core, s.core.log[k - 1], p);
    }
  }

  /** MQTT 3.1.1 section 4.3.3: once a PUBREL for p has been sent (or attempted), no PUBLISH under p
      is sent, by retry or by session resume, until p has been allocated anew. */
  lemma NoPublishAfterPubrel(s: State, i: nat, j: nat, p: Pid)
    requires Sound(s) && Windowed(s.core.log)
    requires i < j < |s.core.log|
    requires SendsPubrel(s.core.log[i], p) && SendsPublish(s.core.log[j], p)
    ensures exists n :: i < n < j && s.core.log[n] == Allocated(p)
  {
    PublishNeedsPending(s, j, p);
    PubrelEndsPending(s, i, p);
    if forall n :: i < n < j ==> s.core.log[n] != Allocated(p) {
      StaysUnpublished(s, i, j, p);
    }
  }
}
