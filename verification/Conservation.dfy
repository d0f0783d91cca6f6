/** No accepted message is lost from the account: each has exactly one fate, fates only move
    forward, and the sizes of the two stores are what is left of the accepted ones. */
module Conservation {
  import opened Mqtt
  import opened SessionModel
  import opened Machine
  import opened Control
  import opened Ledger
  import Window

  function Count(es: seq<Entry>, f: Fate): nat
    decreases |es|
  {
    if es == [] then 0 else Count(es[..|es| - 1], f) + if es[|es| - 1].fate == f then 1 else 0
  }

  function Accepted(log: seq<Event>): nat
    decreases |log|
  {
    if log == [] then 0 else Accepted(log[..|log| - 1]) + if log[|log| - 1].Stored? then 1 else 0
  }

  // ---------------------------------------------------------------- counting

  function Where(es: seq<Entry>, f: Fate): set<nat> {
    set i: nat | i < |es| && es[i].fate == f
  }

  lemma {:induction false} CountIsSize(es: seq<Entry>, f: Fate)
    ensures Count(es, f) == |Where(es, f)|
    decreases |es|
  {
    if es != [] {
      var n := |es| - 1;
      CountIsSize(es[..n], f);
      if es[n].fate == f {
        assert Where(es, f) == Where(es[..n], f) + {n};
      } else {
        assert Where(es, f) == Where(es[..n], f);
      }
    }
  }

  lemma {:induction false} SameSize(m: map<Pid, nat>, target: set<nat>)
    requires forall p :: p in m ==> m[p] in target
    requires forall p, q :: p in m && q in m && m[p] == m[q] ==> p == q
    requires forall i :: i in target ==> exists p :: p in m && m[p] == i
    ensures |m| == |target|
    decreases |m|
  {
    if m == map[] {
      assert target == {};
    } else {
      var p :| p in m;
      var rest, others := m - {p}, target - {m[p]};
      assert |rest| == |m| - 1 by {
        assert rest.Keys == m.Keys - {p};
      }
      forall i | i in others ensures exists q :: q in rest && rest[q] == i {
        var q :| q in m && m[q] == i;
        assert q in rest;
      }
      SameSize(rest, others);
    }
  }

  lemma {:induction false} FatesPartition(es: seq<Entry>)
    ensures Count(es, InFlight) + Count(es, Releasing) + Count(es, AwaitingComp) + Count(es, Completed)
            + Count(es, GivenUp) + Count(es, ReleaseLost) + Count(es, Wiped) + Count(es, Overwritten) == |es|
    decreases |es|
  {
    if es != [] {
      FatesPartition(es[..|es| - 1]);
    }
  }

  lemma IndexesCount(l: Ledger)
    requires InOrder(l)
    ensures |l.pend| == Count(l.entries, InFlight)
    ensures |l.rel| == Count(l.entries, AwaitingComp)
    ensures (if l.releasing.Some? then 1 else 0) == Count(l.entries, Releasing)
  {
    var es := l.entries;
    CountIsSize(es, InFlight);
    CountIsSize(es, AwaitingComp);
    CountIsSize(es, Releasing);
    forall i | i in Where(es, InFlight) ensures exists p :: p in l.pend && l.pend[p] == i {
      assert es[i].pid in l.pend && l.pend[es[i].pid] == i;
    }
    forall i | i in Where(es, AwaitingComp) ensures exists p :: p in l.rel && l.rel[p] == i {
      assert es[i].pid in l.rel && l.rel[es[i].pid] == i;
    }
    SameSize(l.pend, Where(es, InFlight));
    SameSize(l.rel, Where(es, AwaitingComp));
    if l.releasing.Some? {
      assert Where(es, Releasing) == {l.releasing.value};
    } else {
      assert Where(es, Releasing) == {};
    }
  }

  // ---------------------------------------------------------------- fates move forward

  /** y is entry x later on: the same message, moved forward. */
  predicate Continues(x: Entry, y: Entry) {
    && y.pid == x.pid && y.msg == x.msg && y.born == x.born
    && MayBecome(x.fate, y.fate)
    && x.retries <= y.retries
    && x.sends <= y.sends
    && x.resumes <= y.resumes
  }

  predicate AllContinue(l: Ledger, t: Ledger) {
    |l.entries| <= |t.entries| && forall i :: 0 <= i < |l.entries| ==> Continues(l.entries[i], t.entries[i])
  }

  lemma MovingContinues(l: Ledger, t: Ledger)
    requires AllMoved(l, t)
    ensures AllContinue(l, t) && |t.entries| == |l.entries|
  {
  }

  lemma CountingContinues(l: Ledger, p: Pid, now: Millis)
    ensures AllContinue(l, CountSend(l, p)) && |CountSend(l, p).entries| == |l.entries|
    ensures AllContinue(l, CountRetry(l, p, now)) && |CountRetry(l, p, now).entries| == |l.entries|
  {
  }

  lemma SendContinues(l: Ledger, pk: Packet, ok: bool)
    requires InOrder(l)
    ensures AllContinue(l, EnterSend(l, pk, ok)) && |EnterSend(l, pk, ok).entries| == |l.entries|
  {
    hide InOrder, AllContinue, AllMoved, CountSend, EndRelease;
    if pk.Publish? && PidOf(pk.qosPid).Some? {
      CountingContinues(l, PidOf(pk.qosPid).value, 0);
    } else {
      OtherSendMoves(l, pk, ok);
      MovingContinues(l, EnterSend(l, pk, ok));
    }
  }

  /** One event adds an entry for a message it accepts, and moves the others forward. */
  lemma StepContinues(l: Ledger, e: Event)
    requires InOrder(l)
    ensures AllContinue(l, Enter(l, e))
    ensures |Enter(l, e).entries| == |l.entries| + if e.Stored? then 1 else 0
  {
    hide EnterArrival, EnterSend, Accept, CountRetry, ClosePend, InOrder, AllContinue, AllMoved, Wipe, CountResume;
    match e
    case Arrived(pk, _) =>
      ArrivalMoves(l, pk);
      MovingContinues(l, EnterArrival(l, pk));
    case Sent(pk, _, ok, _) => SendContinues(l, pk, ok);
    case Stored(p, m) => AcceptContinues(l, p, m);
    case Dropped(p) => DroppingContinues(l, p);
    case Bumped(p, now) => CountingContinues(l, p, now);
    case Resumed => ResumingContinues(l);
    case Cleared =>
      WipeMoves(l);
      MovingContinues(l, Wipe(l));
    case _ =>
      StandingMoves(l, Enter(l, e));
      MovingContinues(l, Enter(l, e));
  }

  lemma DroppingContinues(l: Ledger, p: Pid)
    requires InOrder(l)
    ensures AllContinue(l, ClosePend(l, p, GivenUp)) && |ClosePend(l, p, GivenUp).entries| == |l.entries|
  {
  }

  lemma ResumingContinues(l: Ledger)
    ensures AllContinue(l, CountResume(l)) && |CountResume(l).entries| == |l.entries|
  {
  }

  lemma AcceptContinues(l: Ledger, p: Pid, m: Inflight)
    requires InOrder(l)
    ensures AllContinue(l, Accept(l, p, m)) && |Accept(l, p, m).entries| == |l.entries| + 1
  {
  }

  lemma {:induction false} AcceptedIsEntries(s: State)
    requires Sound(s)
    ensures |Books(s.core.log).entries| == Accepted(s.core.log)
    decreases |s.core.log|
  {
    hide At, Apply, Guard, Enter;
    if s.core.log != [] {
      BeforeIsSound(s);
      AcceptedIsEntries(Before(s));
      BooksAgree(Before(s));
      StepContinues(Books(Before(s).core.log), Last(s));
    }
  }

  /** The i-th accepted message keeps its id, content and birth for the rest of the run; an outcome
      (completed, given up, release lost, wiped, overwritten), once reached, is final. */
  lemma {:induction false} FatesOnlyMoveForward(s: State, n: nat, i: nat)
    requires Sound(s) && n <= |s.core.log| && i < |Books(s.core.log[..n]).entries|
    ensures i < |Books(s.core.log).entries|
    ensures Continues(Books(s.core.log[..n]).entries[i], Books(s.core.log).entries[i])
    decreases |s.core.log|
  {
    hide At, Apply, Guard, Enter;
    if n == |s.core.log| {
      assert s.core.log[..n] == s.core.log;
    } else {
      BeforeIsSound(s);
      assert Before(s).core.log[..n] == s.core.log[..n];
      FatesOnlyMoveForward(Before(s), n, i);
      BooksAgree(Before(s));
      StepContinues(Books(Before(s).core.log), Last(s));
    }
  }

  // ---------------------------------------------------------------- the conservation law

  lemma {:induction false} FlowControlHolds(s: State)
    requires Sound(s)
    ensures |s.core.sess.pubs| <= s.core.cfg.maxInflight
    decreases |s.core.log|
  {
    if s.core.log == [] {
      AtIsSound(s, 0);
    } else {
      BeforeIsSound(s);
      FlowControlHolds(Before(s));
      PendingGrowsByStoring(Before(s).core, Last(s));
    }
  }

  lemma PendingGrowsByStoring(c: Core, e: Event)
    ensures |Post(c, e).sess.pubs| <= |c.sess.pubs| + if e.Stored? then 1 else 0
  {
  }

  predicate NoneOverwritten(l: Ledger) {
    forall i :: 0 <= i < |l.entries| ==> l.entries[i].fate != Overwritten
  }

  lemma SendOverwritesNone(l: Ledger, pk: Packet, ok: bool)
    requires InOrder(l) && NoneOverwritten(l)
    requires pk.Pubrel? && l.releasing.Some? ==> pk.pid !in l.rel
    ensures NoneOverwritten(EnterSend(l, pk, ok))
  {
  }

  lemma StepOverwritesNone(l: Ledger, e: Event)
    requires InOrder(l) && NoneOverwritten(l)
    requires e.Stored? ==> e.pid !in l.pend
    requires e.Sent? && e.packet.Pubrel? && l.releasing.Some? ==> e.packet.pid !in l.rel
    ensures NoneOverwritten(Enter(l, e))
  {
    hide EnterSend;
    if e.Sent? {
      SendOverwritesNone(l, e.packet, e.ok);
    }
  }

  lemma {:induction false} NothingOverwritten(s: State)
    requires Sound(s) && Window.Windowed(s.core.log)
    ensures NoneOverwritten(Books(s.core.log))
    decreases |s.core.log|
  {
    hide At, Apply, Enter, SendEvent, Books, Window.Windowed;
    if s.core.log != [] {
      BeforeIsSound(s);
      Window.WindowedBefore(s);
      NothingOverwritten(Before(s));
      Window.StoresStayDisjoint(Before(s));
      BooksAgree(Before(s));
      ControlHolds(Before(s));
      GuardIsCore(Before(s), Last(s));
      DisjointOverwritesNone(Before(s).core, Books(Before(s).core.log), Last(s));
      assert Books(s.core.log) == Enter(Books(Before(s).core.log), Last(s)) by {
        BooksEnter(s.core.log);
      }
    } else {
      NothingYet();
    }
  }

  lemma BooksEnter(log: seq<Event>)
    requires log != []
    ensures Books(log) == Enter(Books(log[..|log| - 1]), log[|log| - 1])
  {
  }

  lemma NothingYet()
    ensures NoneOverwritten(Books([]))
  {
  }

  lemma DisjointOverwritesNone(c: Core, l: Ledger, e: Event)
    requires GuardCore(c, e) && CtxOk(c) && Window.Disjoint(c) && Reconciled(c, l) && NoneOverwritten(l)
    ensures NoneOverwritten(Enter(l, e))
  {
    hide Enter, InOrder, SendEvent;
    StepOverwritesNone(l, e);
  }

  /** Over any run: every accepted QoS 1 or QoS 2 message is pending, awaits its PUBCOMP, has its
      PUBREL under way, or has met exactly one of the final fates, and the two stores hold exactly
      the first two groups. Flow control bounds the pending ones, between calls nothing is under
      way, and under the window hypothesis nothing is overwritten. */
  lemma EveryMessageIsAccountedFor(s: State)
    requires Sound(s)
    ensures var es := Books(s.core.log).entries;
            && |es| == Accepted(s.core.log)
            && Count(es, InFlight) == |s.core.sess.pubs| <= s.core.cfg.maxInflight
            && Count(es, AwaitingComp) == |s.core.sess.rels|
            && (s.core.ctx.Idle? ==> Count(es, Releasing) == 0)
            && (Window.Windowed(s.core.log) ==> Count(es, Overwritten) == 0)
            && Accepted(s.core.log)
               == |s.core.sess.pubs| + |s.core.sess.rels| + Count(es, Releasing) + Count(es, Completed)
                  + Count(es, GivenUp) + Count(es, ReleaseLost) + Count(es, Wiped) + Count(es, Overwritten)
  {
    var l := Books(s.core.log);
    BooksAgree(s);
    IndexesCount(l);
    FatesPartition(l.entries);
    AcceptedIsEntries(s);
    FlowControlHolds(s);
    assert |l.pend| == |l.pend.Keys| && |s.core.sess.pubs| == |s.core.sess.pubs.Keys|;
    assert |l.rel| == |l.rel.Keys|;
    if Window.Windowed(s.core.log) {
      NothingOverwritten(s);
      CountIsSize(l.entries, Overwritten);
      assert Where(l.entries, Overwritten) == {};
    }
  }
}
