/** The subscription table and its index of active filters. */
module Subscriptions {
  import opened Mqtt
  import opened SessionModel
  import opened Machine
  import C = ClientModel

  function ActiveFilters(subs: map<Pid, SubInfo>): set<Filter> {
    set p | p in subs && subs[p].state == Active :: subs[p].filter
  }

  /** The discipline of a run: no SUBSCRIBE is stored over an entry that is already Active, and every
      SUBACK that names a stored entry names a Pending one. */
  ghost predicate Disciplined(s: State) {
    forall j :: 0 <= j < |s.core.log| ==> StepDisciplined(At(s, j).core.sess, s.core.log[j])
  }

  predicate StepDisciplined(sess: Session, e: Event) {
    match e
    case SubAdded(p, _, _) => p in sess.subs ==> sess.subs[p].state != Active
    case SubConfirmed(p, _) => p in sess.subs ==> sess.subs[p].state == Pending
    case _ => true
  }

  predicate Indexed(s: Session) { s.active <= ActiveFilters(s.subs) }

  lemma {:induction false} FiltersFit(subs: map<Pid, SubInfo>, some: set<Pid>)
    requires some <= subs.Keys
    ensures |set p | p in some :: subs[p].filter| <= |some|
    decreases |some|
  {
    if some != {} {
      var p :| p in some;
      FiltersFit(subs, some - {p});
      var rest := set q | q in some - {p} :: subs[q].filter;
      assert (set q | q in some :: subs[q].filter) == rest + {subs[p].filter};
    }
  }

  /** Pigeonhole: while some entry is not Active, the index has room for one more filter. */
  lemma RoomWhilePending(s: Session, p: Pid)
    requires Indexed(s) && |s.subs| <= s.capacity && p in s.subs && s.subs[p].state != Active
    ensures |s.active| < s.capacity
  {
    var others := set q | q in s.subs && s.subs[q].state == Active;
    FiltersFit(s.subs, others);
    assert (set q | q in others :: s.subs[q].filter) == ActiveFilters(s.subs);
    SubsetSize(s.active, ActiveFilters(s.subs));
    assert others <= s.subs.Keys - {p};
    SubsetSize(others, s.subs.Keys - {p});
  }

  lemma AddKeepsIndex(s: Session, p: Pid, f: Filter, q: QoS)
    requires Indexed(s) && (p in s.subs ==> s.subs[p].state != Active)
    ensures Indexed(s.(subs := s.subs[p := SubInfo(f, q, Pending)]))
  {
    var t := s.(subs := s.subs[p := SubInfo(f, q, Pending)]);
    forall x | x in s.active ensures x in ActiveFilters(t.subs) {
      var r :| r in s.subs && s.subs[r].state == Active && s.subs[r].filter == x;
      assert r in t.subs && t.subs[r] == s.subs[r];
    }
  }

  lemma ConfirmKeepsIndex(s: Session, p: Pid, codes: seq<nat>)
    requires Indexed(s) && (p in s.subs ==> s.subs[p].state == Pending)
    ensures Indexed(ConfirmSub(s, p, codes))
  {
    var t := ConfirmSub(s, p, codes);
    forall x | x in t.active ensures x in ActiveFilters(t.subs) {
      if x in s.active {
        var r :| r in s.subs && s.subs[r].state == Active && s.subs[r].filter == x;
        assert r in t.subs && t.subs[r] == s.subs[r];
      } else {
        assert p in t.subs && t.subs[p].state == Active && t.subs[p].filter == x;
      }
    }
  }

  lemma RemoveKeepsIndex(s: Session, p: Pid)
    requires Indexed(s) && p in s.subs
    ensures Indexed(RemoveSub(s, p))
  {
    var t := RemoveSub(s, p);
    forall x | x in t.active ensures x in ActiveFilters(t.subs) {
      var r :| r in s.subs && s.subs[r].state == Active && s.subs[r].filter == x;
      assert r in t.subs && t.subs[r] == s.subs[r];
    }
  }

  /** An event that is none of the session's subscription operations leaves both tables alone. */
  lemma OthersKeepSubs(c: Core, e: Event)
    requires !e.SubAdded? && !e.SubConfirmed? && !e.SubRemoved? && !e.Cleared?
    ensures var t := Post(c, e).sess; t.subs == c.sess.subs && t.active == c.sess.active && t.capacity == c.sess.capacity
  {
  }

  lemma StepKeepsIndex(c: Core, e: Event)
    requires GuardCore(c, e) && StepDisciplined(c.sess, e) && Indexed(c.sess)
    ensures Indexed(Post(c, e).sess)
  {
    hide AfterSend, AfterArrival, Indexed, MaySend;
    match e
    case SubAdded(p, f, q) => AddKeepsIndex(c.sess, p, f, q);
    case SubConfirmed(p, codes) => ConfirmKeepsIndex(c.sess, p, codes);
    case SubRemoved(p) => RemoveKeepsIndex(c.sess, p);
    case Cleared => EmptyIsIndexed(c.sess.capacity);
    case _ =>
      OthersKeepSubs(c, e);
      SameSubsIndexed(c.sess, Post(c, e).sess);
  }

  lemma EmptyIsIndexed(capacity: nat)
    ensures Indexed(Empty(capacity))
  {
  }

  lemma SameSubsIndexed(s: Session, t: Session)
    requires Indexed(s) && t.subs == s.subs && t.active == s.active
    ensures Indexed(t)
  {
  }

  /** On a disciplined run every filter in the index belongs to an Active subscription, even with
      duplicate filters, removals and failed subscriptions. */
  lemma {:induction false} ActiveTopicsAreActive(s: State, n: nat)
    requires Sound(s) && Disciplined(s) && n <= |s.core.log|
    ensures Indexed(At(s, n).core.sess)
    decreases n
  {
    hide At, Effect, GuardCore, Indexed, StepDisciplined;
    AtIsSound(s, n);
    if n == 0 {
      StartsEmpty(s);
      EmptyIsIndexed(s.core.cfg.maxSubscriptions);
    } else {
      ActiveTopicsAreActive(s, n - 1);
      AtIsSound(s, n - 1);
      GuardIsCore(At(s, n - 1), s.core.log[n - 1]);
      StepKeepsIndex(At(s, n - 1).core, s.core.log[n - 1]);
    }
  }

  lemma StartsEmpty(s: State)
    ensures At(s, 0).core.sess == Empty(s.core.cfg.maxSubscriptions)
  {
  }

  /** Both tables stay within the configured capacity in every run, disciplined or not. */
  lemma {:induction false} TablesStayWithinCapacity(s: State)
    requires Sound(s)
    ensures WithinCapacity(s.core.sess)
    decreases |s.core.log|
  {
    hide Effect, GuardCore;
    if s.core.log == [] {
      AtIsSound(s, 0);
      StartsEmpty(s);
    } else {
      BeforeIsSound(s);
      TablesStayWithinCapacity(Before(s));
      GuardIsCore(Before(s), Last(s));
      StepKeepsSizes(Before(s).core, Last(s));
    }
  }

  predicate WithinCapacity(s: Session) { |s.subs| <= s.capacity && |s.active| <= s.capacity }

  lemma AddKeepsSizes(s: Session, p: Pid, info: SubInfo)
    requires WithinCapacity(s) && |s.subs| < s.capacity
    ensures WithinCapacity(s.(subs := s.subs[p := info]))
  {
  }

  lemma ConfirmKeepsSizes(s: Session, p: Pid, codes: seq<nat>)
    requires WithinCapacity(s)
    ensures WithinCapacity(ConfirmSub(s, p, codes))
  {
  }

  lemma RemoveKeepsSizes(s: Session, p: Pid)
    requires WithinCapacity(s) && p in s.subs
    ensures WithinCapacity(RemoveSub(s, p))
  {
  }

  lemma StepKeepsSizes(c: Core, e: Event)
    requires GuardCore(c, e) && WithinCapacity(c.sess)
    ensures WithinCapacity(Post(c, e).sess)
  {
    hide AfterSend, AfterArrival, MaySend, SendEvent;
    var s := c.sess;
    match e
    case SubAdded(p, f, q) => AddKeepsSizes(s, p, SubInfo(f, q, Pending));
    case SubConfirmed(p, codes) => ConfirmKeepsSizes(s, p, codes);
    case SubRemoved(p) => RemoveKeepsSizes(s, p);
    case Cleared =>
    case _ => OthersKeepSubs(c, e);
  }

  /** On a disciplined run no SUBACK ever meets the capacity error of `confirm_subscription`. */
  lemma ConfirmNeverFails(s: State, j: nat)
    requires Sound(s) && Disciplined(s) && j < |s.core.log| && s.core.log[j].SubConfirmed?
    ensures !ConfirmFails(At(s, j).core.sess, s.core.log[j].pid, s.core.log[j].codes)
  {
    hide At, Effect, Indexed;
    var t, p := At(s, j), s.core.log[j].pid;
    ActiveTopicsAreActive(s, j);
    AtIsSound(s, j);
    TablesStayWithinCapacity(t);
    assert StepDisciplined(t.core.sess, s.core.log[j]);
    if p in t.core.sess.subs {
      RoomWhilePending(t.core.sess, p);
    }
  }

  lemma AddingAdds(c: Core, p: Pid, f: Filter, q: QoS)
    ensures Post(c, SubAdded(p, f, q)).sess == c.sess.(subs := c.sess.subs[p := SubInfo(f, q, Pending)])
  {
  }

  /** The table has room, and, for more than one filter, still has room once the id is in it. */
  predicate HasRoom(s: Session, p: Pid, wanted: seq<(Filter, QoS)>) {
    |s.subs| < s.capacity && (|wanted| > 1 ==> |s.subs.Keys + {p}| < s.capacity)
  }

  function Wanted(w: (Filter, QoS)): SubInfo { SubInfo(w.0, w.1, Pending) }

  /** Storing the filters of one SUBSCRIBE keeps only the last of them, under the one id they share.
      It succeeds exactly when there is room for that; otherwise it keeps the first if that one fits. */
  lemma {:induction false} OnlyLastFilterIsStored(c: Core, p: Pid, wanted: seq<(Filter, QoS)>)
    requires wanted != []
    ensures var st, s := C.AddAll(c, p, wanted), c.sess;
            && st.r == (if HasRoom(s, p, wanted) then Ok(()) else Err(Internal))
            && (st.r.Ok? ==> st.c.sess == s.(subs := s.subs[p := Wanted(wanted[|wanted| - 1])]))
            && (st.r.Err? ==> st.c.sess == if |s.subs| < s.capacity then s.(subs := s.subs[p := Wanted(wanted[0])]) else s)
            && c.log <= st.c.log && forall k :: |c.log| <= k < |st.c.log| ==> st.c.log[k].SubAdded?
    decreases |wanted|
  {
    hide Effect, HasRoom;
    AddingAdds(c, p, wanted[0].0, wanted[0].1);
    RoomAfterFirst(c.sess, p, wanted);
    if |c.sess.subs| < c.sess.capacity {
      var d := Post(c, SubAdded(p, wanted[0].0, wanted[0].1));
      if |wanted| > 1 {
        OnlyLastFilterIsStored(d, p, wanted[1..]);
        var last := Wanted(wanted[|wanted| - 1]);
        assert d.sess.subs[p := last] == c.sess.subs[p := last];
      }
    }
  }

  /** Once the id is in the table, adding under it again takes no more room. */
  lemma RoomAfterFirst(s: Session, p: Pid, wanted: seq<(Filter, QoS)>)
    requires wanted != []
    ensures HasRoom(s, p, wanted) ==> |s.subs| < s.capacity
    ensures |wanted| == 1 && |s.subs| < s.capacity ==> HasRoom(s, p, wanted)
    ensures var t := s.(subs := s.subs[p := Wanted(wanted[0])]);
            |wanted| > 1 && |s.subs| < s.capacity ==>
              && (HasRoom(t, p, wanted[1..]) <==> HasRoom(s, p, wanted))
              && (!HasRoom(s, p, wanted) ==> |t.subs| >= t.capacity)
  {
    var t := s.subs[p := Wanted(wanted[0])];
    assert t.Keys == s.subs.Keys + {p} == t.Keys + {p};
    assert |t| == |t.Keys|;
  }

  /** The discipline is needed: with room for one subscription, a repeated SUBACK of an entry that is
      already Active fails although nothing would have to be stored. */
  lemma RepeatedSubackFails(p: Pid, f: Filter, q: QoS)
    ensures var s := Empty(1).(subs := map[p := SubInfo(f, q, Pending)]);
            && !ConfirmFails(s, p, [0])
            && ConfirmFails(ConfirmSub(s, p, [0]), p, [0])
            && f in ConfirmSub(s, p, [0]).active
  {
  }
}
