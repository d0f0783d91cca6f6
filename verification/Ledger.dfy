/** An independent account of the run, kept from the log alone: what became of every accepted
    QoS 1 or QoS 2 message, and how often it was sent. The account agrees with the two session
    stores in every reachable state. */
module Ledger {
  import opened Mqtt
  import opened Wire
  import opened SessionModel
  import opened Machine
  import opened Control

  datatype Fate =
    | InFlight        // pending PUBLISH
    | Releasing       // PUBREC came, the PUBREL is about to be sent
    | AwaitingComp    // PUBREL sent and recorded
    | Completed       // acknowledged by PUBACK or PUBCOMP
    | GivenUp         // dropped by the sweep after its retries
    | ReleaseLost     // the first PUBREL could not be sent
    | Wiped           // the session was cleared
    | Overwritten     // another message was accepted under the same id

  /** A message accepted under pid by the born-th allocation since the last clear, the times of its
      sweep retries, how many PUBLISH packets were sent for it, and how many resumes found it pending. */
  datatype Entry = Entry(pid: Pid, msg: Inflight, born: nat, fate: Fate, retries: seq<Millis>, sends: nat, resumes: nat)

  /** All entries in order of acceptance, and which of them each store currently holds. */
  datatype Ledger = Ledger(
    entries: seq<Entry>,
    pend: map<Pid, nat>,
    rel: map<Pid, nat>,
    releasing: Option<nat>,
    allocs: nat,
    online: bool)

  const BLANK := Ledger([], map[], map[], None, 0, false)

  function SetFate(es: seq<Entry>, i: nat, f: Fate): seq<Entry> {
    if i < |es| then es[i := es[i].(fate := f)] else es
  }

  function ClosePend(l: Ledger, p: Pid, f: Fate): Ledger {
    if p in l.pend then l.(entries := SetFate(l.entries, l.pend[p], f), pend := l.pend - {p}) else l
  }

  function CloseRel(l: Ledger, p: Pid, f: Fate): Ledger {
    if p in l.rel then l.(entries := SetFate(l.entries, l.rel[p], f), rel := l.rel - {p}) else l
  }

  function Accept(l: Ledger, p: Pid, m: Inflight): Ledger {
    var l1 := ClosePend(l, p, Overwritten);
    l1.(entries := l1.entries + [Entry(p, m, if l.allocs > 0 then l.allocs - 1 else 0, InFlight, [], 0, 0)],
        pend := l1.pend[p := |l1.entries|])
  }

  function StartRelease(l: Ledger, p: Pid): Ledger {
    if p in l.pend then
      l.(entries := SetFate(l.entries, l.pend[p], Releasing), pend := l.pend - {p}, releasing := Some(l.pend[p]))
    else l
  }

  function RecordRelease(l: Ledger, p: Pid): Ledger
    requires l.releasing.Some?
  {
    var i := l.releasing.value;
    l.(entries := SetFate(l.entries, i, AwaitingComp), rel := l.rel[p := i], releasing := None)
  }

  function EndRelease(l: Ledger, p: Pid, ok: bool): Ledger {
    if l.releasing.None? then l
    else if ok then RecordRelease(CloseRel(l, p, Overwritten), p)
    else l.(entries := SetFate(l.entries, l.releasing.value, ReleaseLost), releasing := None)
  }

  function CountSend(l: Ledger, p: Pid): Ledger {
    if p in l.pend && l.pend[p] < |l.entries| then
      var i := l.pend[p];
      l.(entries := l.entries[i := l.entries[i].(sends := l.entries[i].sends + 1)])
    else l
  }

  function CountRetry(l: Ledger, p: Pid, now: Millis): Ledger {
    if p in l.pend && l.pend[p] < |l.entries| then
      var i := l.pend[p];
      l.(entries := l.entries[i := l.entries[i].(retries := l.entries[i].retries + [now])])
    else l
  }

  function CountResume(l: Ledger): Ledger {
    l.(entries := seq(|l.entries|, i requires 0 <= i < |l.entries| =>
         if l.entries[i].fate == InFlight then l.entries[i].(resumes := l.entries[i].resumes + 1) else l.entries[i]))
  }

  function Wipe(l: Ledger): Ledger {
    l.(entries := seq(|l.entries|, i requires 0 <= i < |l.entries| =>
         if l.entries[i].fate in {InFlight, AwaitingComp} then l.entries[i].(fate := Wiped) else l.entries[i]),
       pend := map[], rel := map[], allocs := 0)
  }

  function EnterArrival(l: Ledger, pk: Packet): Ledger {
    match pk
    case Puback(p) => ClosePend(l, p, Completed)
    case Pubrec(p) => StartRelease(l, p)
    case Pubcomp(p) => CloseRel(ClosePend(l, p, Completed), p, Completed)
    case _ => l
  }

  function EnterSend(l: Ledger, pk: Packet, ok: bool): Ledger {
    match pk
    case Publish(_, Level1(p), _, _, _, _) => CountSend(l, p)
    case Publish(_, Level2(p), _, _, _, _) => CountSend(l, p)
    case Pubrel(p) => EndRelease(l, p, ok)
    case Disconnect => l.(online := l.online && !ok)
    case _ => l
  }

  function Enter(l: Ledger, e: Event): Ledger {
    match e
    case Allocated(_) => l.(allocs := l.allocs + 1)
    case Stored(p, m) => Accept(l, p, m)
    case Greeted(pk, _) => l.(online := pk.Connack? && pk.code == 0)
    case Arrived(pk, _) => EnterArrival(l, pk)
    case Sent(pk, _, ok, _) => EnterSend(l, pk, ok)
    case Dropped(p) => ClosePend(l, p, GivenUp)
    case Bumped(p, now) => CountRetry(l, p, now)
    case Resumed => CountResume(l)
    case Cleared => Wipe(l)
    case _ => l
  }

  /** The account of a whole log. */
  function Books(log: seq<Event>): Ledger
    decreases |log|
  {
    if log == [] then BLANK else Enter(Books(log[..|log| - 1]), log[|log| - 1])
  }

  // ---------------------------------------------------------------- the account is in order

  /** The two indexes and the fates say the same: an entry is in flight (or awaits its PUBCOMP)
      exactly when the index of that store points at it. */
  predicate InOrder(l: Ledger) {
    && (forall p :: p in l.pend ==>
          l.pend[p] < |l.entries| && l.entries[l.pend[p]].pid == p && l.entries[l.pend[p]].fate == InFlight)
    && (forall p :: p in l.rel ==>
          l.rel[p] < |l.entries| && l.entries[l.rel[p]].pid == p && l.entries[l.rel[p]].fate == AwaitingComp)
    && (forall i :: 0 <= i < |l.entries| && l.entries[i].fate == InFlight ==>
          l.entries[i].pid in l.pend && l.pend[l.entries[i].pid] == i)
    && (forall i :: 0 <= i < |l.entries| && l.entries[i].fate == AwaitingComp ==>
          l.entries[i].pid in l.rel && l.rel[l.entries[i].pid] == i)
    && (forall i :: 0 <= i < |l.entries| && l.entries[i].fate == Releasing ==> l.releasing == Some(i))
    && (l.releasing.Some? ==> l.releasing.value < |l.entries| && l.entries[l.releasing.value].fate == Releasing)
  }

  function LastStamp(e: Entry): Millis {
    if e.retries == [] then e.msg.timestamp else e.retries[|e.retries| - 1]
  }

  /** The stored message is the accepted one, with its retries counted and its last try stamped. */
  predicate Tracks(e: Entry, m: Inflight) {
    && m == e.msg.(retryCount := |e.retries|, timestamp := LastStamp(e))
  }

  /** The id of a first PUBREL that is owed. */
  function OwedRelease(ctx: Ctx): Option<Pid> {
    if ctx.Owing? && ctx.reply.Pubrel? then Some(ctx.reply.pid) else None
  }

  /** The account and the two stores agree. */
  predicate Agrees(l: Ledger, pubs: map<Pid, Inflight>, rels: set<Pid>, owed: Option<Pid>) {
    && InOrder(l)
    && l.pend.Keys == pubs.Keys
    && l.rel.Keys == rels
    && (forall p :: p in pubs ==> Tracks(l.entries[l.pend[p]], pubs[p]))
    && (l.releasing.Some? <==> owed.Some?)
    && (l.releasing.Some? ==> l.entries[l.releasing.value].pid == owed.value)
  }

  predicate Reconciled(c: Core, l: Ledger) {
    Agrees(l, c.sess.pubs, c.sess.rels, OwedRelease(c.ctx)) && l.online == c.connected
  }

  lemma ClosePendStays(l: Ledger, p: Pid, f: Fate)
    requires InOrder(l) && f in {Completed, GivenUp, Overwritten}
    ensures var t := ClosePend(l, p, f);
            && InOrder(t)
            && t.pend.Keys == l.pend.Keys - {p}
            && t.rel == l.rel && t.releasing == l.releasing && t.online == l.online && t.allocs == l.allocs
            && |t.entries| == |l.entries|
            && forall i :: 0 <= i < |l.entries| && !(p in l.pend && i == l.pend[p]) ==> t.entries[i] == l.entries[i]
  {
  }

  lemma CloseRelStays(l: Ledger, p: Pid, f: Fate)
    requires InOrder(l) && f in {Completed, Overwritten}
    ensures var t := CloseRel(l, p, f);
            && InOrder(t)
            && t.rel.Keys == l.rel.Keys - {p}
            && t.pend == l.pend && t.releasing == l.releasing && t.online == l.online && t.allocs == l.allocs
            && |t.entries| == |l.entries|
            && forall i :: 0 <= i < |l.entries| && !(p in l.rel && i == l.rel[p]) ==> t.entries[i] == l.entries[i]
  {
  }

  // ---------------------------------------------------------------- fates move forward

  predicate MayBecome(f: Fate, g: Fate) {
    || g == f
    || f == InFlight
    || (f == Releasing && g in {AwaitingComp, ReleaseLost, Completed, Wiped, Overwritten})
    || (f == AwaitingComp && g in {Completed, Wiped, Overwritten})
  }

  /** x became y without any new send, retry or resume, and was not given up. */
  predicate OnlyMoved(x: Entry, y: Entry) {
    && y == x.(fate := y.fate)
    && MayBecome(x.fate, y.fate)
    && (y.fate != x.fate ==> y.fate != InFlight && y.fate != GivenUp)
  }

  predicate AllMoved(l: Ledger, t: Ledger) {
    && |t.entries| == |l.entries|
    && forall i :: 0 <= i < |l.entries| ==> OnlyMoved(l.entries[i], t.entries[i])
  }

  lemma StandingMoves(l: Ledger, t: Ledger)
    requires t.entries == l.entries
    ensures AllMoved(l, t)
  {
  }

  lemma WipeMoves(l: Ledger)
    ensures AllMoved(l, Wipe(l))
  {
  }

  lemma MovedTwice(l: Ledger, t: Ledger, u: Ledger)
    requires AllMoved(l, t) && AllMoved(t, u)
    ensures AllMoved(l, u)
  {
  }

  lemma ClosePendMoves(l: Ledger, p: Pid, f: Fate)
    requires InOrder(l) && f in {Completed, Overwritten}
    ensures AllMoved(l, ClosePend(l, p, f))
  {
  }

  lemma CloseRelMoves(l: Ledger, p: Pid, f: Fate)
    requires InOrder(l) && f in {Completed, Overwritten}
    ensures AllMoved(l, CloseRel(l, p, f))
  {
  }

  lemma StartReleaseMoves(l: Ledger, p: Pid)
    requires InOrder(l)
    ensures AllMoved(l, StartRelease(l, p))
  {
  }

  lemma EndReleaseMoves(l: Ledger, p: Pid, ok: bool)
    requires InOrder(l)
    ensures AllMoved(l, EndRelease(l, p, ok))
  {
  }

  lemma ArrivalMoves(l: Ledger, pk: Packet)
    requires InOrder(l)
    ensures AllMoved(l, EnterArrival(l, pk))
  {
    hide InOrder, ClosePend, CloseRel, StartRelease;
    match pk
    case Puback(p) => ClosePendMoves(l, p, Completed);
    case Pubrec(p) => StartReleaseMoves(l, p);
    case Pubcomp(p) =>
      var l1 := ClosePend(l, p, Completed);
      ClosePendMoves(l, p, Completed);
      ClosePendStays(l, p, Completed);
      CloseRelMoves(l1, p, Completed);
      MovedTwice(l, l1, CloseRel(l1, p, Completed));
    case _ =>
  }

  /** Any send but that of a PUBLISH with an id. */
  lemma OtherSendMoves(l: Ledger, pk: Packet, ok: bool)
    requires InOrder(l) && !(pk.Publish? && PidOf(pk.qosPid).Some?)
    ensures AllMoved(l, EnterSend(l, pk, ok))
  {
    hide InOrder, EndRelease;
    if pk.Pubrel? {
      EndReleaseMoves(l, pk.pid, ok);
    }
  }

  lemma AckAgrees(l: Ledger, pubs: map<Pid, Inflight>, rels: set<Pid>, p: Pid, f: Fate)
    requires Agrees(l, pubs, rels, None) && f in {Completed, GivenUp, Overwritten}
    ensures Agrees(ClosePend(l, p, f), pubs - {p}, rels, None)
  {
    ClosePendStays(l, p, f);
  }

  lemma AppendAgrees(l: Ledger, pubs: map<Pid, Inflight>, rels: set<Pid>, x: Entry)
    requires Agrees(l, pubs, rels, None) && x.pid !in pubs && x.fate == InFlight && x.retries == []
    requires x.msg.retryCount == 0
    ensures Agrees(l.(entries := l.entries + [x], pend := l.pend[x.pid := |l.entries|]), pubs[x.pid := x.msg], rels, None)
  {
    var t := l.(entries := l.entries + [x], pend := l.pend[x.pid := |l.entries|]);
    assert forall i :: 0 <= i < |l.entries| ==> t.entries[i] == l.entries[i];
    assert t.entries[|l.entries|] == x;
    AppendInOrder(l, x);
    hide InOrder;
  }

  lemma AppendInOrder(l: Ledger, x: Entry)
    requires InOrder(l) && x.pid !in l.pend && x.fate == InFlight
    ensures InOrder(l.(entries := l.entries + [x], pend := l.pend[x.pid := |l.entries|]))
  {
  }

  lemma AcceptAgrees(l: Ledger, pubs: map<Pid, Inflight>, rels: set<Pid>, p: Pid, m: Inflight)
    requires Agrees(l, pubs, rels, None) && m.retryCount == 0
    ensures Agrees(Accept(l, p, m), pubs[p := m], rels, None)
  {
    hide Agrees;
    AckAgrees(l, pubs, rels, p, Overwritten);
    var x := Entry(p, m, if l.allocs > 0 then l.allocs - 1 else 0, InFlight, [], 0, 0);
    AppendAgrees(ClosePend(l, p, Overwritten), pubs - {p}, rels, x);
    assert (pubs - {p})[p := m] == pubs[p := m];
  }

  lemma OwedIffReleasing(l: Ledger, pubs: map<Pid, Inflight>, rels: set<Pid>, owed: Option<Pid>)
    requires Agrees(l, pubs, rels, owed)
    ensures l.releasing.Some? <==> owed.Some?
  {
  }

  lemma CompAgrees(l: Ledger, pubs: map<Pid, Inflight>, rels: set<Pid>, owed: Option<Pid>, p: Pid, f: Fate)
    requires Agrees(l, pubs, rels, owed) && f in {Completed, Overwritten}
    ensures Agrees(CloseRel(l, p, f), pubs, rels - {p}, owed)
  {
    CloseRelStays(l, p, f);
  }

  lemma StartReleaseInOrder(l: Ledger, p: Pid)
    requires InOrder(l) && l.releasing.None? && p in l.pend
    ensures InOrder(StartRelease(l, p))
    ensures forall q :: q in l.pend && q != p ==> l.pend[q] != l.pend[p]
  {
    var i, t := l.pend[p], StartRelease(l, p);
    assert t.entries[i] == l.entries[i].(fate := Releasing);
    assert forall k :: 0 <= k < |l.entries| && k != i ==> t.entries[k] == l.entries[k] && l.entries[k].fate != Releasing;
  }

  lemma RecAgrees(l: Ledger, pubs: map<Pid, Inflight>, rels: set<Pid>, p: Pid)
    requires Agrees(l, pubs, rels, None)
    ensures Agrees(StartRelease(l, p), pubs - {p}, rels, if p in pubs then Some(p) else None)
  {
    if p in pubs {
      StartReleaseInOrder(l, p);
      assert l.entries[l.pend[p]].pid == p;
    } else {
      assert pubs - {p} == pubs;
    }
    hide InOrder;
  }

  lemma RecordAgrees(l: Ledger, pubs: map<Pid, Inflight>, rels: set<Pid>, p: Pid)
    requires Agrees(l, pubs, rels, Some(p)) && p !in rels
    ensures Agrees(RecordRelease(l, p), pubs, rels + {p}, None)
  {
    var t := RecordRelease(l, p);
    assert forall i :: 0 <= i < |l.entries| && i != l.releasing.value ==> t.entries[i] == l.entries[i];
    assert InOrder(t);
  }

  lemma LoseAgrees(l: Ledger, pubs: map<Pid, Inflight>, rels: set<Pid>, p: Pid)
    requires Agrees(l, pubs, rels, Some(p))
    ensures Agrees(EndRelease(l, p, false), pubs, rels, None)
  {
  }

  lemma ReleaseAgrees(l: Ledger, pubs: map<Pid, Inflight>, rels: set<Pid>, p: Pid, ok: bool)
    requires Agrees(l, pubs, rels, Some(p))
    ensures Agrees(EndRelease(l, p, ok), pubs, if ok then rels + {p} else rels, None)
  {
    hide Agrees;
    if ok {
      OwedIffReleasing(l, pubs, rels, Some(p));
      CompAgrees(l, pubs, rels, Some(p), p, Overwritten);
      RecordAgrees(CloseRel(l, p, Overwritten), pubs, rels - {p}, p);
      assert rels - {p} + {p} == rels + {p};
    } else {
      LoseAgrees(l, pubs, rels, p);
    }
  }

  /** x differs from y in its counts of sends and resumes at most. */
  predicate SameButCounts(x: Entry, y: Entry) {
    x == y.(sends := x.sends, resumes := x.resumes)
  }

  lemma CountsAreApart(l: Ledger, es: seq<Entry>, pubs: map<Pid, Inflight>, rels: set<Pid>, owed: Option<Pid>)
    requires Agrees(l, pubs, rels, owed)
    requires |es| == |l.entries| && forall i :: 0 <= i < |es| ==> SameButCounts(es[i], l.entries[i])
    ensures Agrees(l.(entries := es), pubs, rels, owed)
  {
  }

  lemma CountSendAgrees(l: Ledger, pubs: map<Pid, Inflight>, rels: set<Pid>, owed: Option<Pid>, p: Pid)
    requires Agrees(l, pubs, rels, owed)
    ensures Agrees(CountSend(l, p), pubs, rels, owed)
  {
    hide Agrees;
    CountsAreApart(l, CountSend(l, p).entries, pubs, rels, owed);
  }

  lemma CountRetryInOrder(l: Ledger, p: Pid, now: Millis)
    requires InOrder(l) && p in l.pend
    ensures InOrder(CountRetry(l, p, now))
    ensures forall q :: q in l.pend && q != p ==> l.pend[q] != l.pend[p]
  {
    var t := CountRetry(l, p, now);
    assert forall i :: 0 <= i < |l.entries| ==> t.entries[i] == l.entries[i].(retries := t.entries[i].retries);
  }

  lemma CountRetryAgrees(l: Ledger, pubs: map<Pid, Inflight>, rels: set<Pid>, p: Pid, now: Millis)
    requires Agrees(l, pubs, rels, None) && p in pubs
    ensures Agrees(CountRetry(l, p, now), pubs[p := Bump(pubs[p], now)], rels, None)
  {
    CountRetryInOrder(l, p, now);
    assert Tracks(l.entries[l.pend[p]], pubs[p]);
    hide InOrder;
  }

  lemma CountResumeAgrees(l: Ledger, pubs: map<Pid, Inflight>, rels: set<Pid>)
    requires Agrees(l, pubs, rels, None)
    ensures Agrees(CountResume(l), pubs, rels, None)
  {
    hide Agrees;
    CountsAreApart(l, CountResume(l).entries, pubs, rels, None);
  }

  lemma WipeAgrees(l: Ledger, pubs: map<Pid, Inflight>, rels: set<Pid>)
    requires Agrees(l, pubs, rels, None)
    ensures Agrees(Wipe(l), map[], {}, None)
  {
  }

  lemma ArrivalReconciles(s: State, l: Ledger, pk: Packet, at: Millis)
    requires Reconciled(s.core, l) && s.core.ctx.Idle?
    ensures Reconciled(Post(s.core, Arrived(pk, at)), Enter(l, Arrived(pk, at)))
  {
    hide Agrees;
    var pubs, rels := s.core.sess.pubs, s.core.sess.rels;
    match pk
    case Puback(p) => AckAgrees(l, pubs, rels, p, Completed);
    case Pubcomp(p) =>
      AckAgrees(l, pubs, rels, p, Completed);
      CompAgrees(ClosePend(l, p, Completed), pubs - {p}, rels, None, p, Completed);
    case Pubrec(p) => RecAgrees(l, pubs, rels, p);
    case _ =>
  }

  lemma OnlineIsApart(l: Ledger, pubs: map<Pid, Inflight>, rels: set<Pid>, online: bool)
    requires Agrees(l, pubs, rels, None)
    ensures Agrees(l.(online := online), pubs, rels, None)
  {
  }

  lemma AllocsAreApart(l: Ledger, pubs: map<Pid, Inflight>, rels: set<Pid>)
    requires Agrees(l, pubs, rels, None)
    ensures Agrees(l.(allocs := l.allocs + 1), pubs, rels, None)
  {
  }

  lemma SendReconciles(s: State, l: Ledger, e: Event)
    requires InControl(s) && Reconciled(s.core, l) && GuardCore(s.core, e) && e.Sent?
    ensures Reconciled(Post(s.core, e), Enter(l, e))
  {
    hide Agrees, SendEvent;
    var c := s.core;
    var pubs, rels, owed := c.sess.pubs, c.sess.rels, OwedRelease(c.ctx);
    OwedIffReleasing(l, pubs, rels, owed);
    match e.packet
    case Publish(_, Level1(p), _, _, _, _) => CountSendAgrees(l, pubs, rels, owed, p);
    case Publish(_, Level2(p), _, _, _, _) => CountSendAgrees(l, pubs, rels, owed, p);
    case Pubrel(p) =>
      if owed.Some? {
        ReleaseAgrees(l, pubs, rels, p, e.ok);
      }
    case Disconnect => OnlineIsApart(l, pubs, rels, l.online && !e.ok);
    case _ =>
  }

  lemma EntersOnline(l: Ledger, e: Event)
    requires !e.Sent? && !e.Arrived? && !e.Greeted?
    ensures Enter(l, e).online == l.online
  {
  }

  lemma LocalStepReconciles(s: State, l: Ledger, e: Event)
    requires Reconciled(s.core, l) && GuardCore(s.core, e) && !e.Sent? && !e.Arrived?
    ensures Reconciled(Post(s.core, e), Enter(l, e))
  {
    hide Agrees, AfterSend, AfterArrival, MaySend, EnterSend, EnterArrival, SendEvent;
    hide Accept, ClosePend, CountRetry, CountResume, Elapsed, LastIs, JustAllocated;
    if !e.Greeted? {
      EntersOnline(l, e);
    }
    var pubs, rels := s.core.sess.pubs, s.core.sess.rels;
    match e
    case Greeted(pk, _) => OnlineIsApart(l, pubs, rels, pk.Connack? && pk.code == 0);
    case Allocated(_) => AllocsAreApart(l, pubs, rels);
    case Stored(p, m) => AcceptAgrees(l, pubs, rels, p, m);
    case Dropped(p) => AckAgrees(l, pubs, rels, p, GivenUp);
    case Bumped(p, now) => CountRetryAgrees(l, pubs, rels, p, now);
    case Resumed => CountResumeAgrees(l, pubs, rels);
    case Cleared => WipeAgrees(l, pubs, rels);
    case _ =>
  }

  lemma StepReconciles(s: State, l: Ledger, e: Event)
    requires InControl(s) && Reconciled(s.core, l) && GuardCore(s.core, e)
    ensures Reconciled(Post(s.core, e), Enter(l, e))
  {
    if e.Sent? {
      hide Agrees, Effect, Enter, MaySend;
      SendReconciles(s, l, e);
    } else if e.Arrived? {
      hide Agrees, Effect, Enter, MaySend;
      ArrivalReconciles(s, l, e.packet, e.at);
    } else {
      hide Agrees, Effect, Enter, MaySend;
      LocalStepReconciles(s, l, e);
    }
  }

  /** In every reachable state the session's two stores hold exactly what the account of the log
      says is in flight and awaits its PUBCOMP. */
  lemma {:induction false} BooksAgree(s: State)
    requires Sound(s)
    ensures Reconciled(s.core, Books(s.core.log))
    decreases |s.core.log|
  {
    if s.core.log != [] {
      BeforeIsSound(s);
      BooksAgree(Before(s));
      ControlHolds(Before(s));
      StepReconciles(Before(s), Books(Before(s).core.log), Last(s));
    } else {
      AtIsSound(s, 0);
    }
  }
}
