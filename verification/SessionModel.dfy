/** The value of an in-memory session and the operations on it that are more than one map update. */
module SessionModel {
  import opened Mqtt
  import opened PacketIds

  datatype SubState = Pending | Active | Failed

  datatype SubInfo = SubInfo(filter: Filter, qos: QoS, state: SubState)

  /** The allocator, the two QoS stores, the subscription table and its index of active filters. */
  datatype Session = Session(
    nextPid: Pid,
    pubs: map<Pid, Inflight>,
    rels: set<Pid>,
    subs: map<Pid, SubInfo>,
    active: set<Filter>,
    capacity: nat)

  function Empty(capacity: nat): Session {
    Session(FIRST_PID, map[], {}, map[], {}, capacity)
  }

  /** Whether a SUBACK makes `confirm_subscription` report an internal error. */
  predicate ConfirmFails(s: Session, p: Pid, codes: seq<nat>) {
    p in s.subs && |codes| > 0 && codes[0] <= 2 && |s.active| >= s.capacity
  }

  /** `confirm_subscription`: only the first return code is read, and an accepted entry is marked
      active even when the index of active filters has no room for its filter. */
  function ConfirmSub(s: Session, p: Pid, codes: seq<nat>): Session {
    if p !in s.subs || codes == [] then s
    else if codes[0] > 2 then s.(subs := s.subs[p := s.subs[p].(state := Failed)])
    else
      var t := s.(subs := s.subs[p := s.subs[p].(state := Active)]);
      if |s.active| < s.capacity then t.(active := s.active + {s.subs[p].filter}) else t
  }

  function RemoveSub(s: Session, p: Pid): Session
    requires p in s.subs
  {
    s.(subs := s.subs - {p}, active := s.active - {s.subs[p].filter})
  }

  /** Position i of the iteration is the first whose entry has the given filter. */
  predicate FoundAt(subs: map<Pid, SubInfo>, filter: Filter, order: seq<Pid>, i: nat) {
    && i < |order| && order[i] in subs && subs[order[i]].filter == filter
    && forall j :: 0 <= j < i && order[j] in subs ==> subs[order[j]].filter != filter
  }

  lemma FoundLater(subs: map<Pid, SubInfo>, filter: Filter, order: seq<Pid>, i: nat)
    requires order != [] && !FoundAt(subs, filter, order, 0) && FoundAt(subs, filter, order[1..], i)
    ensures FoundAt(subs, filter, order, i + 1) && order[i + 1] == order[1..][i]
  {
    forall j | 0 <= j < i + 1 && order[j] in subs ensures subs[order[j]].filter != filter {
      if j > 0 {
        assert order[j] == order[1..][j - 1];
      }
    }
  }

  /** The first entry, in iteration order, that has the given filter. */
  function FindSub(subs: map<Pid, SubInfo>, filter: Filter, order: seq<Pid>): (r: Option<Pid>)
    ensures r.Some? ==> r.value in subs && subs[r.value].filter == filter
    ensures r.Some? ==> exists i: nat :: FoundAt(subs, filter, order, i) && order[i] == r.value
    ensures r.None? ==> forall p :: p in order && p in subs ==> subs[p].filter != filter
  {
    if order == [] then None
    else if order[0] in subs && subs[order[0]].filter == filter then
      assert FoundAt(subs, filter, order, 0);
      Some(order[0])
    else
      var r := FindSub(subs, filter, order[1..]);
      assert r.Some? ==> exists i: nat :: FoundAt(subs, filter, order, i) && order[i] == r.value by {
        if r.Some? {
          var i: nat :| FoundAt(subs, filter, order[1..], i) && order[1..][i] == r.value;
          FoundLater(subs, filter, order, i);
        }
      }
      r
  }

  lemma {:induction false} FindLeast(keys: set<Pid>) returns (p: Pid)
    requires keys != {}
    ensures p in keys
    ensures forall q :: q in keys ==> p <= q
    decreases |keys|
  {
    var x :| x in keys;
    var rest := keys - {x};
    p := x;
    if rest != {} {
      var y := FindLeast(rest);
      if y < x {
        p := y;
      }
    }
    forall q | q in keys ensures p <= q {
      if q != x { assert q in rest; }
    }
  }

  lemma LeastExists(keys: set<Pid>)
    requires keys != {}
    ensures exists p :: p in keys && forall q :: q in keys ==> p <= q
  {
    var p := FindLeast(keys);
  }

  function Least(keys: set<Pid>): (p: Pid)
    requires keys != {}
    ensures p in keys && forall q :: q in keys ==> p <= q
  {
    LeastExists(keys);
    var p :| p in keys && forall q :: q in keys ==> p <= q;
    p
  }

  lemma {:induction false} SubsetSize<T>(a: set<T>, b: set<T>)
    requires a <= b
    ensures |a| <= |b|
    decreases |a|
  {
    if a != {} {
      var x :| x in a;
      SubsetSize(a - {x}, b - {x});
    }
  }

  predicate Distinct(s: seq<Pid>) {
    forall i, j :: 0 <= i < j < |s| ==> s[i] != s[j]
  }

  function Elems(s: seq<Pid>): set<Pid> { set p | p in s }

  /** A hash-table iteration over `keys`: every key exactly once, in the order `prefer` dictates.
      Every permutation of the keys is the iteration for some `prefer` (itself, for one). */
  function Enumerate(prefer: seq<Pid>, keys: set<Pid>): (r: seq<Pid>)
    ensures forall p :: p in r <==> p in keys
    ensures Distinct(r)
    ensures |r| == |keys|
    decreases keys, |prefer|
  {
    if keys == {} then []
    else if prefer == [] then
      var p := Least(keys);
      [p] + Enumerate([], keys - {p})
    else if prefer[0] in keys then [prefer[0]] + Enumerate(prefer[1..], keys - {prefer[0]})
    else Enumerate(prefer[1..], keys)
  }

  /** Every permutation of the keys is a possible iteration. */
  lemma {:induction false} EveryOrderIsPossible(order: seq<Pid>, keys: set<Pid>)
    requires Distinct(order) && forall p :: p in order <==> p in keys
    ensures Enumerate(order, keys) == order
    decreases |order|
  {
    if order != [] {
      assert order[0] in keys;
      forall p ensures p in order[1..] <==> p in keys - {order[0]} {
        if p in keys && p != order[0] {
          var i :| 0 <= i < |order| && order[i] == p;
          assert order[1..][i - 1] == p;
        }
      }
      EveryOrderIsPossible(order[1..], keys - {order[0]});
    } else {
      assert keys == {};
    }
  }
}
