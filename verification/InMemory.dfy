/** The in-memory session as the object the engine and the client mutate. */
module InMemory {
  import opened Mqtt
  import opened PacketIds
  import opened SessionModel

  class InMemorySession {
    var nextPid: Pid
    var pendingPublishes: map<Pid, Inflight>
    var pendingPubrels: set<Pid>
    var subscriptions: map<Pid, SubInfo>
    var activeTopics: set<Filter>
    const capacity: nat

    ghost function Value(): Session
      reads this
    {
      Session(nextPid, pendingPublishes, pendingPubrels, subscriptions, activeTopics, capacity)
    }

    constructor (capacity: nat)
      ensures Value() == Empty(capacity)
    {
      nextPid := FIRST_PID;
      pendingPublishes, pendingPubrels := map[], {};
      subscriptions, activeTopics := map[], {};
      this.capacity := capacity;
    }

    /** Hands out the stored id without asking whether it is in use. */
    method NextPid() returns (pid: Pid)
      modifies this
      ensures pid == old(nextPid)
      ensures Value() == old(Value()).(nextPid := Succ(pid))
    {
      pid := nextPid;
      nextPid := Succ(nextPid);
    }

    method StoreOutgoingPublish(pid: Pid, message: Inflight)
      modifies this
      ensures Value() == old(Value()).(pubs := old(pendingPublishes)[pid := message])
    {
      pendingPublishes := pendingPublishes[pid := message];
    }

    method GetOutgoingPublish(pid: Pid) returns (found: Option<Inflight>)
      ensures found == if pid in pendingPublishes then Some(pendingPublishes[pid]) else None
    {
      found := if pid in pendingPublishes then Some(pendingPublishes[pid]) else None;
    }

    /** Writes through the mutable reference that the source hands out. */
    method UpdateOutgoingPublish(pid: Pid, message: Inflight)
      requires pid in pendingPublishes
      modifies this
      ensures Value() == old(Value()).(pubs := old(pendingPublishes)[pid := message])
    {
      pendingPublishes := pendingPublishes[pid := message];
    }

    method CompleteOutgoingPublish(pid: Pid) returns (done: Option<Inflight>)
      modifies this
      ensures done == if pid in old(pendingPublishes) then Some(old(pendingPublishes)[pid]) else None
      ensures Value() == old(Value()).(pubs := old(pendingPublishes) - {pid})
    {
      done := if pid in pendingPublishes then Some(pendingPublishes[pid]) else None;
      pendingPublishes := pendingPublishes - {pid};
    }

    /** The pending messages in the order in which an iteration with preference `prefer` yields them. */
    method PendingOutgoingPublishes(prefer: seq<Pid>) returns (order: seq<Pid>)
      ensures order == Enumerate(prefer, pendingPublishes.Keys)
    {
      order := Enumerate(prefer, pendingPublishes.Keys);
    }

    method StoreOutgoingPubrel(pid: Pid)
      modifies this
      ensures Value() == old(Value()).(rels := old(pendingPubrels) + {pid})
    {
      pendingPubrels := pendingPubrels + {pid};
    }

    method CompleteOutgoingPubrel(pid: Pid) returns (done: Option<Pid>)
      modifies this
      ensures done == if pid in old(pendingPubrels) then Some(pid) else None
      ensures Value() == old(Value()).(rels := old(pendingPubrels) - {pid})
    {
      done := if pid in pendingPubrels then Some(pid) else None;
      pendingPubrels := pendingPubrels - {pid};
    }

    method PendingOutgoingPubrels(prefer: seq<Pid>) returns (order: seq<Pid>)
      ensures order == Enumerate(prefer, pendingPubrels)
    {
      order := Enumerate(prefer, pendingPubrels);
    }

    method AddSubscription(pid: Pid, filter: Filter, qos: QoS) returns (r: Result<()>)
      modifies this
      ensures r == if |old(subscriptions)| >= capacity then Err(Internal) else Ok(())
      ensures Value() == if r.Err? then old(Value())
                         else old(Value()).(subs := old(subscriptions)[pid := SubInfo(filter, qos, Pending)])
    {
      if |subscriptions| >= capacity {
        return Err(Internal);
      }
      subscriptions := subscriptions[pid := SubInfo(filter, qos, Pending)];
      r := Ok(());
    }

    method ConfirmSubscription(pid: Pid, codes: seq<nat>) returns (r: Result<()>)
      modifies this
      ensures Value() == ConfirmSub(old(Value()), pid, codes)
      ensures r == if ConfirmFails(old(Value()), pid, codes) then Err(Internal) else Ok(())
    {
      if pid in subscriptions && codes != [] {
        var subscription := subscriptions[pid];
        if codes[0] <= 2 {
          subscriptions := subscriptions[pid := subscription.(state := Active)];
          if |activeTopics| < capacity {
            activeTopics := activeTopics + {subscription.filter};
          } else {
            return Err(Internal);
          }
        } else {
          subscriptions := subscriptions[pid := subscription.(state := Failed)];
        }
      }
      r := Ok(());
    }

    method FindSubscriptionPid(filter: Filter, order: seq<Pid>) returns (found: Option<Pid>)
      ensures found == FindSub(subscriptions, filter, order)
    {
      var i := 0;
      while i < |order|
        invariant 0 <= i <= |order|
        invariant FindSub(subscriptions, filter, order) == FindSub(subscriptions, filter, order[i..])
      {
        if order[i] in subscriptions && subscriptions[order[i]].filter == filter {
          return Some(order[i]);
        }
        i := i + 1;
      }
      found := None;
    }

    method RemoveSubscription(filter: Filter, prefer: seq<Pid>) returns (removed: Option<Pid>)
      modifies this
      ensures removed == FindSub(old(subscriptions), filter, Enumerate(prefer, old(subscriptions).Keys))
      ensures Value() == if removed.Some? then RemoveSub(old(Value()), removed.value) else old(Value())
    {
      removed := FindSubscriptionPid(filter, Enumerate(prefer, subscriptions.Keys));
      if removed.Some? {
        subscriptions := subscriptions - {removed.value};
        activeTopics := activeTopics - {filter};
      }
    }

    method Clear()
      modifies this
      ensures Value() == Empty(capacity)
    {
      nextPid := FIRST_PID;
      pendingPublishes, subscriptions := map[], map[];
      activeTopics, pendingPubrels := {}, {};
    }
  }
}
