/** The bounded receive queue over whole runs, for every interleaving of arrivals and pops. */
module ReceiveQueue {
  import opened Mqtt
  import opened Machine
  import Inbox
  import Replies

  /** Every message ever queued, the position of the head of the queue among them, how many were
      dropped to make room, and the positions of those handed to the application. */
  datatype History = History(arrived: seq<Received>, head: nat, dropped: nat, popped: seq<nat>)

  function Note(h: History, capacity: nat, e: Event): History {
    match e
    case Delivered(m) =>
      var full := |h.arrived| > h.head && |h.arrived| - h.head >= capacity;
      var gone := if full then 1 else 0;
      h.(arrived := h.arrived + [m], head := h.head + gone, dropped := h.dropped + gone)
    case Popped(Some(m)) => h.(popped := h.popped + [h.head], head := h.head + 1)
    case _ => h
  }

  function Chronicle(log: seq<Event>, capacity: nat): History
    decreases |log|
  {
    if log == [] then History([], 0, 0, []) else Note(Chronicle(log[..|log| - 1], capacity), capacity, log[|log| - 1])
  }

  predicate Increasing(s: seq<nat>) { forall i, j :: 0 <= i < j < |s| ==> s[i] < s[j] }

  function Max(a: nat, b: nat): nat { if a >= b then a else b }

  /** The queue is the suffix of the arrivals that starts at the head; it is bounded; the popped
      messages come before it, in order and never twice; and nothing else has left it but the
      dropped ones. */
  predicate Kept(h: History, q: seq<Received>, capacity: nat) {
    && h.head <= |h.arrived|
    && q == h.arrived[h.head..]
    && |q| <= Max(capacity, 1)
    && Increasing(h.popped)
    && (forall i :: 0 <= i < |h.popped| ==> h.popped[i] < h.head)
    && h.head == |h.popped| + h.dropped
  }

  lemma PushKeeps(h: History, q: seq<Received>, capacity: nat, m: Received)
    requires Kept(h, q, capacity)
    ensures Kept(Note(h, capacity, Delivered(m)), Inbox.Push(q, capacity, m), capacity)
  {
  }

  lemma PopKeeps(h: History, q: seq<Received>, capacity: nat)
    requires Kept(h, q, capacity) && q != []
    ensures Kept(Note(h, capacity, Popped(Some(q[0]))), q[1..], capacity)
    ensures h.head < |h.arrived| && h.arrived[h.head] == q[0]
  {
  }

  /** In every reachable state the receive queue is a contiguous suffix of everything that was queued,
      its length is at most max(capacity, 1), the messages handed out form an in-order subsequence of
      what precedes it, and arrivals = popped + dropped + queued. */
  lemma {:induction false} QueueIsASuffix(s: State)
    requires Sound(s)
    ensures var h := Chronicle(s.core.log, s.core.cfg.maxInflight);
            && Kept(h, s.app.inbox, s.core.cfg.maxInflight)
            && |h.arrived| == |h.popped| + h.dropped + |s.app.inbox|
            && h.arrived == Replies.Queued(s.core.log)
    decreases |s.core.log|
  {
    hide At, Guard, Apply, Kept, Note;
    if s.core.log == [] {
      AtIsSound(s, 0);
      StartsKept(s);
    } else {
      var t := Before(s);
      BeforeIsSound(s);
      QueueIsASuffix(t);
      AtIsSound(s, |t.core.log|);
      StepKeeps(t, Chronicle(t.core.log, t.core.cfg.maxInflight), Last(s));
      KeptCounts(Chronicle(s.core.log, s.core.cfg.maxInflight), s.app.inbox, s.core.cfg.maxInflight);
    }
  }

  lemma StepKeeps(s: State, h: History, e: Event)
    requires Guard(s, e) && Kept(h, s.app.inbox, s.core.cfg.maxInflight)
    ensures var k, t := Note(h, s.core.cfg.maxInflight, e), Apply(s, e);
            && Kept(k, t.app.inbox, s.core.cfg.maxInflight)
            && k.arrived == h.arrived + if e.Delivered? then [e.item] else []
  {
    hide GuardCore, Effect, Kept;
    if e.Delivered? {
      PushKeeps(h, s.app.inbox, s.core.cfg.maxInflight, e.item);
    } else if e.Popped? && s.app.inbox != [] {
      PopKeeps(h, s.app.inbox, s.core.cfg.maxInflight);
    }
  }

  lemma StartsKept(s: State)
    requires Sound(s) && s.core.log == []
    ensures Kept(History([], 0, 0, []), s.app.inbox, s.core.cfg.maxInflight)
  {
  }

  lemma KeptCounts(h: History, q: seq<Received>, capacity: nat)
    requires Kept(h, q, capacity)
    ensures |h.arrived| == |h.popped| + h.dropped + |q|
  {
  }

  /** What a pop hands out is the message at the head position of the account. */
  lemma PopsComeFromTheHead(s: State, j: nat, m: Received)
    requires Sound(s) && j < |s.core.log| && s.core.log[j] == Popped(Some(m))
    ensures var h := Chronicle(s.core.log[..j], s.core.cfg.maxInflight); h.head < |h.arrived| && h.arrived[h.head] == m
  {
    AtIsSound(s, j);
    QueueIsASuffix(At(s, j));
  }
}
