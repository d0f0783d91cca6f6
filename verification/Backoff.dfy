/** The reconnect counter and the exponential backoff, over whole runs. */
module Backoff {
  import opened Mqtt
  import opened Machine

  /** The attempts counted since the last success. */
  function Tries(log: seq<Event>): nat
    decreases |log|
  {
    if log == [] then 0
    else
      match log[|log| - 1]
      case Attempted => Tries(log[..|log| - 1]) + 1
      case AttemptsReset => 0
      case _ => Tries(log[..|log| - 1])
  }

  /** The interval waited before the k-th attempt since the last success. */
  function IntervalAt(r: Reconnect, k: nat): nat {
    if k == 0 then 0 else NextInterval(r, IntervalAt(r, k - 1))
  }

  /** In every reachable state the counter is the number of attempts since the last success, the
      interval is the one that number calls for, and with a limit set no more attempts are made. */
  lemma {:induction false} AttemptsAreCounted(s: State)
    requires Sound(s)
    ensures var r, k := s.core.cfg.reconnect, Tries(s.core.log);
            && s.app.attempts == k
            && s.app.intervalMs == IntervalAt(r, k)
            && (r.maxAttempts > 0 ==> k <= r.maxAttempts)
            && (!r.enabled ==> k == 0)
    decreases |s.core.log|
  {
    hide At, Post, GuardCore;
    if s.core.log == [] {
      AtIsSound(s, 0);
    } else {
      BeforeIsSound(s);
      AtIsSound(s, |s.core.log| - 1);
      AttemptsAreCounted(Before(s));
    }
  }

  // ---------------------------------------------------------------- connections made by reconnecting

  /** The call in progress is a reconnect, or a poll, which may reconnect. */
  predicate InReconnect(log: seq<Event>) { CallOf(log) in {Some(ReconnectOp), Some(PollOp)} }

  /** The CONNECTs sent inside such calls since the last CONNACK with return code 0. */
  function Reconnects(log: seq<Event>): nat
    decreases |log|
  {
    if log == [] then 0
    else
      var short, e := log[..|log| - 1], log[|log| - 1];
      if e.Greeted? && e.packet.Connack? && e.packet.code == 0 then 0
      else Reconnects(short) + if e.Sent? && e.packet.Connect? && InReconnect(short) then 1 else 0
  }

  /** An attempt has been counted whose CONNECT is still to be sent. */
  function Spare(log: seq<Event>): nat { if MayConnect(log) && InReconnect(log) then 1 else 0 }

  lemma StepSpends(s: State, e: Event)
    requires Guard(s, e) && Reconnects(s.core.log) + Spare(s.core.log) <= s.app.attempts
    ensures var t := Apply(s, e); Reconnects(t.core.log) + Spare(t.core.log) <= t.app.attempts
  {
    hide SendEvent, Effect;
    var log := s.core.log;
    assert (log + [e])[..|log|] == log;
    if e.AttemptsReset? {
      ResetFindsNone(log);
    }
  }

  lemma ResetFindsNone(log: seq<Event>)
    requires JustOpened(log)
    ensures Reconnects(log) == 0 && !MayConnect(log)
  {
    var greeted := log[..|log| - 1];
    GreetedSpends(greeted);
    assert MayConnect(log) == MayConnect(greeted);
  }

  lemma GreetedSpends(log: seq<Event>)
    requires JustGreeted(log)
    ensures Reconnects(log) == 0 && !MayConnect(log)
  {
    var sent := log[..|log| - 1];
    assert sent[|sent| - 1] == log[|log| - 2];
    assert !MayConnect(sent);
    assert MayConnect(log) == MayConnect(sent);
  }

  /** In every reachable state, no more CONNECTs have been sent by reconnect and by poll since the last
      success than attempts are counted, hence with a limit set no more than that limit. */
  lemma {:induction false} ReconnectsAreLimited(s: State)
    requires Sound(s)
    ensures Reconnects(s.core.log) + Spare(s.core.log) <= s.app.attempts
    ensures s.core.cfg.reconnect.maxAttempts > 0 ==> Reconnects(s.core.log) <= s.core.cfg.reconnect.maxAttempts
    decreases |s.core.log|
  {
    hide At, Guard, Apply;
    if s.core.log != [] {
      BeforeIsSound(s);
      ReconnectsAreLimited(Before(s));
      StepSpends(Before(s), Last(s));
    }
    AttemptsAreCounted(s);
  }

  // ---------------------------------------------------------------- the shape of the backoff

  function Pow2(k: nat): nat { if k == 0 then 1 else 2 * Pow2(k - 1) }

  /** The multiplier doubles every interval up to the cap exactly, as f32 arithmetic does for a
      multiplier of 2 and a cap below 2^24. */
  ghost predicate Doubles(r: Reconnect) {
    forall x: nat :: 0 < x <= r.maxMs ==> r.scale(x) == 2 * x
  }

  lemma Pow2Positive(k: nat)
    ensures Pow2(k) > 0
  {
  }

  lemma TwiceTheProduct(i: nat, p: nat)
    ensures i * (2 * p) == 2 * (i * p)
    ensures i > 0 && p > 0 ==> i * p > 0
  {
  }

  lemma CappedDoubling(r: Reconnect, x: nat)
    requires Doubles(r) && x > 0 && r.maxMs > 0
    ensures NextInterval(r, Min(x, r.maxMs)) == Min(2 * x, r.maxMs)
  {
  }

  /** After k consecutive failures with multiplier 2 the interval is min(initial * 2^(k-1), max). */
  lemma {:induction false} DoublingClosedForm(r: Reconnect, k: nat)
    requires Doubles(r) && 0 < r.initialMs <= r.maxMs && k > 0
    ensures IntervalAt(r, k) == Min(r.initialMs * Pow2(k - 1), r.maxMs)
    decreases k
  {
    hide Doubles, NextInterval, Min;
    if k == 1 {
      FirstInterval(r);
    } else {
      DoublingClosedForm(r, k - 1);
      Pow2Positive(k - 2);
      TwiceTheProduct(r.initialMs, Pow2(k - 2));
      CappedDoubling(r, r.initialMs * Pow2(k - 2));
    }
  }

  lemma FirstInterval(r: Reconnect)
    requires r.initialMs <= r.maxMs
    ensures IntervalAt(r, 1) == Min(r.initialMs * Pow2(0), r.maxMs)
  {
  }

  /** One step exceeds the cap exactly when it starts from zero and the initial interval does. */
  lemma ExceedsCapIff(r: Reconnect, interval: nat)
    ensures NextInterval(r, interval) > r.maxMs <==> interval == 0 && r.initialMs > r.maxMs
  {
  }

  /** For any multiplier: an interval later than the first exceeds the cap exactly when the one before
      it had collapsed to zero and the initial interval exceeds the cap. With an initial interval
      within the cap, no interval ever exceeds it. */
  lemma LaterIntervalsAreCapped(r: Reconnect, k: nat)
    requires k > 1
    ensures IntervalAt(r, k) > r.maxMs <==> IntervalAt(r, k - 1) == 0 && r.initialMs > r.maxMs
    ensures r.initialMs <= r.maxMs ==> IntervalAt(r, k) <= r.maxMs
  {
  }

  /** No interval collapses to zero, as with any multiplier of at least 1. */
  ghost predicate NeverCollapses(r: Reconnect) {
    r.initialMs > 0 && r.maxMs > 0 && forall x: nat :: x > 0 ==> r.scale(x) > 0
  }

  lemma {:induction false} StaysPositive(r: Reconnect, k: nat)
    requires NeverCollapses(r) && k > 0
    ensures IntervalAt(r, k) > 0
    decreases k
  {
    if k > 1 {
      StaysPositive(r, k - 1);
    }
  }

  /** In every reachable state with attempts counted, the interval in force exceeds the cap exactly when
      the initial one does and the one before it was zero; so never with an initial interval within the
      cap, and, where no interval collapses to zero, at the first attempt since the last success only. */
  lemma IntervalExceedsCapIff(s: State)
    requires Sound(s) && s.app.attempts > 0
    ensures var r, k := s.core.cfg.reconnect, s.app.attempts;
            && (s.app.intervalMs > r.maxMs <==> r.initialMs > r.maxMs && IntervalAt(r, k - 1) == 0)
            && (NeverCollapses(r) ==> (s.app.intervalMs > r.maxMs <==> r.initialMs > r.maxMs && k == 1))
  {
    var r, k := s.core.cfg.reconnect, s.app.attempts;
    AttemptsAreCounted(s);
    ExceedsCapIff(r, IntervalAt(r, k - 1));
    if NeverCollapses(r) && k > 1 {
      StaysPositive(r, k - 1);
    }
  }

  /** So the cap is not absolute: a multiplier that rounds an interval down to zero brings the
      uncapped initial interval back. */
  lemma CapCanBeExceededLater()
    ensures var r := Reconnect(true, 0, 10, 5, (x: nat) => 0);
            IntervalAt(r, 1) == 10 && IntervalAt(r, 2) == 0 && IntervalAt(r, 3) == 10 > r.maxMs
  {
  }
}
