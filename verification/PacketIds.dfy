/** The wrapping packet-id allocator: `next_pid` hands out the stored id and steps it, skipping
    zero. It never asks whether an id is in use, so freshness rests on a window of allocations. */
module PacketIds {
  import opened Mqtt

  const FIRST_PID: Pid := 1

  function Succ(p: Pid): Pid { if p == MAX_PID then 1 else p + 1 }

  /** The allocator after n allocations from p. */
  function After(p: Pid, n: nat): Pid
    decreases n
  {
    if n == 0 then p else After(Succ(p), n - 1)
  }

  /** The k-th id handed out after a clear. */
  function Nth(k: nat): Pid { k % MAX_PID + 1 }

  lemma NthStep(k: nat)
    ensures Nth(k + 1) == Succ(Nth(k))
  {
  }

  /** Iterating the allocator from any of its ids lands on the closed form. */
  lemma {:induction false} ClosedFormFrom(k: nat, n: nat)
    ensures After(Nth(k), n) == Nth(k + n)
    decreases n
  {
    if n > 0 {
      NthStep(k);
      ClosedFormFrom(k + 1, n - 1);
    }
  }

  /** The k-th id after a clear is (k mod 65535) + 1. */
  lemma ClosedForm(k: nat)
    ensures After(FIRST_PID, k) == k % MAX_PID + 1
  {
    assert Nth(0) == FIRST_PID;
    ClosedFormFrom(0, k);
  }

  /** Two allocations give the same id exactly when they are a multiple of 65535 apart. */
  lemma SameIdIff(i: nat, j: nat)
    requires i <= j
    ensures Nth(i) == Nth(j) <==> (j - i) % MAX_PID == 0
  {
  }

  /** Any 65535 consecutive allocations are pairwise distinct and non-zero, and the next one
      after them repeats the first: 65535 is the largest window with this property. */
  lemma WindowIsDistinct(i: nat, j: nat)
    requires i < j
    ensures j - i < MAX_PID ==> Nth(i) != Nth(j)
    ensures j - i == MAX_PID ==> Nth(i) == Nth(j)
    ensures Nth(i) != 0
  {
  }
}
