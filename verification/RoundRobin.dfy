/** How evenly the client spreads its connections over the tunnels
    (crates/client/src/main.rs, serve): connection k uses slot `rr % numconn`, where the u16 `rr`
    wraps at 65536. */
module RoundRobin {
  import opened Helpers

  const WRAP := 65536

  /** The slot of connection k. */
  function SlotOf(k: nat, slots: nat): (j: nat)
    requires 0 < slots
    ensures j < slots
  {
    k % WRAP % slots
  }

  /** How many of the first n connections used slot j. */
  function Load(n: nat, slots: nat, j: nat): nat
    requires 0 < slots
  {
    if n == 0 then 0 else Load(n - 1, slots, j) + if SlotOf(n - 1, slots) == j then 1 else 0
  }

  /** Slot j's part of m connections without a wrap. */
  function Share(m: nat, slots: nat, j: nat): nat
    requires 0 < slots
  {
    m / slots + if j < m % slots then 1 else 0
  }

  lemma ShareStep(m: nat, slots: nat, j: nat)
    requires j < slots
    ensures Share(m + 1, slots, j) == Share(m, slots, j) + if m % slots == j then 1 else 0
  {
    Successor(m, slots);
  }

  /** The load from whole cycles of 65536 connections, and from the part of one. */
  function Cycles(n: nat, slots: nat, j: nat): nat
    requires 0 < slots
  {
    Times(n / WRAP, Share(WRAP, slots, j)) + Share(n % WRAP, slots, j)
  }

  function Times(c: nat, a: nat): nat { c * a }

  lemma CyclesStep(k: nat, slots: nat, j: nat)
    requires j < slots
    ensures Cycles(k + 1, slots, j) == Cycles(k, slots, j) + if SlotOf(k, slots) == j then 1 else 0
  {
    ShareStep(k % WRAP, slots, j);
    Successor(k, WRAP);
    var a := Share(WRAP, slots, j);
    assert Times(k / WRAP + 1, a) == Times(k / WRAP, a) + a;
    assert Share(0, slots, j) == 0;
  }

  lemma {:induction false} LoadInCycles(n: nat, slots: nat, j: nat)
    requires j < slots
    ensures Load(n, slots, j) == Cycles(n, slots, j)
  {
    if n > 0 {
      LoadInCycles(n - 1, slots, j);
      CyclesStep(n - 1, slots, j);
    }
  }

  function Ceil(n: nat): nat { if n % WRAP == 0 then n / WRAP else n / WRAP + 1 }

  /** Two slots' loads never differ by more than the number of cycles begun, and by no more than
      one when the number of slots divides the cycle. */
  lemma LoadsBalanced(n: nat, slots: nat, i: nat, j: nat)
    requires i < slots && j < slots
    ensures Load(n, slots, i) <= Load(n, slots, j) + Ceil(n)
    ensures WRAP % slots == 0 ==> Load(n, slots, i) <= Load(n, slots, j) + 1
  {
    LoadInCycles(n, slots, i);
    LoadInCycles(n, slots, j);
    ShareClose(WRAP, slots, i, j);
    ShareClose(n % WRAP, slots, i, j);
    Scale(n / WRAP, Share(WRAP, slots, i), Share(WRAP, slots, j));
  }

  lemma ShareClose(m: nat, slots: nat, i: nat, j: nat)
    requires i < slots && j < slots
    ensures Share(m, slots, i) <= Share(m, slots, j) + 1
    ensures m % slots == 0 ==> Share(m, slots, i) == Share(m, slots, j)
    ensures m == 0 ==> Share(m, slots, i) == 0
  {
    if m == 0 { DivModUnique(m, slots, 0, 0); }
  }

  lemma Scale(c: nat, a: nat, b: nat)
    requires a <= b + 1
    ensures Times(c, a) <= Times(c, b) + c && (a == b ==> Times(c, a) == Times(c, b))
  {
    if a == b + 1 { assert c * a == c * b + c; } else { assert c * a <= c * b; }
  }

  ghost predicate AlwaysWithinOne(slots: nat)
    requires 0 < slots
  {
    forall n: nat, i: nat, j: nat {:trigger Load(n, slots, i), Load(n, slots, j)} ::
      i < slots && j < slots ==> Load(n, slots, i) <= Load(n, slots, j) + 1
  }

  lemma TwoCycles(slots: nat, j: nat)
    requires j < slots
    ensures Load(2 * WRAP, slots, j) == 2 * Share(WRAP, slots, j)
  {
    LoadInCycles(2 * WRAP, slots, j);
    assert Cycles(2 * WRAP, slots, j) == Times(2, Share(WRAP, slots, j)) + Share(0, slots, j);
    ShareClose(0, slots, j, j);
  }

  /** Two cycles leave the first slot two ahead of the last unless the slots divide the cycle. */
  lemma TwoAhead(slots: nat)
    requires 0 < slots && WRAP % slots != 0
    ensures Load(2 * WRAP, slots, 0) == Load(2 * WRAP, slots, slots - 1) + 2
  {
    TwoCycles(slots, 0);
    TwoCycles(slots, slots - 1);
  }

  /** The loads stay within one of each other for ever exactly when the number of slots divides
      65536. */
  lemma WithinOneExactly(slots: nat)
    requires 0 < slots
    ensures AlwaysWithinOne(slots) <==> WRAP % slots == 0
  {
    if WRAP % slots == 0 {
      AllBalanced(slots);
    } else {
      TwoAhead(slots);
    }
  }

  lemma AllBalanced(slots: nat)
    requires 0 < slots && WRAP % slots == 0
    ensures AlwaysWithinOne(slots)
  {
    forall n: nat, i: nat, j: nat | i < slots && j < slots
      ensures Load(n, slots, i) <= Load(n, slots, j) + 1
    {
      LoadsBalanced(n, slots, i, j);
    }
  }
}
