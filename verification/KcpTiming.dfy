/**
 * What every run of the trace simulator promises about time: the clock never goes back, nothing is
 * delivered before it is due, a clock that stands still during calls makes every delivery exact and
 * in (due time, number) order over the whole run, and the last branch of the event loop is reached
 * only at the end of a reader stall.
 */
module KcpTiming {
  import opened Helpers
  import opened DeliveryHeap
  import opened KcpTrace
  import opened KcpRuns
  import opened KcpCausality

  /** Every arrival was due by then, and arrivals are in the order of the clock. */
  ghost predicate NeverEarly(arrivals: seq<Arrival>, now: nat) {
    && (forall i :: 0 <= i < |arrivals| ==> arrivals[i].d.at <= arrivals[i].when <= now)
    && (forall i, j :: 0 <= i < j < |arrivals| ==> arrivals[i].when <= arrivals[j].when)
  }

  /** Nothing queued is overdue. */
  ghost predicate NoneOverdue(q: seq<Delivery>, now: nat) { forall d :: d in q ==> d.at >= now }

  /** Arrivals happened exactly when due, in the order of due time and number. */
  ghost predicate Punctual(arrivals: seq<Arrival>) {
    && (forall i :: 0 <= i < |arrivals| ==> arrivals[i].when == arrivals[i].d.at)
    && (forall i, j :: 0 <= i < j < |arrivals| ==>
          || arrivals[i].d.at < arrivals[j].d.at
          || (arrivals[i].d.at == arrivals[j].d.at && arrivals[i].d.num <= arrivals[j].d.num))
  }

  /** Nothing queued, or queued from now on, is before x. */
  ghost predicate NoneBefore(x: Delivery, w: World) {
    IsLeast(x, w.queue) && x.at <= w.now && x.num <= w.nextNum
  }

  ghost predicate InOrder(w: World) {
    && NoneOverdue(w.queue, w.now) && Punctual(w.arrivals)
    && (w.arrivals != [] ==> NoneBefore(w.arrivals[|w.arrivals| - 1].d, w))
  }

  ghost predicate Timely(env: Env, w: World) {
    NeverEarly(w.arrivals, w.now) && (env.cfg.step == 0 ==> InOrder(w))
  }

  // ---------- Between events ----------

  lemma AdvanceIsForward(env: Env, w: World)
    ensures Advance(env, w).now >= w.now
    ensures Advance(env, w) == w.(now := Advance(env, w).now)
    ensures w.queue != [] ==> NextAt(env, w) <= w.queue[0].at
  {
  }

  lemma AdvanceKeepsTimely(env: Env, w: World)
    requires SoundNow(env, w) && Timely(env, w)
    ensures Timely(env, Advance(env, w))
  {
    AdvanceIsForward(env, w);
    var r := Advance(env, w);
    if w.queue != [] {
      RootIsLeast(w.queue);
      assert w.queue[0] in w.queue;
    }
    assert env.cfg.step == 0 ==> NoneOverdue(r.queue, r.now);
    assert env.cfg.step == 0 && w.arrivals != [] ==> NoneBefore(r.arrivals[|r.arrivals| - 1].d, r);
  }

  lemma ArrivalKeepsNeverEarly(arrivals: seq<Arrival>, d: Delivery, now: nat)
    requires NeverEarly(arrivals, now) && d.at <= now
    ensures NeverEarly(arrivals + [Arrival(d, now)], now)
  {
  }

  lemma ArrivalKeepsPunctual(arrivals: seq<Arrival>, d: Delivery)
    requires Punctual(arrivals) && (arrivals != [] ==> !Less(d, arrivals[|arrivals| - 1].d))
    ensures Punctual(arrivals + [Arrival(d, d.at)])
  {
    forall i | 0 <= i < |arrivals| ensures !Less(d, arrivals[i].d) {
      assert !Less(arrivals[|arrivals| - 1].d, arrivals[i].d);
    }
  }

  /** The root that is due now is due exactly now, follows every earlier arrival, and precedes what is left. */
  lemma RootIsNext(w: World)
    requires IsHeap(w.queue) && NumbersUpTo(w.queue, w.nextNum) && InOrder(w) && DeliveryDue(w)
    ensures w.queue[0].at == w.now && IsLeast(w.queue[0], w.queue) && w.queue[0].num <= w.nextNum
    ensures w.arrivals != [] ==> !Less(w.queue[0], w.arrivals[|w.arrivals| - 1].d)
  {
    RootIsLeast(w.queue);
    assert w.queue[0] in w.queue;
  }

  lemma OrderWithout(w: World, d: Delivery, r: World)
    requires InOrder(w) && d.at == w.now && d.num <= w.nextNum && IsLeast(d, w.queue)
    requires w.arrivals != [] ==> !Less(d, w.arrivals[|w.arrivals| - 1].d)
    requires forall x :: x in r.queue ==> x in w.queue
    requires r.arrivals == w.arrivals + [Arrival(d, w.now)] && r.now == w.now && r.nextNum == w.nextNum
    ensures InOrder(r)
  {
    ArrivalKeepsPunctual(w.arrivals, d);
    assert r.arrivals[|r.arrivals| - 1].d == d;
    assert NoneBefore(d, r);
  }

  lemma TakeKeepsOrder(w: World)
    requires IsHeap(w.queue) && NumbersUpTo(w.queue, w.nextNum) && InOrder(w) && DeliveryDue(w)
    ensures InOrder(Taken(w))
  {
    RootIsNext(w);
    PopKeepsHeap(w.queue);
    OrderWithout(w, w.queue[0], Taken(w));
  }

  lemma TakeKeepsTimely(env: Env, w: World)
    requires SoundNow(env, w) && Timely(env, w) && DeliveryDue(w)
    ensures Timely(env, Taken(w))
  {
    ArrivalKeepsNeverEarly(w.arrivals, w.queue[0], w.now);
    if env.cfg.step == 0 { TakeKeepsOrder(w); }
  }

  /** Calls only add packets that are due later, or as soon under a number that is no smaller. */
  lemma CallsKeepTimely(env: Env, base: World, w: World)
    requires Timely(env, base) && Sound(env, base, w)
    ensures Timely(env, w)
  {
    if env.cfg.step == 0 && w.arrivals != [] {
      var last := w.arrivals[|w.arrivals| - 1].d;
      assert NoneBefore(last, base);
      forall d | d in w.queue ensures !Less(d, last) {}
      assert NoneBefore(last, w);
    }
  }

  lemma EventKeepsTimely(env: Env, w: World)
    requires SoundNow(env, w) && Timely(env, w)
    ensures Timely(env, Event(env, w)) && Event(env, w).now >= w.now
  {
    if DeliveryDue(w) { TakeKeepsTimely(env, w); }
    EventKeepsSound(env, w);
    CallsKeepTimely(env, EventStart(w), Event(env, w));
  }

  lemma TurnKeepsTimely(env: Env, w: World)
    requires SoundNow(env, w) && Timely(env, w)
    ensures Timely(env, Turn(env, w).w) && Turn(env, w).w.now >= w.now
  {
    AdvanceIsForward(env, w);
    AdvanceKeepsSound(env, w);
    AdvanceKeepsTimely(env, w);
    EventKeepsTimely(env, Advance(env, w));
  }

  // ---------- Over whole runs ----------

  lemma StartIsTimely(env: Env)
    ensures Timely(env, Start(env))
  {
    StartIsSound(env);
    CallsKeepTimely(env, NewWorld(env), Start(env));
  }

  ghost predicate TimelySince(env: Env, from: nat, o: Outcome) {
    SoundNow(env, o.w) && Timely(env, o.w) && o.w.now >= from
  }

  lemma RunStaysTimely(env: Env, from: nat, o: Outcome, turns: nat)
    requires TimelySince(env, from, o)
    ensures TimelySince(env, from, Run(Turns(env), o, turns))
  {
    var inv := (p: Outcome) => TimelySince(env, from, p);
    forall p: Outcome | inv(p) && p.Running? ensures inv(Turns(env)(p.w)) {
      TurnKeepsSound(env, p.w);
      TurnKeepsTimely(env, p.w);
    }
    RunKeeps(Turns(env), inv, o, turns);
  }

  lemma {:induction false} RunAppends(turn: World -> Outcome, o: Outcome, m: nat, n: nat)
    ensures Run(turn, Run(turn, o, m), n) == Run(turn, o, m + n)
    decreases m
  {
    if m > 0 && o.Running? { RunAppends(turn, turn(o.w), m - 1, n); }
  }

  lemma EveryRunIsTimely(env: Env, turns: nat)
    ensures SoundNow(env, After(env, turns).w) && Timely(env, After(env, turns).w)
  {
    StartIsSound(env);
    StartIsTimely(env);
    RunStaysTimely(env, 0, Running(Start(env)), turns);
  }

  /** However far a run goes on, its clock does not go back. */
  lemma ClockNeverGoesBack(env: Env, turns: nat, more: nat)
    ensures After(env, turns).w.now <= After(env, turns + more).w.now
  {
    EveryRunIsTimely(env, turns);
    RunStaysTimely(env, After(env, turns).w.now, After(env, turns), more);
    RunAppends(Turns(env), Running(Start(env)), turns, more);
  }

  /** No packet is taken out of the queue before its due time, in any run. */
  lemma NothingIsEarly(env: Env, turns: nat)
    ensures NeverEarly(After(env, turns).w.arrivals, After(env, turns).w.now)
  {
    EveryRunIsTimely(env, turns);
  }

  /** With a clock that calls do not move, every packet is taken out exactly when due, and all of
    * them in the order of due time and number. */
  lemma StillClockIsPunctual(env: Env, turns: nat)
    requires env.cfg.step == 0
    ensures Punctual(After(env, turns).w.arrivals)
  {
    EveryRunIsTimely(env, turns);
  }

  // ---------- The last branch ----------

  predicate IsStallEnd(cfg: SideConfig, now: nat) { cfg.stallTo > cfg.stallFrom && cfg.stallTo == now }

  predicate NothingDue(w: World) { !DeliveryDue(w) && w.a.nextTimer > w.now && w.b.nextTimer > w.now }

  /** With no delivery and no timer due after the clock has advanced, it has just advanced to the
    * end of a reader stall. */
  lemma LastBranchIsStallEnd(env: Env, w: World)
    requires NothingDue(Advance(env, w))
    ensures Advance(env, w).now > w.now
    ensures IsStallEnd(env.cfg.a, Advance(env, w).now) || IsStallEnd(env.cfg.b, Advance(env, w).now)
  {
  }

  /** What b's stall end is compared with: the clock after a's read, if a's stall has just ended. */
  function AfterA(env: Env, next: World): World { if env.cfg.a.stallTo == next.now then Read(env, next, A) else next }

  /** The next turn reads s because its stall ends: nothing else is due once the clock has advanced,
    * and the clock, for b after a's read, stands at that end. */
  predicate ReadAtStallEnd(env: Env, w: World, s: Side) {
    var next := Advance(env, w);
    NothingDue(next) && env.cfg.SideOf(s).stallTo == if s == A then next.now else AfterA(env, next).now
  }

  lemma ReadIsForward(env: Env, w: World, s: Side)
    ensures Read(env, w, s).now >= w.now
  {
    ReadKeeps(env, (u: World) => u.now >= w.now, w, s);
  }

  lemma LastBranch(env: Env, w: World)
    requires NothingDue(w)
    ensures Event(env, w) == StallsEnded(env, w)
  {
  }

  /** The last branch reads exactly those endpoints, a before b, one at least, and does nothing else. */
  lemma LastBranchReads(env: Env, w: World)
    requires NothingDue(Advance(env, w))
    ensures var next := Advance(env, w);
            var first := if ReadAtStallEnd(env, w, A) then Read(env, next, A) else next;
            Event(env, next) == if ReadAtStallEnd(env, w, B) then Read(env, first, B) else first
    ensures ReadAtStallEnd(env, w, A) || ReadAtStallEnd(env, w, B)
  {
    LastBranchIsStallEnd(env, w);
    LastBranch(env, Advance(env, w));
  }

  /** When both stalls end at once, b is read exactly when a's read does not move the clock. */
  lemma BothEndAtOnce(env: Env, w: World)
    requires NothingDue(Advance(env, w))
    requires env.cfg.a.stallTo == env.cfg.b.stallTo == Advance(env, w).now
    ensures ReadAtStallEnd(env, w, A)
    ensures ReadAtStallEnd(env, w, B) <==> Read(env, Advance(env, w), A).now == Advance(env, w).now
  {
  }

  lemma ReadOnlyLater(env: Env, w: World, s: Side)
    requires ReadAtStallEnd(env, w, s)
    ensures w.now < env.cfg.SideOf(s).stallTo
  {
    LastBranchIsStallEnd(env, w);
    ReadIsForward(env, Advance(env, w), A);
  }

  /** The turn after this many reads s because its stall ends. */
  predicate ReadInTurn(env: Env, turns: nat, s: Side) {
    After(env, turns).Running? && ReadAtStallEnd(env, After(env, turns).w, s)
  }

  /** Once the clock has reached a stall end, that endpoint is not read for it any more: a read lost
    * to a delivery or a timer due at the same time, or to a's read moving the clock, stays lost. */
  lemma MissedForGood(env: Env, turns: nat, more: nat, s: Side)
    requires After(env, turns).w.now >= env.cfg.SideOf(s).stallTo
    ensures !ReadInTurn(env, turns + more, s)
  {
    ClockNeverGoesBack(env, turns, more);
    var w := After(env, turns + more).w;
    if ReadAtStallEnd(env, w, s) { ReadOnlyLater(env, w, s); }
  }
}
