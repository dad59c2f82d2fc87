/**
 * When the events of the trace simulator happen: the clock advances to the earliest of what is
 * pending and not beyond it, every timer is armed as the engine answers and fires when armed, the
 * clock moves during calls only, and nothing happens after the time limit.
 */
module KcpTimers {
  import opened Helpers
  import opened DeliveryHeap
  import opened KcpTrace
  import opened KcpRuns

  // ---------- The advance of the clock ----------

  /** Something is to happen at this time: a timer, a delivery, or the end of a stall that is still ahead. */
  ghost predicate Pending(env: Env, w: World, at: nat) {
    || at == w.a.nextTimer || at == w.b.nextTimer
    || DueIn(w.queue, at)
    || StallEndsAt(env.cfg.a, w.now, at) || StallEndsAt(env.cfg.b, w.now, at)
  }

  ghost predicate DueIn(q: seq<Delivery>, at: nat) { exists d :: d in q && d.at == at }

  predicate StallEndsAt(c: SideConfig, now: nat, at: nat) { c.stallTo > c.stallFrom && c.stallTo == at && at > now }

  lemma NextIsPending(env: Env, w: World)
    ensures Pending(env, w, NextAt(env, w))
  {
    if w.queue != [] { assert w.queue[0] in w.queue; }
  }

  lemma NextIsFirst(env: Env, w: World, at: nat)
    requires IsHeap(w.queue) && Pending(env, w, at)
    ensures NextAt(env, w) <= at
  {
    if w.queue != [] { RootComesFirst(w.queue); }
  }

  /** The clock does not go back, does not pass anything pending, stops only where something is pending, and
      afterwards something is due. */
  lemma AdvanceExactly(env: Env, w: World)
    requires IsHeap(w.queue)
    ensures var r := Advance(env, w);
            && r == w.(now := r.now) && r.now >= w.now
            && (forall at: nat :: Pending(env, w, at) ==> r.now <= Max(w.now, at))
            && (r.now == w.now || Pending(env, w, r.now))
            && (exists at: nat :: Pending(env, w, at) && at <= r.now)
  {
    NextIsPending(env, w);
    assert Advance(env, w).now == Max(w.now, NextAt(env, w));
    forall at: nat | Pending(env, w, at) ensures NextAt(env, w) <= at { NextIsFirst(env, w, at); }
  }

  // ---------- Timers ----------

  /** No timer is overdue. */
  predicate OnTime(w: World) { w.now <= w.a.nextTimer && w.now <= w.b.nextTimer }

  lemma OnTimeIsClosed(env: Env)
    requires env.cfg.step == 0
    ensures Closed(env, (w: World) => OnTime(w))
  {
    forall w: World, s: Side, head: Head, ret: int | OnTime(w) ensures OnTime(CallAs(env, w, s, head, ret)) {
      CallsStandStill(env, w, s, head, ret);
    }
  }

  lemma CraftedKeepsOnTime(env: Env, w: World, k: nat)
    requires k < |env.cfg.garbage| && OnTime(w)
    ensures OnTime(PushBoth(env, w, k))
  {
  }

  lemma AdvanceKeepsOnTime(env: Env, w: World)
    requires OnTime(w)
    ensures OnTime(Advance(env, w))
  {
  }

  lemma InputKeepsOnTime(env: Env, w: World)
    requires env.cfg.step == 0 && OnTime(w) && w.queue != []
    ensures OnTime(InputDone(env, w))
  {
    CallsStandStill(env, Taken(w), w.queue[0].to, InputHead(env, w.queue[0]), Ret(env, Taken(w)));
  }

  /** With a clock that calls do not move, no timer is ever overdue, in any run. */
  lemma NeverOverdue(env: Env, turns: nat)
    requires env.cfg.step == 0
    ensures After(env, turns).w.now <= After(env, turns).w.a.nextTimer
    ensures After(env, turns).w.now <= After(env, turns).w.b.nextTimer
  {
    var inv := (w: World) => OnTime(w);
    OnTimeIsClosed(env);
    forall w: World, k: nat | k < |env.cfg.garbage| && inv(w) ensures inv(PushBoth(env, w, k)) {
      CraftedKeepsOnTime(env, w, k);
    }
    forall w: World | inv(w) ensures inv(Advance(env, w)) { AdvanceKeepsOnTime(env, w); }
    forall w: World | inv(w) && DeliveryDue(w) ensures inv(InputDone(env, w)) { InputKeepsOnTime(env, w); }
    AlwaysHolds(env, inv, turns);
    assert OnTime(After(env, turns).w);
  }

  /** So every timer that fires in the next turn fires exactly when it was armed for. */
  lemma FiresWhenArmed(env: Env, turns: nat, s: Side)
    requires env.cfg.step == 0
    ensures var next := Advance(env, After(env, turns).w);
            next.Of(s).nextTimer <= next.now ==> next.Of(s).nextTimer == next.now
  {
    NeverOverdue(env, turns);
  }

  lemma WriteKeepsTimer(env: Env, w: World, s: Side)
    ensures Write(env, w, s).Of(s).nextTimer == w.Of(s).nextTimer
  {
    WriteKeeps(env, (u: World) => u.Of(s).nextTimer == w.Of(s).nextTimer, w, s);
  }

  lemma CallCounts(env: Env, w: World, s: Side, head: Head, ret: int)
    ensures CallAs(env, w, s, head, ret).calls == w.calls + 1
    ensures CallAs(env, w, s, head, ret).now == w.now + env.reply(w.calls).clocks * env.cfg.step
  {
  }

  /** Flushing, a timer is due again when the answer says, counted from the clock before or after the call. */
  lemma FlushedAgain(env: Env, w: World, s: Side)
    requires !env.cfg.useUpdate
    ensures var r := env.reply(w.calls);
            Timer(env, w, s).Of(s).nextTimer
            == w.now + (if env.cfg.lateNow then r.clocks * env.cfg.step else 0) + r.ret % 4_294_967_296
  {
    CallCounts(env, w, s, Head.Flush, Ret(env, w));
    WriteKeepsTimer(env, FlushTimer(env, w, s), s);
  }

  /** How far the 32-bit answer is ahead of the clock, if it is ahead at all. */
  function Ahead(t0: nat, now: nat, answer: int): nat { (answer - (t0 + now)) % 4_294_967_296 }

  lemma AheadIsDifference(t0: nat, now: nat, answer: int)
    ensures var d := Itimediff(answer, (t0 + now) % 4_294_967_296);
            Max(d, 1) == if 0 < Ahead(t0, now, answer) < 2_147_483_648 then Ahead(t0, now, answer) else 1
  {
    var m, x := 4_294_967_296, t0 + now;
    var y := answer - x;
    assert answer - x % m == y + x / m * m;
    assert y == y / m * m + y % m;
    DivModUnique(answer - x % m, m, y / m + x / m, y % m);
  }

  /** Updating, it is due when the clock reaches the answer of Check, or after one millisecond if that is not ahead. */
  lemma CheckedAgain(env: Env, w: World, s: Side)
    requires env.cfg.useUpdate
    ensures var u, c := env.reply(w.calls), env.reply(w.calls + 1);
            var now := w.now + u.clocks * env.cfg.step + c.clocks * env.cfg.step;
            var ahead := (c.ret - (env.cfg.t0 + now)) % 4_294_967_296;
            Timer(env, w, s).Of(s).nextTimer == now + if 0 < ahead < 2_147_483_648 then ahead else 1
  {
    CallCounts(env, w, s, Update, Ret(env, w));
    var updated := Call(env, w, s, Update);
    CallCounts(env, updated, s, Check, Ret(env, updated));
    var checked := Call(env, updated, s, Check);
    WriteKeepsTimer(env, UpdateTimer(env, w, s), s);
    AheadIsDifference(env.cfg.t0, checked.now, Ret(env, updated));
  }

  lemma ConfigureArms(env: Env, w: World, s: Side)
    ensures var r := Configure(env, w, s); r.Of(s).nextTimer == r.now
  {
  }

  lemma ConfigureKeepsPeer(env: Env, w: World, s: Side)
    ensures Configure(env, w, s).Of(s.Peer()) == w.Of(s.Peer()) && Configure(env, w, s).now >= w.now
  {
    var set1 := Settings(env, w, s);
    var checked := CallIf(env, Streamed(env, set1, s), s, Check, env.cfg.useUpdate);
    ExtraSendsKeepPeer(env, checked, s, 0);
  }

  lemma {:induction false} ExtraSendsKeepPeer(env: Env, w: World, s: Side, i: nat)
    ensures ExtraSends(env, w, s, i).Of(s.Peer()) == w.Of(s.Peer()) && ExtraSends(env, w, s, i).now >= w.now
    decreases |env.cfg.SideOf(s).extraSends| - i
  {
    var sizes := env.cfg.SideOf(s).extraSends;
    if i < |sizes| { ExtraSendsKeepPeer(env, SendCall(env, w, s, sizes[i]), s, i + 1); }
  }

  /** At the start both timers are due: each is armed for the moment its endpoint is configured. */
  lemma FirstTimersAreDue(env: Env)
    ensures var w, one := Start(env), Configure(env, NewWorld(env), A);
            w.a.nextTimer == one.now && one.now <= w.now && w.b.nextTimer == w.now
  {
    var one := Configure(env, NewWorld(env), A);
    var two := Configure(env, one, B);
    ConfigureArms(env, NewWorld(env), A);
    ConfigureArms(env, one, B);
    ConfigureKeepsPeer(env, one, B);
    var inv := (u: World) => u.a == two.a && u.b == two.b && u.now == two.now;
    forall u: World, k: nat | inv(u) && k < |env.cfg.garbage| ensures inv(Crafting(env)(u, k)) { assert inv(PushBoth(env, u, k)); }
    RepeatKeeps(Crafting(env), inv, two, 0, |env.cfg.garbage|);
  }

  // ---------- The limit ----------

  ghost predicate WithinLimit(env: Env, w: World) { forall i :: 0 <= i < |w.arrivals| ==> w.arrivals[i].when <= env.cfg.limit }

  lemma WithinLimitIsClosed(env: Env)
    ensures Closed(env, (w: World) => WithinLimit(env, w))
  {
    var inv := (w: World) => WithinLimit(env, w);
    ClosedByTrace(env, inv);
  }

  ghost predicate Limited(env: Env, o: Outcome) {
    WithinLimit(env, o.w) && (o.TimedOut? ==> o.w.now > env.cfg.limit)
  }

  lemma TurnKeepsLimited(env: Env, w: World)
    requires WithinLimit(env, w)
    ensures Limited(env, Turn(env, w))
  {
    if Advance(env, w).now <= env.cfg.limit { EventKeepsLimited(env, Advance(env, w)); }
  }

  lemma EventKeepsLimited(env: Env, w: World)
    requires WithinLimit(env, w) && w.now <= env.cfg.limit
    ensures WithinLimit(env, Event(env, w))
  {
    var inv := (u: World) => WithinLimit(env, u);
    WithinLimitIsClosed(env);
    if DeliveryDue(w) { assert inv(InputDone(env, w)); }
    EventKeeps(env, inv, w);
  }

  /** A run is given up exactly for a clock past the limit: nothing is delivered later than that, and
      while the clock has not passed it a run goes on. */
  lemma LimitExactly(env: Env, turns: nat)
    ensures var o := After(env, turns);
            && (forall i :: 0 <= i < |o.w.arrivals| ==> o.w.arrivals[i].when <= env.cfg.limit)
            && (o.TimedOut? ==> o.w.now > env.cfg.limit)
            && (o.Running? && Advance(env, o.w).now > env.cfg.limit ==> !After(env, turns + 1).Running?)
  {
    var inv := (o: Outcome) => Limited(env, o);
    WithinLimitIsClosed(env);
    var held := (w: World) => WithinLimit(env, w);
    StartKeeps(env, held);
    forall p: Outcome | inv(p) && p.Running? ensures inv(Turns(env)(p.w)) { TurnKeepsLimited(env, p.w); }
    RunKeeps(Turns(env), inv, Running(Start(env)), turns);
    OneMoreTurn(Turns(env), Running(Start(env)), turns);
  }

  lemma {:induction false} OneMoreTurn(turn: World -> Outcome, o: Outcome, turns: nat)
    ensures Run(turn, o, turns).Running? ==> Run(turn, o, turns + 1) == turn(Run(turn, o, turns).w)
    decreases turns
  {
    if turns > 0 && o.Running? { OneMoreTurn(turn, turn(o.w), turns - 1); }
  }

  // ---------- The clock during calls ----------

  /** How often the engine has read the clock in these calls. */
  function Reads(ops: seq<Op>): nat { if ops == [] then 0 else Reads(ops[..|ops| - 1]) + ops[|ops| - 1].clocks }

  function AllReads(w: World): nat { Reads(w.a.ops) + Reads(w.b.ops) }

  lemma ReadsSnoc(ops: seq<Op>, op: Op)
    ensures Reads(ops + [op]) == Reads(ops) + op.clocks
  {
    assert (ops + [op])[..|ops|] == ops;
  }

  function Times(n: int, step: nat): int { n * step }

  /** Since `base` the clock has moved by one step for every time it was read. */
  predicate MovedByReads(env: Env, base: World, w: World) {
    w.now == base.now + Times(AllReads(w) - AllReads(base), env.cfg.step)
  }

  lemma CallReads(env: Env, w: World, s: Side, head: Head, ret: int)
    ensures AllReads(CallAs(env, w, s, head, ret)) == AllReads(w) + env.reply(w.calls).clocks
  {
    ReadsSnoc(w.Of(s).ops, NewOp(env, w, head, ret));
  }

  lemma CallMovesByReads(env: Env, base: World, w: World, s: Side, head: Head, ret: int)
    requires MovedByReads(env, base, w)
    ensures MovedByReads(env, base, CallAs(env, w, s, head, ret))
  {
    CallReads(env, w, s, head, ret);
    CallCounts(env, w, s, head, ret);
    MoreReads(AllReads(w) - AllReads(base), env.reply(w.calls).clocks, env.cfg.step);
  }

  lemma MoreReads(n: int, more: nat, step: nat)
    ensures Times(n + more, step) == Times(n, step) + more * step && Times(0, step) == 0
  {
  }

  lemma MovedIsClosed(env: Env, base: World)
    ensures Closed(env, (u: World) => MovedByReads(env, base, u))
  {
    var inv := (u: World) => MovedByReads(env, base, u);
    forall u: World, s: Side, head: Head, ret: int | inv(u) ensures inv(CallAs(env, u, s, head, ret)) {
      CallMovesByReads(env, base, u, s, head, ret);
    }
    ClosedByTrace(env, inv);
  }

  lemma InputMovesByReads(env: Env, w: World)
    requires w.queue != []
    ensures MovedByReads(env, w, InputDone(env, w))
  {
    MoreReads(0, 0, env.cfg.step);
    CallMovesByReads(env, w, Taken(w), w.queue[0].to, InputHead(env, w.queue[0]), Ret(env, Taken(w)));
  }

  /** Within one event the clock moves by clock_step for every read on the lines it adds, and not otherwise. */
  lemma EventMovesByReads(env: Env, w: World)
    ensures MovedByReads(env, w, Event(env, w))
  {
    MovedIsClosed(env, w);
    MoreReads(0, 0, env.cfg.step);
    if DeliveryDue(w) { InputMovesByReads(env, w); }
    EventKeeps(env, (u: World) => MovedByReads(env, w, u), w);
  }

  // ---------- Which event comes first ----------

  /** The first line added between w and r is this one, on the trace of s. */
  ghost predicate FirstLine(w: World, r: World, s: Side, head: Head) {
    var k := |w.Of(s).ops|;
    k < |r.Of(s).ops| && r.Of(s).ops[k].head == head && r.Of(s).ops[k].serial == w.Lines()
  }

  ghost predicate Begins(w: World, s: Side, head: Head, u: World) { FirstLine(w, u, s, head) }

  /** Once the line is there it stays. */
  lemma BeginsIsClosed(env: Env, w: World, s: Side, head: Head)
    ensures Closed(env, (u: World) => Begins(w, s, head, u))
  {
    ClosedByTrace(env, (u: World) => Begins(w, s, head, u));
  }

  lemma CallBegins(env: Env, w: World, u: World, s: Side, head: Head)
    requires u.a.ops == w.a.ops && u.b.ops == w.b.ops
    ensures Begins(w, s, head, Call(env, u, s, head))
  {
  }

  lemma TimerBegins(env: Env, w: World, s: Side)
    ensures FirstLine(w, Timer(env, w, s), s, if env.cfg.useUpdate then Update else Head.Flush)
  {
    var head := if env.cfg.useUpdate then Update else Head.Flush;
    var inv := (u: World) => Begins(w, s, head, u);
    BeginsIsClosed(env, w, s, head);
    CallBegins(env, w, w, s, head);
    if env.cfg.useUpdate {
      var updated := Call(env, w, s, Update);
      assert inv(updated);
      var checked := CallAs(env, updated, s, Check, Ret(env, updated));
      assert inv(checked) && SameTrace(checked, UpdateTimer(env, w, s));
      WriteKeeps(env, inv, UpdateTimer(env, w, s), s);
    } else {
      assert inv(Call(env, w, s, Head.Flush)) && SameTrace(Call(env, w, s, Head.Flush), FlushTimer(env, w, s));
      WriteKeeps(env, inv, FlushTimer(env, w, s), s);
    }
  }

  /** Ties go to deliveries, then to a, then to b: the first line of an event is the input of the packet that
      is due, and only without one the timer of a, and only without that the timer of b. */
  lemma EventStartsWith(env: Env, w: World)
    ensures var r := Event(env, w);
            var head := if env.cfg.useUpdate then Update else Head.Flush;
            if w.queue != [] && w.queue[0].at <= w.now then
              var d := w.queue[0];
              FirstLine(w, r, d.to, Input(d.origin, d.data, d.fec, env.cfg.SideOf(d.to).ackNoDelay))
            else if w.a.nextTimer <= w.now then FirstLine(w, r, A, head)
            else w.b.nextTimer <= w.now ==> FirstLine(w, r, B, head)
  {
    if DeliveryDue(w) {
      var d := w.queue[0];
      BeginsIsClosed(env, w, d.to, InputHead(env, d));
      CallBegins(env, w, Taken(w), d.to, InputHead(env, d));
      EventKeeps(env, (u: World) => Begins(w, d.to, InputHead(env, d), u), w);
    } else if w.a.nextTimer <= w.now {
      TimerBegins(env, w, A);
    } else if w.b.nextTimer <= w.now {
      TimerBegins(env, w, B);
    }
  }
}
