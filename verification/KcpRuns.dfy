/**
 * What every call of the trace simulator keeps, every run keeps. A property of worlds that any
 * recorded call keeps, and that looks at nothing the application alone changes, is kept by reading,
 * writing, timers, ended stalls and configuration, whatever they do.
 */
module KcpRuns {
  import opened DeliveryHeap
  import opened KcpTrace

  /** r differs from w at most in what the application counts and plans. */
  predicate SameTrace(w: World, r: World) {
    && r.queue == w.queue && r.nextNum == w.nextNum && r.enqueued == w.enqueued && r.arrivals == w.arrivals
    && r.pendingRaw == w.pendingRaw && r.packets == w.packets && r.dropped == w.dropped
    && r.a.ops == w.a.ops && r.b.ops == w.b.ops && r.now == w.now
  }

  /** r differs from w at most in what the application counts and plans; the timers stay armed as they are. */
  predicate Quiet(w: World, r: World) {
    SameTrace(w, r) && r.a.nextTimer == w.a.nextTimer && r.b.nextTimer == w.b.nextTimer
  }

  /** Every call but an input keeps inv, and so does what the application does between calls. */
  ghost predicate AppCloses(env: Env, inv: World -> bool) {
    && (forall w: World, s: Side, head: Head, ret: int {:trigger CallAs(env, w, s, head, ret)} ::
          inv(w) && !head.Input? ==> inv(CallAs(env, w, s, head, ret)))
    && (forall w: World, r: World {:trigger Quiet(w, r)} :: inv(w) && Quiet(w, r) ==> inv(r))
  }

  /** And so does arming a timer, with a clock that stands still for no earlier than now. */
  ghost predicate Closed(env: Env, inv: World -> bool) {
    && AppCloses(env, inv)
    && forall w: World, s: Side, at: nat {:trigger Armed(w, s, at)} ::
         inv(w) && (env.cfg.step == 0 ==> at >= w.now) ==> inv(Armed(w, s, at))
  }

  /** What looks at neither timers nor byte counts is closed if calls keep it. */
  lemma ClosedByTrace(env: Env, inv: World -> bool)
    requires forall w: World, s: Side, head: Head, ret: int {:trigger CallAs(env, w, s, head, ret)} ::
               inv(w) && !head.Input? ==> inv(CallAs(env, w, s, head, ret))
    requires forall w: World, r: World {:trigger SameTrace(w, r)} :: inv(w) && SameTrace(w, r) ==> inv(r)
    ensures Closed(env, inv)
  {
    forall w: World, s: Side, at: nat | inv(w) ensures inv(Armed(w, s, at)) { assert SameTrace(w, Armed(w, s, at)); }
  }

  lemma SendKeeps(env: Env, inv: World -> bool, w: World, s: Side, n: nat)
    requires AppCloses(env, inv) && inv(w)
    ensures inv(SendCall(env, w, s, n))
  {
    var called := CallAs(env, w, s, Head.Send(n), Ret(env, w));
    assert Quiet(called, SendCall(env, w, s, n));
  }

  lemma RecvKeeps(env: Env, inv: World -> bool, w: World, s: Side, n: nat)
    requires AppCloses(env, inv) && inv(w)
    ensures inv(RecvCall(env, w, s, n))
  {
    var called := CallAs(env, w, s, Recv(n), Ret(env, w));
    assert Quiet(called, RecvCall(env, w, s, n));
  }

  lemma IdleReadKeeps(env: Env, inv: World -> bool, w: World, s: Side)
    requires AppCloses(env, inv) && inv(w)
    ensures inv(IdleRead(env, w, s))
  {
    assert Quiet(w, CountIdle(w, s));
    RecvKeeps(env, inv, CountIdle(w, s), s, env.cfg.SideOf(s).readBuf);
  }

  lemma ReadOneKeeps(env: Env, inv: World -> bool, w: World, s: Side, n: nat)
    requires AppCloses(env, inv) && inv(w)
    ensures inv(ReadOne(env, w, s, n))
  {
    var buf := env.cfg.SideOf(s).readBuf;
    RecvKeeps(env, inv, w, s, buf);
    RecvKeeps(env, inv, RecvCall(env, w, s, buf), s, n);
  }

  lemma {:induction false} ReadFromKeeps(env: Env, inv: World -> bool, w: World, s: Side, burst: Burst, i: nat)
    requires AppCloses(env, inv) && inv(w)
    ensures inv(ReadFrom(env, w, s, burst, i))
    decreases |burst.sizes| - i
  {
    var peeked := CallAs(env, w, s, Head.Peek, burst.Peek(i));
    if i >= |burst.sizes| {
      IdleReadKeeps(env, inv, peeked, s);
    } else {
      ReadOneKeeps(env, inv, peeked, s, burst.sizes[i]);
      ReadFromKeeps(env, inv, ReadOne(env, peeked, s, burst.sizes[i]), s, burst, i + 1);
    }
  }

  lemma ReadKeeps(env: Env, inv: World -> bool, w: World, s: Side)
    requires AppCloses(env, inv) && inv(w)
    ensures inv(Read(env, w, s))
  {
    assert Quiet(w, NextBurst(w));
    ReadFromKeeps(env, inv, NextBurst(w), s, env.burst(w.bursts), 0);
  }

  lemma PiecesKeep(env: Env, inv: World -> bool, w: World, s: Side, n: nat)
    requires AppCloses(env, inv) && inv(w)
    ensures inv(Pieces(env, w, s, n))
  {
    forall u: World, c: nat | inv(u) ensures inv(Sending(env, s)(u, c)) { SendKeeps(env, inv, u, s, c); }
    SplitKeeps(Sending(env, s), w.Of(s).mss, inv, w, n);
  }

  lemma WriteMessageKeeps(env: Env, inv: World -> bool, w: World, s: Side)
    requires AppCloses(env, inv) && inv(w) && w.Of(s).writes != []
    ensures inv(WriteMessage(env, w, s))
  {
    var n, taken := w.Of(s).writes[0], TakeWrite(w, s);
    assert Quiet(w, taken);
    SendKeeps(env, inv, taken, s, n);
    PiecesKeep(env, inv, taken, s, n);
    assert Quiet(SendMessage(env, taken, s, n), WriteMessage(env, w, s));
  }

  lemma OneWriteKeeps(env: Env, inv: World -> bool, w: World, s: Side)
    requires AppCloses(env, inv) && inv(w) && w.Of(s).writes != []
    ensures inv(OneWrite(env, w, s))
  {
    var sent := WriteMessage(env, w, s);
    WriteMessageKeeps(env, inv, w, s);
    var waited := CallAs(env, sent, s, Head.WaitSnd, Ret(env, sent));
    assert inv(CallAs(env, waited, s, Head.Flush, Ret(env, waited)));
  }

  lemma {:induction false} WriteKeeps(env: Env, inv: World -> bool, w: World, s: Side)
    requires AppCloses(env, inv) && inv(w)
    ensures inv(Write(env, w, s))
    decreases |w.Of(s).writes|
  {
    if CanWrite(env, w, s) {
      var asked := CallAs(env, w, s, Head.WaitSnd, Ret(env, w));
      if Ret(env, w) < asked.Of(s).words.sndWnd {
        OneWriteKeeps(env, inv, asked, s);
        WriteKeeps(env, inv, OneWrite(env, asked, s), s);
      }
    }
  }

  lemma ArmedKeeps(env: Env, inv: World -> bool, w: World, s: Side, at: nat)
    requires Closed(env, inv) && inv(w) && (env.cfg.step == 0 ==> at >= w.now)
    ensures inv(Armed(w, s, at))
  {
  }

  /** A clock that calls do not move. */
  lemma CallsStandStill(env: Env, w: World, s: Side, head: Head, ret: int)
    requires env.cfg.step == 0
    ensures CallAs(env, w, s, head, ret).now == w.now
  {
  }

  lemma UpdateTimerKeeps(env: Env, inv: World -> bool, w: World, s: Side)
    requires Closed(env, inv) && inv(w)
    ensures inv(UpdateTimer(env, w, s))
  {
    var updated := CallAs(env, w, s, Update, Ret(env, w));
    var checked := CallAs(env, updated, s, Check, Ret(env, updated));
    ArmedKeeps(env, inv, checked, s, UpdateTimer(env, w, s).Of(s).nextTimer);
  }

  lemma FlushTimerKeeps(env: Env, inv: World -> bool, w: World, s: Side)
    requires Closed(env, inv) && inv(w)
    ensures inv(FlushTimer(env, w, s))
  {
    var flushed := CallAs(env, w, s, Head.Flush, Ret(env, w));
    if env.cfg.step == 0 { CallsStandStill(env, w, s, Head.Flush, Ret(env, w)); }
    ArmedKeeps(env, inv, flushed, s, FlushTimer(env, w, s).Of(s).nextTimer);
  }

  lemma TimerKeeps(env: Env, inv: World -> bool, w: World, s: Side)
    requires Closed(env, inv) && inv(w)
    ensures inv(Timer(env, w, s))
  {
    UpdateTimerKeeps(env, inv, w, s);
    FlushTimerKeeps(env, inv, w, s);
    WriteKeeps(env, inv, if env.cfg.useUpdate then UpdateTimer(env, w, s) else FlushTimer(env, w, s), s);
  }

  /** The world after the root has been taken out, and counted if it was crafted. */
  function Taken(w: World): World
    requires w.queue != []
  {
    Counted(TakeNext(w), w.queue[0])
  }

  /** The world right after the root was handed to its endpoint. */
  function InputDone(env: Env, w: World): World
    requires w.queue != []
  {
    Call(env, Taken(w), w.queue[0].to, InputHead(env, w.queue[0]))
  }

  /** From the input on, a delivery is a read and a write. */
  lemma DeliveryKeeps(env: Env, inv: World -> bool, w: World)
    requires Closed(env, inv) && w.queue != [] && inv(InputDone(env, w))
    ensures inv(Deliver(env, TakeNext(w), w.queue[0]))
  {
    var s := w.queue[0].to;
    ReadKeeps(env, inv, InputDone(env, w), s);
    WriteKeeps(env, inv, Read(env, InputDone(env, w), s), s);
  }

  lemma StallsEndedKeep(env: Env, inv: World -> bool, w: World)
    requires Closed(env, inv) && inv(w)
    ensures inv(StallsEnded(env, w))
  {
    ReadKeeps(env, inv, w, A);
    ReadKeeps(env, inv, if env.cfg.a.stallTo == w.now then Read(env, w, A) else w, B);
  }

  lemma EventKeeps(env: Env, inv: World -> bool, w: World)
    requires Closed(env, inv) && if DeliveryDue(w) then inv(InputDone(env, w)) else inv(w)
    ensures inv(Event(env, w))
  {
    if DeliveryDue(w) {
      DeliveryKeeps(env, inv, w);
    } else if w.a.nextTimer <= w.now {
      TimerKeeps(env, inv, w, A);
    } else if w.b.nextTimer <= w.now {
      TimerKeeps(env, inv, w, B);
    } else {
      StallsEndedKeep(env, inv, w);
    }
  }

  // ---------- The start ----------

  lemma CallIfKeeps(env: Env, inv: World -> bool, w: World, s: Side, head: Head, wanted: bool)
    requires Closed(env, inv) && inv(w) && !head.Input?
    ensures inv(CallIf(env, w, s, head, wanted))
  {
    assert inv(CallAs(env, w, s, head, Ret(env, w)));
  }

  lemma {:induction false} ExtraSendsKeep(env: Env, inv: World -> bool, w: World, s: Side, i: nat)
    requires Closed(env, inv) && inv(w)
    ensures inv(ExtraSends(env, w, s, i))
    decreases |env.cfg.SideOf(s).extraSends| - i
  {
    var sizes := env.cfg.SideOf(s).extraSends;
    if i < |sizes| {
      SendKeeps(env, inv, w, s, sizes[i]);
      ExtraSendsKeep(env, inv, SendCall(env, w, s, sizes[i]), s, i + 1);
    }
  }

  lemma SettingsKeep(env: Env, inv: World -> bool, w: World, s: Side)
    requires Closed(env, inv) && inv(w)
    ensures inv(Settings(env, w, s))
  {
    var c := env.cfg.SideOf(s);
    CallIfKeeps(env, inv, w, s, SetMtu(c.mtu), c.mtu != 0);
    var sized := CallIf(env, w, s, SetMtu(c.mtu), c.mtu != 0);
    CallIfKeeps(env, inv, sized, s, NoDelayHead(c), c.noDelay.Some?);
    var quick := CallIf(env, sized, s, NoDelayHead(c), c.noDelay.Some?);
    CallIfKeeps(env, inv, quick, s, WndSize(c.sndWnd, c.rcvWnd), c.sndWnd != 0 || c.rcvWnd != 0);
  }

  lemma StreamedKeeps(env: Env, inv: World -> bool, w: World, s: Side)
    requires Closed(env, inv) && inv(w)
    ensures inv(Streamed(env, w, s))
  {
    var called := CallAs(env, w, s, Stream(env.cfg.SideOf(s).stream), Ret(env, w));
    assert Quiet(called, Streamed(env, w, s));
  }

  lemma ConfigureKeeps(env: Env, inv: World -> bool, w: World, s: Side)
    requires Closed(env, inv) && inv(w)
    ensures inv(Configure(env, w, s))
  {
    SettingsKeep(env, inv, w, s);
    StreamedKeeps(env, inv, Settings(env, w, s), s);
    var streamed := Streamed(env, Settings(env, w, s), s);
    CallIfKeeps(env, inv, streamed, s, Check, env.cfg.useUpdate);
    var checked := CallIf(env, streamed, s, Check, env.cfg.useUpdate);
    ExtraSendsKeep(env, inv, checked, s, 0);
    ArmedKeeps(env, inv, ExtraSends(env, checked, s, 0), s, ExtraSends(env, checked, s, 0).now);
  }

  /** A crafted packet for each endpoint keeps inv. */
  ghost predicate KeptByCrafted(env: Env, inv: World -> bool) {
    forall w: World, k: nat {:trigger inv(PushBoth(env, w, k))} ::
      k < |env.cfg.garbage| && inv(w) ==> inv(PushBoth(env, w, k))
  }

  lemma GarbageKeeps(env: Env, inv: World -> bool, w: World)
    requires KeptByCrafted(env, inv) && inv(w)
    ensures inv(PushGarbage(env, w, 0))
  {
    var step := Crafting(env);
    forall u: World, j: nat | inv(u) && j < |env.cfg.garbage| ensures inv(step(u, j)) {
      assert inv(PushBoth(env, u, j));
    }
    RepeatKeeps(step, inv, w, 0, |env.cfg.garbage|);
  }

  lemma StartKeeps(env: Env, inv: World -> bool)
    requires Closed(env, inv) && KeptByCrafted(env, inv) && inv(NewWorld(env))
    ensures inv(Start(env))
  {
    ConfigureKeeps(env, inv, NewWorld(env), A);
    ConfigureKeeps(env, inv, Configure(env, NewWorld(env), A), B);
    GarbageKeeps(env, inv, Configure(env, Configure(env, NewWorld(env), A), B));
  }

  // ---------- Whole runs ----------

  /** Advancing the clock and taking in the next delivery keep inv too. */
  ghost predicate KeptBetween(env: Env, inv: World -> bool) {
    && (forall w: World {:trigger Advance(env, w)} :: inv(w) ==> inv(Advance(env, w)))
    && (forall w: World {:trigger InputDone(env, w)} :: inv(w) && DeliveryDue(w) ==> inv(InputDone(env, w)))
  }

  lemma TurnKeeps(env: Env, inv: World -> bool, w: World)
    requires Closed(env, inv) && KeptBetween(env, inv) && inv(w)
    ensures inv(Turn(env, w).w)
  {
    var next := Advance(env, w);
    if DeliveryDue(next) { assert inv(InputDone(env, next)); }
    EventKeeps(env, inv, next);
  }

  /** What calls, crafted packets, the clock and the start keep holds after any number of turns. */
  lemma AlwaysHolds(env: Env, inv: World -> bool, turns: nat)
    requires Closed(env, inv) && KeptByCrafted(env, inv) && KeptBetween(env, inv) && inv(NewWorld(env))
    ensures inv(After(env, turns).w)
  {
    StartKeeps(env, inv);
    var held := (o: Outcome) => inv(o.w);
    forall p: Outcome | held(p) && p.Running? ensures held(Turns(env)(p.w)) { TurnKeeps(env, inv, p.w); }
    RunKeeps(Turns(env), held, Running(Start(env)), turns);
  }
}
