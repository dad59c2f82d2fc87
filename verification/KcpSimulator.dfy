/**
 * The trace simulator as the two mutable objects the program has: traceSim with its clock, counters
 * and queue, and the traceEndpoint of each side. Every method is proved to change the whole state
 * exactly as its function in KcpTrace says, so what is proved there of runs holds of RunTrace.
 * `arrivals` and `watch` only record what happened.
 */
module KcpSimulator {
  import opened Helpers
  import opened DeliveryHeap
  import T = KcpTrace
  import KcpCausality
  import KcpTiming
  import KcpLedger
  import KcpReading
  import KcpEnding
  import PingPong

  class Endpoint {
    const side: Side
    var ops: seq<T.Op>
    var writes: seq<nat>
    var nextTimer: nat
    var sent: nat
    var got: nat
    var idleReads: nat
    var mss: T.pos
    var words: T.Words

    function View(): T.End
      reads this
    {
      T.End(ops, writes, nextTimer, sent, got, idleReads, mss, words)
    }

    /** A new endpoint with its application's writes laid out. */
    constructor (cfg: T.Config, side: Side)
      ensures this.side == side && View() == T.NewEnd(cfg, cfg.SideOf(side))
    {
      this.side := side;
      ops, nextTimer, sent, got, idleReads, mss := [], 0, 0, 0, 0, 1;
      words := T.Words(1, 0, 0, false);
      var conf := cfg.SideOf(side);
      var plan: seq<nat> := [];
      var left, k: nat := conf.writeBytes, 0;
      while left > 0
        invariant plan + T.Plan(cfg, conf, left, k) == T.Plan(cfg, conf, conf.writeBytes, 0)
        decreases left
      {
        var n := T.PlanSize(cfg, conf, left, k);
        assert plan + T.Plan(cfg, conf, left, k) == (plan + [n]) + T.Plan(cfg, conf, left - n, k + 1);
        plan := plan + [n];
        left, k := left - n, k + 1;
      }
      writes := plan;
    }
  }

  class Simulator {
    const env: T.Env
    const a: Endpoint
    const b: Endpoint
    var now: nat
    var nextNum: nat
    var queue: seq<Delivery>
    var packets: nat
    var dropped: nat
    var pendingRaw: int
    var calls: nat
    var bursts: nat
    ghost var arrivals: seq<T.Arrival>
    ghost var enqueued: seq<Delivery>
    ghost var watch: T.Watch

    ghost predicate Valid() { a != b && a.side == A && b.side == B }

    function Ep(s: Side): Endpoint { if s == A then a else b }

    ghost function View(): T.World
      reads this, a, b
    {
      T.World(now, nextNum, queue, a.View(), b.View(), packets, dropped, pendingRaw, calls, bursts,
              enqueued, arrivals, watch)
    }

    constructor (env: T.Env)
      ensures Valid() && this.env == env && fresh(a) && fresh(b)
      ensures View() == T.NewWorld(env)
    {
      this.env := env;
      a := new Endpoint(env.cfg, A);
      b := new Endpoint(env.cfg, B);
      now, nextNum, queue, packets, dropped, pendingRaw, calls, bursts := 0, 0, [], 0, 0, 0, 0, 0;
      enqueued, arrivals, watch := [], [], T.Watch(true, true, true);
    }

    // ---------- The link ----------

    method Enqueue(d: Delivery)
      requires Valid()
      modifies this`queue, this`nextNum, this`enqueued
      ensures View() == T.Enqueue(old(View()), d)
    {
      queue := Push(queue, d);
      nextNum := nextNum + 1;
      enqueued := enqueued + [d];
    }

    method SendCopies(from: Side, op: nat, out: nat, p: Packet, draw: T.LinkDraw)
      requires Valid()
      modifies this`queue, this`nextNum, this`enqueued
      ensures View() == T.SendCopies(env, old(View()), from, op, out, p, draw)
    {
      Enqueue(T.CopyAt(env.cfg, now, nextNum, from, op, out, p, draw.first));
      if draw.twice { Enqueue(T.CopyAt(env.cfg, now, nextNum, from, op, out, p, draw.second)); }
    }

    method Transmit(from: Side, op: nat, out: nat, p: Packet)
      requires Valid()
      modifies this
      ensures View() == T.Transmit(env, old(View()), from, op, out, p)
    {
      var draw := env.draw(packets);
      packets := packets + 1;
      assert View() == T.OneMore(old(View()));
      if T.Blackout(env.cfg.LinkFrom(from), now) || draw.lost {
        dropped := dropped + 1;
      } else {
        SendCopies(from, op, out, p, draw);
      }
    }

    // ---------- Engine calls ----------

    method Tick(reply: T.Reply)
      requires Valid() && reply == env.reply(calls)
      modifies this`now, this`calls
      ensures View() == T.Ticked(env, old(View()))
    {
      now := now + T.Ticks(reply.clocks, env.cfg.step);
      calls := calls + 1;
    }

    method Append(s: Side, op: T.Op, words: T.Words)
      requires Valid()
      modifies Ep(s)`ops, Ep(s)`words
      ensures View() == T.Append(old(View()), s, op, words)
    {
      Ep(s).ops := Ep(s).ops + [op];
      Ep(s).words := words;
    }

    /** One recorded call: the engine runs, its outputs go on the link, the line is appended. */
    method CallAs(s: Side, head: T.Head, ret: int)
      requires Valid()
      modifies this, a, b
      ensures View() == T.CallAs(env, old(View()), s, head, ret)
    {
      var reply := env.reply(calls);
      var op := T.Op(head, T.Clock(env.cfg, now), ret, reply.clocks, reply.outs, |a.ops| + |b.ops|, reply.words);
      var index := |Ep(s).ops|;
      Tick(reply);
      SendOutputs(s, index, reply.outs);
      Append(s, op, reply.words);
    }

    method SendOutputs(s: Side, op: nat, outs: seq<Packet>)
      requires Valid()
      modifies this
      ensures View() == T.TransmitFrom(env, old(View()), s, op, outs, 0)
    {
      var i := 0;
      while i < |outs|
        invariant 0 <= i
        invariant T.TransmitFrom(env, View(), s, op, outs, i) == T.TransmitFrom(env, old(View()), s, op, outs, 0)
      {
        Transmit(s, op, i, outs[i]);
        i := i + 1;
      }
    }

    method Call(s: Side, head: T.Head) returns (ret: int)
      requires Valid()
      modifies this, a, b
      ensures ret == T.Ret(env, old(View())) && View() == T.Call(env, old(View()), s, head)
    {
      ret := env.reply(calls).ret;
      CallAs(s, head, ret);
    }

    method Send(s: Side, n: nat)
      requires Valid()
      modifies this, a, b
      ensures View() == T.SendCall(env, old(View()), s, n)
    {
      var ret := Call(s, T.Head.Send(n));
      if ret == 0 { Ep(s).sent := Ep(s).sent + n; }
      watch := watch.(inStep := watch.inStep && T.InStep(env.cfg.pingPong, a.sent, b.sent));
    }

    method Recv(s: Side, n: nat)
      requires Valid()
      modifies this, a, b
      ensures View() == T.RecvCall(env, old(View()), s, n)
    {
      var ret := Call(s, T.Recv(n));
      if ret > 0 {
        Ep(s).got := Ep(s).got + ret;
        watch := watch.(inOrder := watch.inOrder && Ep(s).got <= Ep(s.Peer()).sent);
      }
    }

    // ---------- The application ----------

    method ReadMessage(s: Side, n: nat)
      requires Valid()
      modifies this, a, b
      ensures View() == T.ReadOne(env, old(View()), s, n)
    {
      var buf := env.cfg.SideOf(s).readBuf;
      Recv(s, buf);
      if n > buf { Recv(s, n); }
    }

    method NothingToRead(s: Side)
      requires Valid()
      modifies this, a, b
      ensures View() == T.IdleRead(env, old(View()), s)
    {
      var e := Ep(s);
      e.idleReads := e.idleReads + 1;
      assert View() == T.CountIdle(old(View()), s);
      if e.idleReads % 8 == 1 { Recv(s, env.cfg.SideOf(s).readBuf); }
    }

    method NextBurst() returns (burst: T.Burst)
      requires Valid()
      modifies this`bursts
      ensures burst == env.burst(old(bursts)) && View() == T.NextBurst(old(View()))
    {
      burst := env.burst(bursts);
      bursts := bursts + 1;
    }

    method Read(s: Side)
      requires Valid()
      modifies this, a, b
      ensures View() == T.Read(env, old(View()), s)
    {
      if !T.Stalled(env.cfg.SideOf(s), now) {
        var burst := NextBurst();
        Drain(s, burst);
      }
    }

    /** PeekSize and Recv until PeekSize is negative. */
    method Drain(s: Side, burst: T.Burst)
      requires Valid()
      modifies this, a, b
      ensures View() == T.Drained(env, old(View()), s, burst)
    {
      ghost var end := T.Drained(env, View(), s, burst);
      var i := 0;
      while true
        invariant 0 <= i <= |burst.sizes| && T.ReadFrom(env, View(), s, burst, i) == end
        decreases |burst.sizes| - i
      {
        var n := burst.Peek(i);
        CallAs(s, T.Head.Peek, n);
        if n < 0 { break; }
        ReadMessage(s, n);
        i := i + 1;
      }
      NothingToRead(s);
    }

    predicate CanWrite(s: Side)
      requires Valid()
      reads this, a, b
      ensures CanWrite(s) == T.CanWrite(env, View(), s)
    {
      var e := Ep(s);
      if e.writes == [] || now < env.cfg.SideOf(s).writeFrom then false
      else if env.cfg.pingPong == 0 then true
      else
        var done := T.Messages(e.sent, env.cfg.pingPong);
        if s == A then e.got >= done * env.cfg.pingPong else e.got >= (done + 1) * env.cfg.pingPong
    }

    method SendPieces(s: Side, n: nat)
      requires Valid()
      modifies this, a, b
      ensures View() == T.Pieces(env, old(View()), s, n)
    {
      ghost var send, mss, end := T.Sending(env, s), Ep(s).mss, T.Pieces(env, View(), s, n);
      var left: nat := n;
      while left > 0
        invariant Ep(s).mss == mss && T.SplitsTo(send, mss, View(), left, end)
      {
        T.SplitUnrolls(send, mss, View(), left, end);
        var c := Min(left, Ep(s).mss);
        Send(s, c);
        left := left - c;
      }
    }

    method SendMessage(s: Side, n: nat)
      requires Valid()
      modifies this, a, b
      ensures View() == T.SendMessage(env, old(View()), s, n)
    {
      if env.cfg.SideOf(s).noSplit { Send(s, n); } else { SendPieces(s, n); }
    }

    method WriteMessage(s: Side)
      requires Valid() && Ep(s).writes != []
      modifies this, a, b
      ensures View() == T.WriteMessage(env, old(View()), s)
    {
      var e := Ep(s);
      var n := e.writes[0];
      ghost var before := e.sent;
      e.writes := e.writes[1..];
      assert View() == T.TakeWrite(old(View()), s);
      SendMessage(s, n);
      watch := watch.(whole := watch.whole && (e.sent == before || e.sent == before + n));
    }

    method WriteOne(s: Side)
      requires Valid() && Ep(s).writes != []
      modifies this, a, b
      ensures View() == T.OneWrite(env, old(View()), s)
    {
      WriteMessage(s);
      var waiting := Call(s, T.Head.WaitSnd);
      var ret := Call(s, T.Head.Flush);
    }

    method Write(s: Side)
      requires Valid()
      modifies this, a, b
      ensures View() == T.Write(env, old(View()), s)
    {
      while CanWrite(s)
        invariant T.Write(env, View(), s) == T.Write(env, old(View()), s)
        decreases |Ep(s).writes|
      {
        var waiting := Call(s, T.Head.WaitSnd);
        if waiting >= Ep(s).words.sndWnd { return; }
        WriteOne(s);
      }
    }

    // ---------- Events ----------

    method ArmTimer(s: Side)
      requires Valid()
      modifies this, a, b
      ensures View() == if env.cfg.useUpdate then T.UpdateTimer(env, old(View()), s) else T.FlushTimer(env, old(View()), s)
    {
      if env.cfg.useUpdate {
        var ret := Call(s, T.Update);
        ret := Call(s, T.Check);
        Ep(s).nextTimer := now + Max(T.Itimediff(ret, T.Clock(env.cfg, now)), 1);
      } else {
        var early := now;
        var ret := Call(s, T.Head.Flush);
        Ep(s).nextTimer := (if env.cfg.lateNow then now else early) + ret % 0x1_0000_0000;
      }
    }

    method Timer(s: Side)
      requires Valid()
      modifies this, a, b
      ensures View() == T.Timer(env, old(View()), s)
    {
      ArmTimer(s);
      Write(s);
    }

    method Deliver(d: Delivery)
      requires Valid()
      modifies this, a, b
      ensures View() == T.Deliver(env, old(View()), d)
    {
      if d.origin.Crafted? { pendingRaw := pendingRaw - 1; }
      assert View() == T.Counted(old(View()), d);
      HandleInput(d);
    }

    method HandleInput(d: Delivery)
      requires Valid()
      modifies this, a, b
      ensures View() == T.HandleInput(env, old(View()), d)
    {
      var ret := Call(d.to, T.Input(d.origin, d.data, d.fec, env.cfg.SideOf(d.to).ackNoDelay));
      Read(d.to);
      Write(d.to);
    }

    method PopNext() returns (d: Delivery)
      requires Valid() && queue != []
      modifies this
      ensures d == old(queue)[0] && View() == T.TakeNext(old(View()))
    {
      arrivals := arrivals + [T.Arrival(queue[0], now)];
      d, queue := Pop(queue);
    }

    method StallsEnded()
      requires Valid()
      modifies this, a, b
      ensures View() == T.StallsEnded(env, old(View()))
    {
      if env.cfg.a.stallTo == now { Read(A); }
      if env.cfg.b.stallTo == now { Read(B); }
    }

    method Event()
      requires Valid()
      modifies this, a, b
      ensures View() == T.Event(env, old(View()))
    {
      if queue != [] && queue[0].at <= now {
        var d := PopNext();
        Deliver(d);
      } else if a.nextTimer <= now {
        Timer(A);
      } else if b.nextTimer <= now {
        Timer(B);
      } else {
        StallsEnded();
      }
    }

    predicate Done()
      requires Valid()
      reads this, a, b
      ensures Done() == T.Done(env, View())
    {
      if env.cfg.toDead then a.words.dead
      else
        && pendingRaw == 0 && a.writes == [] && b.writes == []
        && b.got == a.sent && a.got == b.sent && a.words.waiting == 0 && b.words.waiting == 0
    }

    method AdvanceClock()
      requires Valid()
      modifies this`now
      ensures View() == T.Advance(env, old(View()))
    {
      var next := Min(a.nextTimer, b.nextTimer);
      if queue != [] { next := Min(next, queue[0].at); }
      next := T.StallEnd(env.cfg.a, now, next);
      next := T.StallEnd(env.cfg.b, now, next);
      if next > now { now := next; }
    }

    // ---------- The start ----------

    method CallIf(s: Side, head: T.Head, wanted: bool)
      requires Valid()
      modifies this, a, b
      ensures View() == T.CallIf(env, old(View()), s, head, wanted)
    {
      if wanted { var ret := Call(s, head); }
    }

    method Settings(s: Side)
      requires Valid()
      modifies this, a, b
      ensures View() == T.Settings(env, old(View()), s)
    {
      var c := env.cfg.SideOf(s);
      CallIf(s, T.SetMtu(c.mtu), c.mtu != 0);
      CallIf(s, T.NoDelayHead(c), c.noDelay.Some?);
      CallIf(s, T.WndSize(c.sndWnd, c.rcvWnd), c.sndWnd != 0 || c.rcvWnd != 0);
    }

    method SetStream(s: Side)
      requires Valid()
      modifies this, a, b
      ensures View() == T.Streamed(env, old(View()), s)
    {
      var ret := Call(s, T.Stream(env.cfg.SideOf(s).stream));
      Ep(s).mss := Ep(s).words.mss;
    }

    method SendExtra(s: Side)
      requires Valid()
      modifies this, a, b
      ensures View() == T.ExtraSends(env, old(View()), s, 0)
    {
      var sizes := env.cfg.SideOf(s).extraSends;
      var i := 0;
      while i < |sizes|
        invariant 0 <= i
        invariant T.ExtraSends(env, View(), s, i) == T.ExtraSends(env, old(View()), s, 0)
      {
        Send(s, sizes[i]);
        i := i + 1;
      }
    }

    method Configure(s: Side)
      requires Valid()
      modifies this, a, b
      ensures View() == T.Configure(env, old(View()), s)
    {
      Settings(s);
      SetStream(s);
      CallIf(s, T.Check, env.cfg.useUpdate);
      SendExtra(s);
      Ep(s).nextTimer := now;
    }

    method PushCrafted(k: nat, s: Side)
      requires Valid() && k < |env.cfg.garbage|
      modifies this
      ensures View() == T.PushCrafted(env, old(View()), k, s)
    {
      var d := T.CraftedPacket(env.cfg, nextNum + 1, k, s);
      Enqueue(d);
      ghost var queued := View();
      pendingRaw := pendingRaw + 1;
      assert View() == queued.(pendingRaw := queued.pendingRaw + 1);
    }

    method PushBoth(k: nat)
      requires Valid() && k < |env.cfg.garbage|
      modifies this
      ensures View() == T.PushBoth(env, old(View()), k)
    {
      PushCrafted(k, A);
      PushCrafted(k, B);
    }

    method PushGarbage()
      requires Valid()
      modifies this
      ensures View() == T.PushGarbage(env, old(View()), 0)
    {
      ghost var end := T.PushGarbage(env, View(), 0);
      var k := 0;
      while k < |env.cfg.garbage|
        invariant 0 <= k && T.PushGarbage(env, View(), k) == end
      {
        PushBoth(k);
        k := k + 1;
      }
    }

    method Begin()
      requires Valid() && View() == T.NewWorld(env)
      modifies this, a, b
      ensures View() == T.Start(env)
    {
      Configure(A);
      Configure(B);
      PushGarbage();
    }

    /** One turn of the event loop, and how it ended. */
    method Turn() returns (done: bool, late: bool)
      requires Valid()
      modifies this, a, b
      ensures T.Standing(done, late, View()) == T.Turns(env)(old(View()))
    {
      done, late := Done(), false;
      if !done {
        AdvanceClock();
        late := now > env.cfg.limit;
        if !late { Event(); }
      }
    }

    method NextTurn(ghost left: nat, ghost end: T.Outcome) returns (done: bool, late: bool)
      requires Valid() && left > 0 && T.EndsIn(T.Turns(env), T.Running(View()), left, end)
      modifies this, a, b
      ensures T.EndsIn(T.Turns(env), T.Standing(done, late, View()), left - 1, end)
    {
      T.OneTurnOn(T.Turns(env), T.Running(View()), left, end);
      done, late := Turn();
    }

    method RunFor(turns: nat, ghost end: T.Outcome) returns (done: bool, late: bool)
      requires Valid() && T.EndsIn(T.Turns(env), T.Running(View()), turns, end)
      modifies this, a, b
      ensures T.Standing(done, late, View()) == end
    {
      done, late := false, false;
      var left := turns;
      while left > 0 && !done && !late
        invariant T.EndsIn(T.Turns(env), T.Standing(done, late, View()), left, end)
      {
        done, late := NextTurn(left, end);
        left := left - 1;
      }
      T.NoTurnsOn(T.Turns(env), T.Standing(done, late, View()), left, end);
    }

    /** The whole run, left after `turns` turns of the loop if it has not ended by then, with what its
      * traces and its clock promise. */
    method RunTrace(turns: nat) returns (done: bool, late: bool)
      requires Valid() && View() == T.NewWorld(env)
      modifies this, a, b
      ensures T.Standing(done, late, View()) == T.After(env, turns)
      ensures KcpCausality.Causal(KcpCausality.TracesOf(View()))
      ensures KcpTiming.NeverEarly(arrivals, now) && (env.cfg.step == 0 ==> KcpTiming.Punctual(arrivals))
      ensures multiset(queue) + multiset(KcpLedger.Came(arrivals)) == multiset(enqueued)
      ensures KcpReading.AllRead(env, View()) && KcpLedger.Told(env.cfg, View())
      ensures done && !env.cfg.toDead ==> KcpEnding.AllArrived(env.cfg, View())
      ensures PingPong.Gentle(env.cfg) && watch.inOrder ==> watch.inStep && b.sent <= a.sent <= b.sent + env.cfg.pingPong
    {
      Begin();
      done, late := RunFor(turns, T.After(env, turns));
      KcpCausality.EveryRunIsSound(env, turns);
      KcpTiming.EveryRunIsTimely(env, turns);
      KcpLedger.EveryDeliveryAccounted(env, turns);
      KcpReading.EveryTraceIsRead(env, turns);
      KcpLedger.EveryArrivalIsInput(env, turns, A);
      KcpLedger.EveryArrivalIsInput(env, turns, B);
      if done && !env.cfg.toDead { KcpEnding.FinishedIsComplete(env, turns); }
      if PingPong.Gentle(env.cfg) { PingPong.SafeStaysInStep(env, turns); }
    }
  }
}
