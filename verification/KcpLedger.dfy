/**
 * The books of the trace simulator: in every run, every delivery ever put in the queue is still
 * there or was taken out, once; its number says when it was put in; and every packet an engine
 * output is counted.
 */
module KcpLedger {
  import opened Helpers
  import opened DeliveryHeap
  import opened KcpTrace
  import opened KcpRuns

  /** The deliveries taken out. */
  function Came(arrivals: seq<Arrival>): (came: seq<Delivery>)
    ensures |came| == |arrivals|
  {
    seq(|arrivals|, i requires 0 <= i < |arrivals| => arrivals[i].d)
  }

  /** Copies are numbered from 0 in the order in which they were queued, counting crafted packets too;
    * a crafted packet bears the number after its own, because the counter advances before it is used. */
  ghost predicate NumbersTell(enqueued: seq<Delivery>) {
    forall i :: 0 <= i < |enqueued| ==> enqueued[i].num == if enqueued[i].origin.Crafted? then i + 1 else i
  }

  /** The packets output on one trace. */
  function Outputs(ops: seq<Op>): nat {
    if ops == [] then 0 else Outputs(ops[..|ops| - 1]) + |ops[|ops| - 1].outs|
  }

  ghost predicate Balanced(w: World) {
    && IsHeap(w.queue) && multiset(w.queue) + multiset(Came(w.arrivals)) == multiset(w.enqueued)
    && |w.enqueued| == w.nextNum && NumbersTell(w.enqueued)
  }

  ghost predicate PacketsCounted(w: World) { w.packets == Outputs(w.a.ops) + Outputs(w.b.ops) && w.dropped <= w.packets }

  ghost predicate Kept(w: World) { Balanced(w) && PacketsCounted(w) }

  // ---------- The queue ----------

  lemma EnqueueKeepsBalanced(w: World, d: Delivery)
    requires Balanced(w) && d.num == if d.origin.Crafted? then w.nextNum + 1 else w.nextNum
    ensures Balanced(Enqueue(w, d))
  {
    PushKeepsHeap(w.queue, d);
    Joins(multiset(w.queue), multiset(Came(w.arrivals)), d);
  }

  lemma Joins(q: multiset<Delivery>, came: multiset<Delivery>, d: Delivery)
    ensures (q + multiset{d}) + came == (q + came) + multiset{d}
  {
  }

  lemma TakeKeepsBalanced(w: World)
    requires Balanced(w) && w.queue != []
    ensures Balanced(TakeNext(w))
  {
    PopKeepsHeap(w.queue);
    CameSnoc(w.arrivals, Arrival(w.queue[0], w.now));
    Leaves(multiset(Popped(w.queue)), multiset(Came(w.arrivals)), w.queue[0]);
  }

  lemma CameSnoc(arrivals: seq<Arrival>, a: Arrival)
    ensures multiset(Came(arrivals + [a])) == multiset(Came(arrivals)) + multiset{a.d}
  {
    assert Came(arrivals + [a]) == Came(arrivals) + [a.d];
  }

  lemma Leaves(q: multiset<Delivery>, came: multiset<Delivery>, d: Delivery)
    ensures q + (came + multiset{d}) == (q + multiset{d}) + came
  {
  }

  // ---------- A call ----------

  lemma CopiesKeepBalanced(env: Env, w: World, from: Side, op: nat, out: nat, p: Packet, draw: LinkDraw)
    requires Balanced(w)
    ensures Balanced(SendCopies(env, w, from, op, out, p, draw))
  {
    var first := Copy(env, w, from, op, out, p, draw.first);
    EnqueueKeepsBalanced(w, first);
    var once := Enqueue(w, first);
    EnqueueKeepsBalanced(once, Copy(env, once, from, op, out, p, draw.second));
  }

  /** Transmitting counts one packet, and keeps the books. */
  lemma TransmitKeepsBalanced(env: Env, w: World, from: Side, op: nat, out: nat, p: Packet)
    requires Balanced(w) && w.dropped <= w.packets
    ensures var r := Transmit(env, w, from, op, out, p);
            Balanced(r) && r.packets == w.packets + 1 && r.dropped <= r.packets
  {
    CopiesKeepBalanced(env, OneMore(w), from, op, out, p, env.draw(w.packets));
  }

  lemma {:induction false} TransmitFromKeepsBalanced(env: Env, w: World, from: Side, op: nat, outs: seq<Packet>, i: nat)
    requires Balanced(w) && i <= |outs| && w.dropped <= w.packets
    ensures var r := TransmitFrom(env, w, from, op, outs, i);
            Balanced(r) && r.packets == w.packets + |outs| - i && r.dropped <= r.packets
    decreases |outs| - i
  {
    if i < |outs| {
      TransmitKeepsBalanced(env, w, from, op, i, outs[i]);
      TransmitFromKeepsBalanced(env, Transmit(env, w, from, op, i, outs[i]), from, op, outs, i + 1);
    }
  }

  lemma OutputsSnoc(ops: seq<Op>, op: Op)
    ensures Outputs(ops + [op]) == Outputs(ops) + |op.outs|
  {
    assert (ops + [op])[..|ops|] == ops;
  }

  lemma CallKeepsBooks(env: Env, w: World, s: Side, head: Head, ret: int)
    requires Kept(w)
    ensures Kept(CallAs(env, w, s, head, ret))
  {
    TransmitFromKeepsBalanced(env, Ticked(env, w), s, |w.Of(s).ops|, env.reply(w.calls).outs, 0);
    OutputsSnoc(w.Of(s).ops, NewOp(env, w, head, ret));
  }

  // ---------- Every run ----------

  lemma CraftedKeepsBooks(env: Env, w: World, k: nat, s: Side)
    requires Kept(w) && k < |env.cfg.garbage|
    ensures Kept(PushCrafted(env, w, k, s))
  {
    EnqueueKeepsBalanced(w, CraftedPacket(env.cfg, w.nextNum + 1, k, s));
  }

  lemma InputKeepsBooks(env: Env, w: World)
    requires Kept(w) && w.queue != []
    ensures Kept(InputDone(env, w))
  {
    TakeKeepsBalanced(w);
    CallKeepsBooks(env, Taken(w), w.queue[0].to, InputHead(env, w.queue[0]), Ret(env, Taken(w)));
  }

  lemma BooksAreClosed(env: Env)
    ensures Closed(env, (w: World) => Kept(w))
  {
    forall w: World, s: Side, head: Head, ret: int | Kept(w) ensures Kept(CallAs(env, w, s, head, ret)) {
      CallKeepsBooks(env, w, s, head, ret);
    }
    ClosedByTrace(env, (w: World) => Kept(w));
  }

  lemma EveryRunIsKept(env: Env, turns: nat)
    ensures Kept(After(env, turns).w)
  {
    var inv := (w: World) => Kept(w);
    BooksAreClosed(env);
    forall w: World, k: nat | k < |env.cfg.garbage| && inv(w) ensures inv(PushBoth(env, w, k)) {
      CraftedKeepsBooks(env, w, k, A);
      CraftedKeepsBooks(env, PushCrafted(env, w, k, A), k, B);
    }
    forall w: World | inv(w) && DeliveryDue(w) ensures inv(InputDone(env, w)) { InputKeepsBooks(env, w); }
    AlwaysHolds(env, inv, turns);
  }

  /** In every run, what is queued and what was taken out are together exactly what was ever queued:
    * no delivery is lost in the queue, made twice, or made up. */
  lemma EveryDeliveryAccounted(env: Env, turns: nat)
    ensures var w := After(env, turns).w;
            multiset(w.queue) + multiset(Came(w.arrivals)) == multiset(w.enqueued)
  {
    EveryRunIsKept(env, turns);
  }

  /** Two deliveries bear the same number exactly when the earlier one is crafted and the later one is
    * the copy queued right after it. */
  lemma SharedNumbers(env: Env, turns: nat, i: nat, j: nat)
    ensures var q := After(env, turns).w.enqueued;
            i < j < |q| ==> (q[i].num == q[j].num <==> j == i + 1 && q[i].origin.Crafted? && q[j].origin.Sent?)
  {
    EveryRunIsKept(env, turns);
  }

  /** The packet counter is the number of packets on both traces, and no more were dropped. */
  lemma EveryOutputCounted(env: Env, turns: nat)
    ensures var w := After(env, turns).w; w.packets == Outputs(w.a.ops) + Outputs(w.b.ops) && w.dropped <= w.packets
  {
    EveryRunIsKept(env, turns);
  }

  // ---------- Every arrival is an input line ----------

  /** What an input line says: where the packet comes from, its bytes, its marks, and the clock. */
  datatype Said = Said(origin: Origin, data: Packet, fec: bool, ackNoDelay: bool, t: nat)

  /** The input lines of one trace. */
  function InputsOn(ops: seq<Op>): seq<Said> {
    if ops == [] then []
    else
      var last := ops[|ops| - 1];
      InputsOn(ops[..|ops| - 1])
      + if last.head.Input? then [Said(last.head.origin, last.head.data, last.head.fec, last.head.ackNoDelay, last.t)] else []
  }

  /** What they should say of these arrivals at one endpoint: the clock shows the low 32 bits of the start
    * value and the virtual time. */
  function ArrivedAt(cfg: Config, arrivals: seq<Arrival>, s: Side): seq<Said> {
    if arrivals == [] then []
    else
      var last := arrivals[|arrivals| - 1];
      ArrivedAt(cfg, arrivals[..|arrivals| - 1], s)
      + if last.d.to != s then []
        else [Said(last.d.origin, last.d.data, last.d.fec, (if s == A then cfg.a else cfg.b).ackNoDelay,
                   (cfg.t0 + last.when) % 4_294_967_296)]
  }

  ghost predicate Told(cfg: Config, w: World) {
    InputsOn(w.a.ops) == ArrivedAt(cfg, w.arrivals, A) && InputsOn(w.b.ops) == ArrivedAt(cfg, w.arrivals, B)
  }

  lemma InputsSnoc(ops: seq<Op>, op: Op)
    ensures InputsOn(ops + [op]) == InputsOn(ops)
              + if op.head.Input? then [Said(op.head.origin, op.head.data, op.head.fec, op.head.ackNoDelay, op.t)] else []
  {
    assert (ops + [op])[..|ops|] == ops;
  }

  lemma ArrivedSnoc(cfg: Config, arrivals: seq<Arrival>, last: Arrival, s: Side)
    ensures ArrivedAt(cfg, arrivals + [last], s) == ArrivedAt(cfg, arrivals, s)
              + if last.d.to != s then []
                else [Said(last.d.origin, last.d.data, last.d.fec, cfg.SideOf(s).ackNoDelay, Clock(cfg, last.when))]
  {
    assert (arrivals + [last])[..|arrivals|] == arrivals;
  }

  lemma CallKeepsTold(env: Env, w: World, s: Side, head: Head, ret: int)
    requires Told(env.cfg, w) && !head.Input?
    ensures Told(env.cfg, CallAs(env, w, s, head, ret))
  {
    InputsSnoc(w.Of(s).ops, NewOp(env, w, head, ret));
  }

  lemma InputKeepsTold(env: Env, w: World)
    requires Told(env.cfg, w) && w.queue != []
    ensures Told(env.cfg, InputDone(env, w))
  {
    var d, taken := w.queue[0], Taken(w);
    ArrivedSnoc(env.cfg, w.arrivals, Arrival(d, w.now), A);
    ArrivedSnoc(env.cfg, w.arrivals, Arrival(d, w.now), B);
    InputsSnoc(taken.Of(d.to).ops, NewOp(env, taken, InputHead(env, d), Ret(env, taken)));
  }

  lemma ToldIsClosed(env: Env)
    ensures Closed(env, (w: World) => Told(env.cfg, w))
  {
    var inv := (w: World) => Told(env.cfg, w);
    forall w: World, s: Side, head: Head, ret: int | inv(w) && !head.Input? ensures inv(CallAs(env, w, s, head, ret)) {
      CallKeepsTold(env, w, s, head, ret);
    }
    ClosedByTrace(env, inv);
  }

  /** In every run the input lines of an endpoint's trace are its arrivals, one line for each, in order, with
    * the bytes, the marks and the clock at which the packet was taken out of the queue. */
  lemma EveryArrivalIsInput(env: Env, turns: nat, s: Side)
    ensures var w := After(env, turns).w; InputsOn(w.Of(s).ops) == ArrivedAt(env.cfg, w.arrivals, s)
  {
    var inv := (w: World) => Told(env.cfg, w);
    ToldIsClosed(env);
    forall w: World | inv(w) && DeliveryDue(w) ensures inv(InputDone(env, w)) { InputKeepsTold(env, w); }
    AlwaysHolds(env, inv, turns);
    assert Told(env.cfg, After(env, turns).w);
  }
}
