/**
 * What every run of the trace simulator keeps, whatever the engine and the link do: the queue is a
 * heap, every packet in it comes from an output already on the sender's trace, every input line
 * names such an output and carries its bytes, and the crafted packets are counted exactly.
 */
module KcpCausality {
  import opened Helpers
  import opened DeliveryHeap
  import opened KcpTrace
  import opened KcpRuns

  datatype Traces = Traces(a: seq<Op>, b: seq<Op>) {
    function Of(s: Side): seq<Op> { if s == A then a else b }
    function Lines(): nat { |a| + |b| }
  }

  function TracesOf(w: World): Traces { Traces(w.a.ops, w.b.ops) }

  /** Every line of one pair of traces is a line of the other, in the same place. */
  ghost predicate Extends(t: Traces, u: Traces) {
    && |t.a| <= |u.a| && (forall k :: 0 <= k < |t.a| ==> u.a[k] == t.a[k])
    && |t.b| <= |u.b| && (forall k :: 0 <= k < |t.b| ==> u.b[k] == t.b[k])
  }

  /** The data is the packet itself, or exactly its first `cut` bytes and at least one byte short. */
  predicate IsPiece(data: Packet, packet: Packet, cut: Option<nat>) {
    match cut
    case None => data == packet
    case Some(n) => 1 <= n < |packet| && data == packet[..n]
  }

  /** The packet names an output of its sender that is on the trace, before line number `limit` of
    * both traces together, and its bytes are that output's. */
  predicate Comes(origin: Origin, data: Packet, to: Side, t: Traces, limit: nat) {
    origin.Sent? ==>
      var ops := t.Of(to.Peer());
      && origin.op < |ops| && origin.out < |ops[origin.op].outs| && ops[origin.op].serial < limit
      && IsPiece(data, ops[origin.op].outs[origin.out], origin.cut)
  }

  predicate DeliveryComes(d: Delivery, t: Traces) { Comes(d.origin, d.data, d.to, t, t.Lines()) }

  predicate LineComes(op: Op, s: Side, t: Traces) {
    op.head.Input? ==> Comes(op.head.origin, op.head.data, s, t, op.serial)
  }

  /** Line numbers grow along a trace, and no number is used twice or skipped ahead of. */
  ghost predicate Numbered(ops: seq<Op>, lines: nat) {
    && (forall k :: 0 <= k < |ops| ==> k <= ops[k].serial < lines)
    && (forall j, k :: 0 <= j < k < |ops| ==> ops[j].serial < ops[k].serial)
  }

  ghost predicate Apart(a: seq<Op>, b: seq<Op>) {
    forall j, k :: 0 <= j < |a| && 0 <= k < |b| ==> a[j].serial != b[k].serial
  }

  ghost predicate LinesCome(ops: seq<Op>, s: Side, t: Traces) {
    forall k :: 0 <= k < |ops| ==> LineComes(ops[k], s, t)
  }

  /** Both traces, merged by line number, are one acyclic order in which every input follows the
    * output it names. */
  ghost predicate Causal(t: Traces) {
    && Numbered(t.a, t.Lines()) && Numbered(t.b, t.Lines()) && Apart(t.a, t.b)
    && LinesCome(t.a, A, t) && LinesCome(t.b, B, t)
  }

  ghost predicate QueueComes(q: seq<Delivery>, t: Traces) { forall d :: d in q ==> DeliveryComes(d, t) }

  ghost predicate NumbersUpTo(q: seq<Delivery>, n: nat) { forall d :: d in q ==> d.num <= n }

  function CraftedIn(q: seq<Delivery>): (n: nat) {
    if q == [] then 0 else CraftedIn(q[..|q| - 1]) + if q[|q| - 1].origin.Crafted? then 1 else 0
  }

  /** The queue is a heap of packets that come from these traces, numbered up to n, `crafted` of them crafted. */
  ghost predicate QueueOk(q: seq<Delivery>, n: nat, crafted: int, t: Traces) {
    IsHeap(q) && NumbersUpTo(q, n) && QueueComes(q, t) && crafted == CraftedIn(q)
  }

  /** What calls since `base` may have added to the queue: later packets with later numbers. */
  ghost predicate AddedSince(base: World, w: World) {
    && base.now <= w.now && base.nextNum <= w.nextNum && w.arrivals == base.arrivals
    && forall d :: d in w.queue ==> d in base.queue || (d.at >= base.now && d.num >= base.nextNum)
  }

  /** What holds between any two calls, and of the calls made since an earlier world. */
  ghost predicate Sound(env: Env, base: World, w: World) {
    && Causal(TracesOf(w)) && QueueOk(w.queue, w.nextNum, w.pendingRaw, TracesOf(w))
    && AddedSince(base, w) && (env.cfg.step == 0 ==> w.now == base.now)
  }

  // ---------- Counting crafted packets in a reordered queue ----------

  lemma {:induction false} CraftedConcat(p: seq<Delivery>, q: seq<Delivery>)
    ensures CraftedIn(p + q) == CraftedIn(p) + CraftedIn(q)
    decreases |q|
  {
    if q == [] {
      assert p + q == p;
    } else {
      CraftedConcat(p, q[..|q| - 1]);
      assert (p + q)[..|p + q| - 1] == p + q[..|q| - 1];
    }
  }

  lemma {:induction false} CraftedIgnoresOrder(p: seq<Delivery>, q: seq<Delivery>)
    requires multiset(p) == multiset(q)
    ensures CraftedIn(p) == CraftedIn(q)
    decreases |p|
  {
    if p == [] {
      assert |multiset(q)| == 0;
    } else {
      var front, last := p[..|p| - 1], p[|p| - 1];
      DropLast(p);
      assert last in multiset(q);
      var i :| 0 <= i < |q| && q[i] == last;
      var rest := q[..i] + q[i + 1..];
      assert q == q[..i] + [last] + q[i + 1..];
      assert multiset(q) == multiset(q[..i]) + multiset{last} + multiset(q[i + 1..]);
      assert multiset(rest) == multiset(q[..i]) + multiset(q[i + 1..]);
      assert multiset(rest) == multiset(q) - multiset{last};
      assert multiset(front) == multiset(p) - multiset{last};
      CraftedIgnoresOrder(front, rest);
      CraftedConcat(q[..i], q[i + 1..]);
      CraftedConcat(q[..i] + [last], q[i + 1..]);
      CraftedConcat(q[..i], [last]);
      CraftedConcat([], [last]);
    }
  }

  lemma CraftedPushed(q: seq<Delivery>, d: Delivery)
    ensures CraftedIn(Pushed(q, d)) == CraftedIn(q) + if d.origin.Crafted? then 1 else 0
  {
    assert multiset(q + [d]) == multiset(Pushed(q, d));
    CraftedIgnoresOrder(q + [d], Pushed(q, d));
    assert (q + [d])[..|q|] == q;
  }

  lemma CraftedPopped(q: seq<Delivery>)
    requires IsHeap(q) && q != []
    ensures CraftedIn(q) == CraftedIn(Popped(q)) + if q[0].origin.Crafted? then 1 else 0
  {
    PopKeepsHeap(q);
    assert multiset(Popped(q) + [q[0]]) == multiset(q);
    CraftedIgnoresOrder(Popped(q) + [q[0]], q);
    assert (Popped(q) + [q[0]])[..|q| - 1] == Popped(q);
  }

  // ---------- One call ----------

  lemma LinesGrow(ops: seq<Op>, s: Side, t: Traces, u: Traces)
    requires LinesCome(ops, s, t) && Extends(t, u)
    ensures LinesCome(ops, s, u)
  {
  }

  lemma QueueGrows(q: seq<Delivery>, t: Traces, u: Traces)
    requires QueueComes(q, t) && Extends(t, u)
    ensures QueueComes(q, u)
  {
  }

  lemma PushKeepsQueue(q: seq<Delivery>, n: nat, crafted: int, t: Traces, d: Delivery, m: nat)
    requires QueueOk(q, n, crafted, t) && DeliveryComes(d, t) && d.num <= m && n <= m
    ensures QueueOk(Pushed(q, d), m, crafted + if d.origin.Crafted? then 1 else 0, t)
  {
    PushKeepsHeap(q, d);
    CraftedPushed(q, d);
  }

  ghost predicate WorldQueueOk(base: World, w: World, t: Traces) {
    QueueOk(w.queue, w.nextNum, w.pendingRaw, t) && AddedSince(base, w)
  }

  /** p is output number `out` of line `op` of one trace. */
  predicate IsOutput(t: Traces, from: Side, op: nat, out: nat, p: Packet) {
    && op < |t.Of(from)| && t.Of(from)[op].serial < t.Lines()
    && out < |t.Of(from)[op].outs| && p == t.Of(from)[op].outs[out]
  }

  lemma CopyComes(env: Env, w: World, from: Side, op: nat, out: nat, p: Packet, c: CopyDraw, t: Traces)
    requires IsOutput(t, from, op, out, p)
    ensures DeliveryComes(Copy(env, w, from, op, out, p, c), t)
  {
  }

  lemma EnqueueAdds(base: World, w: World, d: Delivery)
    requires IsHeap(w.queue) && AddedSince(base, w) && d.at >= base.now && d.num >= base.nextNum
    ensures AddedSince(base, Enqueue(w, d))
  {
    PushKeepsHeap(w.queue, d);
  }

  lemma CopyKeepsQueue(env: Env, base: World, w: World, from: Side, op: nat, out: nat, p: Packet, c: CopyDraw, t: Traces)
    requires WorldQueueOk(base, w, t) && IsOutput(t, from, op, out, p)
    ensures WorldQueueOk(base, Enqueue(w, Copy(env, w, from, op, out, p, c)), t)
  {
    var d := Copy(env, w, from, op, out, p, c);
    CopyComes(env, w, from, op, out, p, c, t);
    PushKeepsQueue(w.queue, w.nextNum, w.pendingRaw, t, d, w.nextNum + 1);
    EnqueueAdds(base, w, d);
  }

  lemma CopiesKeepQueue(env: Env, base: World, w: World, from: Side, op: nat, out: nat, p: Packet, draw: LinkDraw, t: Traces)
    requires WorldQueueOk(base, w, t) && IsOutput(t, from, op, out, p)
    ensures WorldQueueOk(base, SendCopies(env, w, from, op, out, p, draw), t)
  {
    CopyKeepsQueue(env, base, w, from, op, out, p, draw.first, t);
    var once := Enqueue(w, Copy(env, w, from, op, out, p, draw.first));
    CopyKeepsQueue(env, base, once, from, op, out, p, draw.second, t);
  }

  lemma TransmitCases(env: Env, w: World, from: Side, op: nat, out: nat, p: Packet)
    ensures var r := Transmit(env, w, from, op, out, p);
            || r == SendCopies(env, OneMore(w), from, op, out, p, env.draw(w.packets))
            || r == OneMore(w).(dropped := w.dropped + 1)
  {
  }

  lemma SameQueue(base: World, w: World, r: World, t: Traces)
    requires WorldQueueOk(base, w, t) && r.queue == w.queue && r.nextNum == w.nextNum && r.pendingRaw == w.pendingRaw
    requires r.now == w.now && r.arrivals == w.arrivals
    ensures WorldQueueOk(base, r, t)
  {
  }

  /** Whatever the link does with it, an output that is on the trace only puts pieces of itself in the queue. */
  lemma TransmitKeepsQueue(env: Env, base: World, w: World, from: Side, op: nat, out: nat, p: Packet, t: Traces)
    requires WorldQueueOk(base, w, t) && IsOutput(t, from, op, out, p)
    ensures WorldQueueOk(base, Transmit(env, w, from, op, out, p), t)
  {
    SameQueue(base, w, OneMore(w), t);
    SameQueue(base, w, OneMore(w).(dropped := w.dropped + 1), t);
    CopiesKeepQueue(env, base, OneMore(w), from, op, out, p, env.draw(w.packets), t);
    TransmitCases(env, w, from, op, out, p);
  }

  lemma {:induction false} TransmitFromKeepsQueue(env: Env, base: World, w: World, from: Side, op: nat,
                                                  outs: seq<Packet>, i: nat, t: Traces)
    requires WorldQueueOk(base, w, t)
    requires op < |t.Of(from)| && t.Of(from)[op].serial < t.Lines() && outs == t.Of(from)[op].outs
    ensures WorldQueueOk(base, TransmitFrom(env, w, from, op, outs, i), t)
    decreases |outs| - i
  {
    if i < |outs| {
      TransmitKeepsQueue(env, base, w, from, op, i, outs[i], t);
      TransmitFromKeepsQueue(env, base, Transmit(env, w, from, op, i, outs[i]), from, op, outs, i + 1, t);
    }
  }

  function Recorded(t: Traces, s: Side, op: Op): Traces {
    if s == A then t.(a := t.a + [op]) else t.(b := t.b + [op])
  }

  lemma NumberedGrows(ops: seq<Op>, lines: nat, op: Op)
    requires Numbered(ops, lines) && op.serial == lines && |ops| <= lines
    ensures Numbered(ops + [op], lines + 1) && Numbered(ops, lines + 1)
  {
  }

  lemma ApartGrows(a: seq<Op>, b: seq<Op>, lines: nat, op: Op)
    requires Apart(a, b) && Numbered(a, lines) && Numbered(b, lines) && op.serial == lines
    ensures Apart(a + [op], b) && Apart(a, b + [op])
  {
  }

  lemma RecordKeepsNumbers(t: Traces, s: Side, op: Op)
    requires Causal(t) && op.serial == t.Lines()
    ensures var u := Recorded(t, s, op); Numbered(u.a, u.Lines()) && Numbered(u.b, u.Lines()) && Apart(u.a, u.b)
  {
    NumberedGrows(t.a, t.Lines(), op);
    NumberedGrows(t.b, t.Lines(), op);
    ApartGrows(t.a, t.b, t.Lines(), op);
  }

  lemma RecordedLinesCome(t: Traces, s: Side, op: Op)
    requires Extends(t, Recorded(t, s, op)) && op.serial == t.Lines()
    requires LinesCome(t.Of(s), s, t) && LineComes(op, s, t)
    ensures LinesCome(Recorded(t, s, op).Of(s), s, Recorded(t, s, op))
  {
    var u := Recorded(t, s, op);
    LinesGrow(t.Of(s), s, t, u);
    assert LineComes(op, s, u);
    assert u.Of(s) == t.Of(s) + [op];
  }

  lemma RecordKeepsOrder(t: Traces, s: Side, op: Op)
    requires Causal(t) && op.serial == t.Lines() && LineComes(op, s, t)
    ensures Causal(Recorded(t, s, op)) && Extends(t, Recorded(t, s, op))
  {
    var u := Recorded(t, s, op);
    RecordKeepsNumbers(t, s, op);
    RecordedLinesCome(t, s, op);
    LinesGrow(t.Of(s.Peer()), s.Peer(), t, u);
  }

  lemma CallRecords(env: Env, w: World, s: Side, head: Head, ret: int)
    ensures TracesOf(CallAs(env, w, s, head, ret)) == Recorded(TracesOf(w), s, NewOp(env, w, head, ret))
  {
  }

  lemma CallTransmits(env: Env, base: World, w: World, s: Side, head: Head, ret: int, t: Traces)
    ensures WorldQueueOk(base, CallAs(env, w, s, head, ret), t) ==
            WorldQueueOk(base, TransmitFrom(env, Ticked(env, w), s, |w.Of(s).ops|, env.reply(w.calls).outs, 0), t)
  {
  }

  /** A call keeps everything; an input call may only carry what comes from the other trace. */
  lemma CallKeepsSound(env: Env, base: World, w: World, s: Side, head: Head, ret: int)
    requires Sound(env, base, w)
    requires head.Input? ==> Comes(head.origin, head.data, s, TracesOf(w), w.Lines())
    ensures Sound(env, base, CallAs(env, w, s, head, ret))
  {
    var t, op := TracesOf(w), NewOp(env, w, head, ret);
    var u := Recorded(t, s, op);
    RecordKeepsOrder(t, s, op);
    QueueGrows(w.queue, t, u);
    assert WorldQueueOk(base, Ticked(env, w), u);
    TransmitFromKeepsQueue(env, base, Ticked(env, w), s, |w.Of(s).ops|, env.reply(w.calls).outs, 0, u);
    CallTransmits(env, base, w, s, head, ret, u);
    CallRecords(env, w, s, head, ret);
  }

  // ---------- Everything else is made of calls ----------

  ghost function SoundSince(env: Env, base: World): World -> bool { w => Sound(env, base, w) }

  lemma SameIsSound(env: Env, base: World, w: World, r: World)
    requires Sound(env, base, w) && SameTrace(w, r)
    ensures Sound(env, base, r)
  {
    assert TracesOf(r) == TracesOf(w);
  }

  /** Calls keep it, so the readers, writers, timers and setters do. */
  lemma SoundIsClosed(env: Env, base: World)
    ensures Closed(env, SoundSince(env, base))
  {
    var inv := SoundSince(env, base);
    forall w: World, s: Side, head: Head, ret: int | inv(w) && !head.Input?
      ensures inv(CallAs(env, w, s, head, ret))
    {
      CallKeepsSound(env, base, w, s, head, ret);
    }
    forall w: World, r: World | inv(w) && SameTrace(w, r) ensures inv(r) { SameIsSound(env, base, w, r); }
    ClosedByTrace(env, inv);
  }

  /** The world in which the code of the next event starts. */
  function EventStart(w: World): World { if DeliveryDue(w) then Taken(w) else w }

  lemma Rebase(env: Env, base: World, w: World)
    requires Sound(env, base, w)
    ensures Sound(env, w, w)
  {
  }

  /** Taking the root out leaves a sound world in which the packet still comes from the other trace. */
  lemma TakeKeepsSound(env: Env, base: World, w: World)
    requires Sound(env, base, w) && w.queue != []
    ensures Sound(env, Taken(w), Taken(w)) && DeliveryComes(w.queue[0], TracesOf(w))
    ensures TracesOf(Taken(w)) == TracesOf(w)
  {
    PopKeepsHeap(w.queue);
    CraftedPopped(w.queue);
    assert w.queue[0] in w.queue;
  }

  lemma InputKeepsSound(env: Env, base: World, w: World, d: Delivery)
    requires Sound(env, base, w) && DeliveryComes(d, TracesOf(w))
    ensures Sound(env, base, Call(env, w, d.to, InputHead(env, d)))
  {
    CallKeepsSound(env, base, w, d.to, InputHead(env, d), Ret(env, w));
  }

  lemma DeliveryKeepsSound(env: Env, w: World)
    requires Sound(env, w, w) && w.queue != []
    ensures Sound(env, Taken(w), Deliver(env, TakeNext(w), w.queue[0]))
  {
    TakeKeepsSound(env, w, w);
    InputKeepsSound(env, Taken(w), Taken(w), w.queue[0]);
    SoundIsClosed(env, Taken(w));
    DeliveryKeeps(env, SoundSince(env, Taken(w)), w);
  }

  lemma EventKeepsSound(env: Env, w: World)
    requires Sound(env, w, w)
    ensures Sound(env, EventStart(w), Event(env, w))
  {
    if DeliveryDue(w) {
      DeliveryKeepsSound(env, w);
    } else {
      SoundIsClosed(env, w);
      EventKeeps(env, SoundSince(env, w), w);
    }
  }

  /** Sound with nothing added since. */
  ghost predicate SoundNow(env: Env, w: World) { Sound(env, w, w) }

  lemma AdvanceKeepsSound(env: Env, w: World)
    requires SoundNow(env, w)
    ensures SoundNow(env, Advance(env, w))
  {
  }

  lemma EventKeepsSoundNow(env: Env, w: World)
    requires SoundNow(env, w)
    ensures SoundNow(env, Event(env, w))
  {
    EventKeepsSound(env, w);
    Rebase(env, EventStart(w), Event(env, w));
  }

  lemma TurnKeepsSound(env: Env, w: World)
    requires SoundNow(env, w)
    ensures SoundNow(env, Turn(env, w).w)
  {
    AdvanceKeepsSound(env, w);
    EventKeepsSoundNow(env, Advance(env, w));
  }

  // ---------- The start ----------

  lemma CraftedJoinsQueue(base: World, w: World, d: Delivery)
    requires QueueOk(w.queue, w.nextNum, w.pendingRaw, TracesOf(w)) && AddedSince(base, w)
    requires d.origin.Crafted? && d.at >= base.now && d.num == w.nextNum + 1
    ensures QueueOk(Pushed(w.queue, d), w.nextNum + 1, w.pendingRaw + 1, TracesOf(w))
    ensures AddedSince(base, Enqueue(w, d))
  {
    PushKeepsQueue(w.queue, w.nextNum, w.pendingRaw, TracesOf(w), d, w.nextNum + 1);
    EnqueueAdds(base, w, d);
  }

  lemma SoundWith(env: Env, base: World, w: World, d: Delivery, r: World)
    requires Sound(env, base, w) && d.origin.Crafted? && d.at >= base.now && d.num == w.nextNum + 1
    requires r == Enqueue(w, d).(pendingRaw := w.pendingRaw + 1)
    ensures Sound(env, base, r)
  {
    CraftedJoinsQueue(base, w, d);
    assert TracesOf(r) == TracesOf(w);
  }

  lemma CraftedFits(env: Env, base: World, w: World, k: nat, s: Side)
    requires base.now <= 5 && k < |env.cfg.garbage|
    ensures var d := CraftedPacket(env.cfg, w.nextNum + 1, k, s);
            && d.origin.Crafted? && d.at >= base.now && d.num == w.nextNum + 1
            && PushCrafted(env, w, k, s) == Enqueue(w, d).(pendingRaw := w.pendingRaw + 1)
  {
  }

  lemma CraftedKeepsSound(env: Env, base: World, w: World, k: nat, s: Side)
    requires Sound(env, base, w) && base.now <= 5 && k < |env.cfg.garbage|
    ensures Sound(env, base, PushCrafted(env, w, k, s))
  {
    CraftedFits(env, base, w, k, s);
    SoundWith(env, base, w, CraftedPacket(env.cfg, w.nextNum + 1, k, s), PushCrafted(env, w, k, s));
  }

  lemma StartIsSound(env: Env)
    ensures Sound(env, NewWorld(env), Start(env)) && SoundNow(env, Start(env))
  {
    var base := NewWorld(env);
    var inv := SoundSince(env, base);
    SoundIsClosed(env, base);
    forall w: World, k: nat | k < |env.cfg.garbage| && inv(w) ensures inv(PushBoth(env, w, k)) {
      CraftedKeepsSound(env, base, w, k, A);
      CraftedKeepsSound(env, base, PushCrafted(env, w, k, A), k, B);
    }
    StartKeeps(env, inv);
    Rebase(env, base, Start(env));
  }

  lemma EveryRunIsSound(env: Env, turns: nat)
    ensures SoundNow(env, After(env, turns).w)
  {
    StartIsSound(env);
    var inv := (o: Outcome) => SoundNow(env, o.w);
    forall p: Outcome | inv(p) && p.Running? ensures inv(Turns(env)(p.w)) { TurnKeepsSound(env, p.w); }
    RunKeeps(Turns(env), inv, Running(Start(env)), turns);
  }

  // ---------- What a trace promises ----------

  /** In every run, after every turn: the k-th line of one trace, if it inputs a packet of the
    * other endpoint, names a line of the other trace that was recorded earlier and an output on it,
    * and carries exactly that output or its first `cut` bytes. */
  lemma EveryInputComes(env: Env, turns: nat, s: Side, k: nat)
    ensures var t := TracesOf(After(env, turns).w);
            k < |t.Of(s)| && t.Of(s)[k].head.Input? && t.Of(s)[k].head.origin.Sent? ==>
              var line, origin := t.Of(s)[k], t.Of(s)[k].head.origin;
              && origin.op < |t.Of(s.Peer())| && origin.out < |t.Of(s.Peer())[origin.op].outs|
              && t.Of(s.Peer())[origin.op].serial < line.serial
              && IsPiece(line.head.data, t.Of(s.Peer())[origin.op].outs[origin.out], origin.cut)
  {
    EveryRunIsSound(env, turns);
    var t := TracesOf(After(env, turns).w);
    assert k < |t.Of(s)| ==> LineComes(t.Of(s)[k], s, t);
  }

  /** The line numbers put both traces in one order without ties that agrees with each of them. */
  lemma OneOrder(env: Env, turns: nat)
    ensures var t := TracesOf(After(env, turns).w);
            && Apart(t.a, t.b) && Numbered(t.a, t.Lines()) && Numbered(t.b, t.Lines())
  {
    EveryRunIsSound(env, turns);
  }

  /** A run that waits for its bytes never ends while a crafted packet is still queued. */
  lemma EndsAfterCrafted(env: Env, turns: nat)
    requires !env.cfg.toDead
    ensures var o := After(env, turns); o.Finished? ==> forall d :: d in o.w.queue ==> d.origin.Sent?
  {
    EveryRunIsSound(env, turns);
    EveryRunSettles(env, turns);
    NoneCrafted(After(env, turns).w.queue);
  }

  predicate Settled(env: Env, o: Outcome) { o.Finished? ==> Done(env, o.w) }

  lemma TurnSettles(env: Env, w: World)
    ensures Settled(env, Turn(env, w))
  {
  }

  lemma EveryRunSettles(env: Env, turns: nat)
    ensures Settled(env, After(env, turns))
  {
    var inv := (o: Outcome) => Settled(env, o);
    forall p: Outcome | inv(p) && p.Running? ensures inv(Turns(env)(p.w)) { TurnSettles(env, p.w); }
    RunKeeps(Turns(env), inv, Running(Start(env)), turns);
  }

  lemma {:induction false} NoneCrafted(q: seq<Delivery>)
    ensures CraftedIn(q) == 0 <==> forall d :: d in q ==> d.origin.Sent?
  {
    if q != [] {
      NoneCrafted(q[..|q| - 1]);
      assert q == q[..|q| - 1] + [q[|q| - 1]];
    }
  }
}
