/**
 * The link of the trace simulator: what the draws of its random generator do to one packet, and what
 * that means for every run: how early and how late a packet can come, what a blackout stops, how many
 * copies there can be, and that the crafted packets are exactly those of the configuration.
 */
module KcpLink {
  import opened Helpers
  import opened DeliveryHeap
  import opened KcpTrace
  import opened KcpRuns

  // ---------- One packet ----------

  function LinkTo(cfg: Config, s: Side): Link { if s == A then cfg.ba else cfg.ab }

  /** The delivery is this copy of packet p, as its draws say: when it is due, how much of it, and its mark. */
  predicate IsCopy(d: Delivery, l: Link, now: nat, num: nat, to: Side, op: nat, out: nat, p: Packet, c: CopyDraw) {
    var n := if 1 <= c.keep < |p| then c.keep else 1;
    && d.at == now + l.delay + Min(c.jitter, l.jitter) + (if c.late then l.reorder else 0)
    && d.num == num && d.to == to && d.fec == c.fec
    && d.origin == Origin.Sent(op, out, if c.shorten && |p| > 1 then Some(n) else None)
    && d.data == if c.shorten && |p| > 1 then p[..n] else p
  }

  lemma CopyAsDrawn(env: Env, w: World, from: Side, op: nat, out: nat, p: Packet, c: CopyDraw)
    ensures IsCopy(Copy(env, w, from, op, out, p, c), LinkTo(env.cfg, from.Peer()), w.now, w.nextNum, from.Peer(), op, out, p, c)
  {
  }

  lemma CopiesAsDrawn(env: Env, w: World, from: Side, op: nat, out: nat, p: Packet, draw: LinkDraw)
    ensures var r, to := SendCopies(env, w, from, op, out, p, draw), from.Peer();
            var l, more := LinkTo(env.cfg, to), if draw.twice then 2 else 1;
            && r.packets == w.packets && r.dropped == w.dropped && r.nextNum == w.nextNum + more
            && |r.enqueued| == |w.enqueued| + more && r.enqueued[..|w.enqueued|] == w.enqueued
            && IsCopy(r.enqueued[|w.enqueued|], l, w.now, w.nextNum, to, op, out, p, draw.first)
            && (more == 2 ==> IsCopy(r.enqueued[|w.enqueued| + 1], l, w.now, w.nextNum + 1, to, op, out, p, draw.second))
  {
    CopyAsDrawn(env, w, from, op, out, p, draw.first);
    CopyAsDrawn(env, Enqueue(w, Copy(env, w, from, op, out, p, draw.first)), from, op, out, p, draw.second);
  }

  /** Exactly what becomes of a packet that an endpoint outputs: nothing if the link is blacked out by now or
    * loses it, and otherwise one copy or two, each with draws of its own. */
  lemma LinkExactly(env: Env, w: World, from: Side, op: nat, out: nat, p: Packet)
    ensures var r, to := Transmit(env, w, from, op, out, p), from.Peer();
            var l, draw := LinkTo(env.cfg, to), env.draw(w.packets);
            var gone := (l.blackout > 0 && w.now >= l.blackout) || draw.lost;
            var more := if gone then 0 else if draw.twice then 2 else 1;
            && r.packets == w.packets + 1 && r.dropped == w.dropped + (if gone then 1 else 0)
            && |r.enqueued| == |w.enqueued| + more && r.enqueued[..|w.enqueued|] == w.enqueued
            && r.nextNum == w.nextNum + more
            && (more >= 1 ==> IsCopy(r.enqueued[|w.enqueued|], l, w.now, w.nextNum, to, op, out, p, draw.first))
            && (more == 2 ==> IsCopy(r.enqueued[|w.enqueued| + 1], l, w.now, w.nextNum + 1, to, op, out, p, draw.second))
  {
    CopiesAsDrawn(env, OneMore(w), from, op, out, p, env.draw(w.packets));
  }

  // ---------- Every run ----------

  /** A packet sent over a link is due no earlier than its delay after the start, and if the link is blacked
    * out at some time, no later than its slowest packet sent before. */
  predicate OnTheLink(cfg: Config, d: Delivery) {
    d.origin.Sent? ==>
      var l := LinkTo(cfg, d.to);
      d.at >= l.delay && (l.blackout > 0 ==> d.at < l.blackout + l.delay + l.jitter + l.reorder)
  }

  function SentIn(q: seq<Delivery>): nat {
    if q == [] then 0 else SentIn(q[..|q| - 1]) + if q[|q| - 1].origin.Sent? then 1 else 0
  }

  /** All that was ever queued kept to its link, one or two copies of every packet not dropped. */
  ghost predicate Carried(cfg: Config, w: World) {
    && (forall d :: d in w.enqueued ==> OnTheLink(cfg, d))
    && w.packets - w.dropped <= SentIn(w.enqueued) <= 2 * (w.packets - w.dropped)
  }

  lemma SentSnoc(q: seq<Delivery>, d: Delivery)
    ensures SentIn(q + [d]) == SentIn(q) + if d.origin.Sent? then 1 else 0
  {
    assert (q + [d])[..|q|] == q;
  }

  lemma CopyKeepsToLink(env: Env, w: World, from: Side, op: nat, out: nat, p: Packet, c: CopyDraw)
    requires !Blackout(env.cfg.LinkFrom(from), w.now)
    ensures OnTheLink(env.cfg, Copy(env, w, from, op, out, p, c)) && Copy(env, w, from, op, out, p, c).origin.Sent?
  {
  }

  lemma CopiesCarried(env: Env, w: World, from: Side, op: nat, out: nat, p: Packet, draw: LinkDraw)
    requires !Blackout(env.cfg.LinkFrom(from), w.now) && forall d :: d in w.enqueued ==> OnTheLink(env.cfg, d)
    ensures var r := SendCopies(env, w, from, op, out, p, draw);
            && (forall d :: d in r.enqueued ==> OnTheLink(env.cfg, d))
            && SentIn(w.enqueued) + 1 <= SentIn(r.enqueued) <= SentIn(w.enqueued) + 2
            && r.packets == w.packets && r.dropped == w.dropped
  {
    var first := Copy(env, w, from, op, out, p, draw.first);
    var once := Enqueue(w, first);
    var second := Copy(env, once, from, op, out, p, draw.second);
    CopyKeepsToLink(env, w, from, op, out, p, draw.first);
    CopyKeepsToLink(env, once, from, op, out, p, draw.second);
    SentSnoc(w.enqueued, first);
    SentSnoc(once.enqueued, second);
  }

  lemma TransmitCarried(env: Env, w: World, from: Side, op: nat, out: nat, p: Packet)
    requires Carried(env.cfg, w)
    ensures Carried(env.cfg, Transmit(env, w, from, op, out, p))
  {
    if !Blackout(env.cfg.LinkFrom(from), w.now) {
      CopiesCarried(env, OneMore(w), from, op, out, p, env.draw(w.packets));
    }
  }

  lemma {:induction false} TransmitFromCarried(env: Env, w: World, from: Side, op: nat, outs: seq<Packet>, i: nat)
    requires Carried(env.cfg, w)
    ensures Carried(env.cfg, TransmitFrom(env, w, from, op, outs, i))
    decreases |outs| - i
  {
    if i < |outs| {
      TransmitCarried(env, w, from, op, i, outs[i]);
      TransmitFromCarried(env, Transmit(env, w, from, op, i, outs[i]), from, op, outs, i + 1);
    }
  }

  lemma CallCarried(env: Env, w: World, s: Side, head: Head, ret: int)
    requires Carried(env.cfg, w)
    ensures Carried(env.cfg, CallAs(env, w, s, head, ret))
  {
    TransmitFromCarried(env, Ticked(env, w), s, |w.Of(s).ops|, env.reply(w.calls).outs, 0);
  }

  lemma CraftedCarried(env: Env, w: World, k: nat, s: Side)
    requires Carried(env.cfg, w) && k < |env.cfg.garbage|
    ensures Carried(env.cfg, PushCrafted(env, w, k, s))
  {
    SentSnoc(w.enqueued, CraftedPacket(env.cfg, w.nextNum + 1, k, s));
  }

  lemma CarriedIsClosed(env: Env)
    ensures Closed(env, (w: World) => Carried(env.cfg, w))
  {
    var inv := (w: World) => Carried(env.cfg, w);
    forall w: World, s: Side, head: Head, ret: int | inv(w) ensures inv(CallAs(env, w, s, head, ret)) {
      CallCarried(env, w, s, head, ret);
    }
    ClosedByTrace(env, inv);
  }

  /** In every run, of all that was ever queued: nothing is due before its link's delay, a blackout stops its
    * link for good, and there are one or two copies of every packet that was not dropped. */
  lemma EveryRunIsCarried(env: Env, turns: nat)
    ensures Carried(env.cfg, After(env, turns).w)
  {
    var inv := (w: World) => Carried(env.cfg, w);
    CarriedIsClosed(env);
    forall w: World, k: nat | k < |env.cfg.garbage| && inv(w) ensures inv(PushBoth(env, w, k)) {
      CraftedCarried(env, w, k, A);
      CraftedCarried(env, PushCrafted(env, w, k, A), k, B);
    }
    forall w: World | inv(w) && DeliveryDue(w) ensures inv(InputDone(env, w)) {
      CallCarried(env, Taken(w), w.queue[0].to, InputHead(env, w.queue[0]), Ret(env, Taken(w)));
    }
    AlwaysHolds(env, inv, turns);
    assert inv(After(env, turns).w);
  }

  // ---------- Crafted packets ----------

  /** The crafted ones of some deliveries, in order. */
  function CraftedOf(q: seq<Delivery>): seq<Delivery> {
    if q == [] then [] else CraftedOf(q[..|q| - 1]) + if q[|q| - 1].origin.Crafted? then [q[|q| - 1]] else []
  }

  /** Crafted packet j for one endpoint: a's are due from 5 ms on, 7 ms apart, b's each 3 ms later. */
  predicate IsCrafted(cfg: Config, d: Delivery, j: nat, s: Side) {
    && j < |cfg.garbage| && d.data == cfg.garbage[j] && d.to == s && !d.fec
    && d.at == 5 + 7 * j + if s == A then 0 else 3
  }

  /** The first n crafted packets of the configuration, each for a and then for b, and no other. */
  ghost predicate CraftedAre(cfg: Config, q: seq<Delivery>, n: nat) {
    && |CraftedOf(q)| == 2 * n
    && forall i :: 0 <= i < |CraftedOf(q)| ==> IsCrafted(cfg, CraftedOf(q)[i], i / 2, if i % 2 == 0 then A else B)
  }

  lemma CraftedSnoc(q: seq<Delivery>, d: Delivery)
    ensures CraftedOf(q + [d]) == CraftedOf(q) + if d.origin.Crafted? then [d] else []
  {
    assert (q + [d])[..|q|] == q;
  }

  lemma {:induction false} CallsCraftNone(env: Env, w: World, from: Side, op: nat, outs: seq<Packet>, i: nat)
    ensures CraftedOf(TransmitFrom(env, w, from, op, outs, i).enqueued) == CraftedOf(w.enqueued)
    decreases |outs| - i
  {
    if i < |outs| {
      var sent := OneMore(w);
      var first := Copy(env, sent, from, op, i, outs[i], env.draw(w.packets).first);
      CraftedSnoc(w.enqueued, first);
      CraftedSnoc(w.enqueued + [first], Copy(env, Enqueue(sent, first), from, op, i, outs[i], env.draw(w.packets).second));
      CallsCraftNone(env, Transmit(env, w, from, op, i, outs[i]), from, op, outs, i + 1);
    }
  }

  ghost predicate CraftedStay(crafted: seq<Delivery>, w: World) { CraftedOf(w.enqueued) == crafted }

  lemma CallKeepsCrafted(env: Env, w: World, s: Side, head: Head, ret: int)
    ensures CraftedOf(CallAs(env, w, s, head, ret).enqueued) == CraftedOf(w.enqueued)
  {
    CallsCraftNone(env, Ticked(env, w), s, |w.Of(s).ops|, env.reply(w.calls).outs, 0);
  }

  lemma CraftedStayIsClosed(env: Env, crafted: seq<Delivery>)
    ensures Closed(env, (w: World) => CraftedStay(crafted, w))
  {
    var inv := (w: World) => CraftedStay(crafted, w);
    forall w: World, s: Side, head: Head, ret: int | inv(w) ensures inv(CallAs(env, w, s, head, ret)) {
      CallKeepsCrafted(env, w, s, head, ret);
    }
    ClosedByTrace(env, inv);
  }

  /** One more crafted packet for each of them. */
  lemma TwoMore(cfg: Config, before: seq<Delivery>, after: seq<Delivery>, k: nat, one: Delivery, two: Delivery)
    requires CraftedAre(cfg, before, k) && CraftedOf(after) == CraftedOf(before) + [one, two]
    requires IsCrafted(cfg, one, k, A) && IsCrafted(cfg, two, k, B)
    ensures CraftedAre(cfg, after, k + 1)
  {
    var c := CraftedOf(after);
    forall i | 0 <= i < |c| ensures IsCrafted(cfg, c[i], i / 2, if i % 2 == 0 then A else B) {
      if i < 2 * k { assert c[i] == CraftedOf(before)[i]; }
    }
  }

  lemma BothEnqueued(env: Env, w: World, k: nat) returns (one: Delivery, two: Delivery)
    requires k < |env.cfg.garbage|
    ensures PushBoth(env, w, k).enqueued == w.enqueued + [one] + [two] && one.origin.Crafted? && two.origin.Crafted?
    ensures IsCrafted(env.cfg, one, k, A) && IsCrafted(env.cfg, two, k, B)
  {
    one := CraftedPacket(env.cfg, w.nextNum + 1, k, A);
    two := CraftedPacket(env.cfg, PushCrafted(env, w, k, A).nextNum + 1, k, B);
  }

  lemma TwoCrafted(q: seq<Delivery>, one: Delivery, two: Delivery)
    requires one.origin.Crafted? && two.origin.Crafted?
    ensures CraftedOf(q + [one] + [two]) == CraftedOf(q) + [one, two]
  {
    CraftedSnoc(q, one);
    CraftedSnoc(q + [one], two);
  }

  lemma BothCrafted(env: Env, w: World, k: nat)
    requires k < |env.cfg.garbage| && CraftedAre(env.cfg, w.enqueued, k)
    ensures CraftedAre(env.cfg, PushBoth(env, w, k).enqueued, k + 1)
  {
    var one, two := BothEnqueued(env, w, k);
    TwoCrafted(w.enqueued, one, two);
    TwoMore(env.cfg, w.enqueued, PushBoth(env, w, k).enqueued, k, one, two);
  }

  lemma {:induction false} GarbageCrafted(env: Env, w: World, k: nat)
    requires k <= |env.cfg.garbage| && CraftedAre(env.cfg, w.enqueued, k)
    ensures CraftedAre(env.cfg, PushGarbage(env, w, k).enqueued, |env.cfg.garbage|)
    decreases |env.cfg.garbage| - k
  {
    if k < |env.cfg.garbage| {
      BothCrafted(env, w, k);
      GarbageCrafted(env, PushBoth(env, w, k), k + 1);
      assert PushGarbage(env, w, k) == PushGarbage(env, Crafting(env)(w, k), k + 1);
    }
  }

  lemma StartCrafts(env: Env)
    ensures CraftedAre(env.cfg, Start(env).enqueued, |env.cfg.garbage|)
  {
    var inv := (w: World) => CraftedStay([], w);
    CraftedStayIsClosed(env, []);
    assert inv(NewWorld(env));
    ConfigureKeeps(env, inv, NewWorld(env), A);
    ConfigureKeeps(env, inv, Configure(env, NewWorld(env), A), B);
    assert inv(Configure(env, Configure(env, NewWorld(env), A), B));
    GarbageCrafted(env, Configure(env, Configure(env, NewWorld(env), A), B), 0);
  }

  lemma EventKeepsCrafted(env: Env, crafted: seq<Delivery>, w: World)
    requires CraftedStay(crafted, w)
    ensures CraftedStay(crafted, Event(env, w))
  {
    CraftedStayIsClosed(env, crafted);
    if DeliveryDue(w) {
      CallKeepsCrafted(env, Taken(w), w.queue[0].to, InputHead(env, w.queue[0]), Ret(env, Taken(w)));
    }
    EventKeeps(env, (u: World) => CraftedStay(crafted, u), w);
  }

  lemma TurnKeepsCrafted(env: Env, crafted: seq<Delivery>, w: World)
    requires CraftedStay(crafted, w)
    ensures CraftedStay(crafted, Turn(env, w).w)
  {
    EventKeepsCrafted(env, crafted, Advance(env, w));
  }

  /** In every run the crafted packets are exactly those of the configuration, for both endpoints, at their
    * times and in their order. */
  lemma CraftedAsConfigured(env: Env, turns: nat)
    ensures CraftedAre(env.cfg, After(env, turns).w.enqueued, |env.cfg.garbage|)
  {
    StartCrafts(env);
    var crafted := CraftedOf(Start(env).enqueued);
    var inv := (o: Outcome) => CraftedStay(crafted, o.w);
    forall p: Outcome | inv(p) && p.Running? ensures inv(Turns(env)(p.w)) { TurnKeepsCrafted(env, crafted, p.w); }
    RunKeeps(Turns(env), inv, Running(Start(env)), turns);
  }
}
