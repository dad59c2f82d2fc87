/**
 * In which ping-pong configurations every run that is in order stays in step: exactly those in
 * which no part of a message can get lost and be followed by more than the rest of it. The runs
 * that get out of step in all others are given.
 */
module PingPongExact {
  import opened Helpers
  import opened DeliveryHeap
  import opened KcpTrace
  import opened PingPong

  /** The values of a ping-pong configuration that decide: message size, total bytes, splitting. */
  datatype Game = Game(pp: pos, aBytes: nat, bBytes: nat, aWhole: bool, bWhole: bool)

  predicate Plays(cfg: Config, g: Game) {
    && cfg.pingPong == g.pp && cfg.a.extraSends == [] && cfg.b.extraSends == []
    && cfg.a.writeBytes == g.aBytes && cfg.b.writeBytes == g.bBytes
    && cfg.a.noSplit == g.aWhole && cfg.b.noSplit == g.bWhole
  }

  predicate SafeGame(g: Game) {
    && (g.aWhole || g.pp == 1 || g.aBytes <= g.pp + 1)
    && (g.bWhole || g.pp == 1 || g.bBytes <= g.pp + 1 || g.aBytes < g.pp)
  }

  /** Every run in which no reader gets ahead of its peer stays in step, whatever the engine and the link do. */
  ghost predicate StaysInStep(g: Game) {
    forall env: Env, turns: nat {:trigger After(env, turns)} ::
      Plays(env.cfg, g) && After(env, turns).w.watch.inOrder ==> After(env, turns).w.watch.inStep
  }

  // ---------- Out of step for good ----------

  predicate Out(w: World) { w.watch.inOrder && !w.watch.inStep }

  lemma SendKeepsOut(env: Env, w: World, s: Side, n: nat)
    requires Out(w)
    ensures Out(SendCall(env, w, s, n))
  {
  }

  lemma MessageKeepsOut(env: Env, w: World, s: Side)
    requires Out(w) && w.Of(s).writes != []
    ensures Out(OneWrite(env, w, s))
  {
    var taken, n := TakeWrite(w, s), w.Of(s).writes[0];
    forall u: World, c: nat | Out(u) ensures Out(Sending(env, s)(u, c)) { SendKeepsOut(env, u, s, c); }
    SplitKeeps(Sending(env, s), taken.Of(s).mss, (u: World) => Out(u), taken, n);
    SendKeepsOut(env, taken, s, n);
  }

  lemma {:induction false} WriteKeepsOut(env: Env, w: World, s: Side)
    requires Out(w)
    ensures Out(Write(env, w, s))
    decreases |w.Of(s).writes|
  {
    if CanWrite(env, w, s) {
      var asked := Call(env, w, s, Head.WaitSnd);
      if Ret(env, w) < asked.Of(s).words.sndWnd {
        MessageKeepsOut(env, asked, s);
        WriteKeepsOut(env, OneWrite(env, asked, s), s);
      }
    }
  }

  // ---------- A message sent in part ----------

  /** From call number `from` on every Send succeeds. */
  ghost predicate AllSucceed(env: Env, from: nat) { forall i: nat :: i >= from ==> env.reply(i).ret == 0 }

  /** s has sent all but `left` of n bytes since w, and the bounds were watched at every Send. */
  ghost predicate AllButLeft(env: Env, w: World, s: Side, n: nat, u: World, left: nat) {
    && left <= n && u.calls >= w.calls && u.watch.inOrder == w.watch.inOrder
    && u.Of(s).sent == w.Of(s).sent + n - left && u.Of(s.Peer()).sent == w.Of(s.Peer()).sent
    && (left < n && u.watch.inStep ==> InStep(env.cfg.pingPong, u.a.sent, u.b.sent))
  }

  lemma SendLeaves(env: Env, w: World, s: Side, n: nat, u: World, left: nat, c: pos)
    requires AllSucceed(env, w.calls) && AllButLeft(env, w, s, n, u, left) && c <= left
    ensures AllButLeft(env, w, s, n, SendCall(env, u, s, c), left - c)
  {
  }

  /** When every Send succeeds, the whole message goes out. */
  lemma WholeMessage(env: Env, w: World, s: Side, n: pos)
    requires AllSucceed(env, w.calls)
    ensures AllButLeft(env, w, s, n, SendMessage(env, w, s, n), 0)
  {
    var inv := (u: World, left: nat) => AllButLeft(env, w, s, n, u, left);
    forall u: World, left: nat, c: pos | c <= left && inv(u, left) ensures inv(Sending(env, s)(u, c), left - c) {
      SendLeaves(env, w, s, n, u, left, c);
    }
    SplitCounts(Sending(env, s), w.Of(s).mss, inv, w, n);
    assert AllButLeft(env, w, s, n, w, n);
    SendLeaves(env, w, s, n, w, n, n);
  }

  /** The second of two pieces fails. */
  lemma TornMessage(env: Env, pp: pos, w: World, s: Side)
    requires pp >= 2 && !env.cfg.SideOf(s).noSplit && w.Of(s).mss == pp - 1
    requires env.reply(w.calls).ret == 0 && env.reply(w.calls + 1).ret != 0
    ensures var r := SendMessage(env, w, s, pp);
            && r.Of(s) == w.Of(s).(sent := w.Of(s).sent + pp - 1, ops := r.Of(s).ops, words := r.Of(s).words)
            && r.Of(s.Peer()) == w.Of(s.Peer()) && r.calls == w.calls + 2
            && r.watch.inOrder == w.watch.inOrder && r.now >= w.now
  {
    var first := SendCall(env, w, s, pp - 1);
    var second := SendCall(env, first, s, 1);
    var send := Sending(env, s);
    assert send(w, pp - 1) == first && send(first, 1) == second;
    assert Split(send, pp - 1, second, 0) == second;
    assert Split(send, pp - 1, first, 1) == Split(send, pp - 1, second, 0);
    assert Split(send, pp - 1, w, pp) == Split(send, pp - 1, first, 1);
  }

  /** The state in which s is about to tear its first message: the call after next fails. */
  ghost predicate AboutToTear(env: Env, g: Game, w: World, s: Side) {
    && g.pp >= 2 && env.cfg.pingPong == g.pp && !env.cfg.SideOf(s).noSplit && env.cfg.SideOf(s).writeFrom == 0
    && w.Of(s).mss == g.pp - 1 && w.Of(s).sent == 0
    && |w.Of(s).writes| >= 2 && w.Of(s).writes[0] == g.pp && w.Of(s).writes[1] >= 2
    && (if s == A then w.b.sent == 0 else w.a.sent == g.pp && w.b.got >= g.pp)
    && w.watch.inOrder
    && (forall i: nat :: i >= w.calls ==> env.reply(i).words.sndWnd == 1)
    && (forall i: nat :: i >= w.calls ==> env.reply(i).ret == if i == w.calls + 2 then -1 else 0)
  }

  /** After the torn message: part of it sent, and the gate still open. */
  ghost predicate Torn(env: Env, g: Game, w: World, s: Side) {
    && w.Of(s).sent == g.pp - 1 && w.Of(s).writes != [] && w.Of(s).writes[0] >= 2
    && (if s == A then w.b.sent == 0 else w.a.sent == g.pp && w.b.got >= g.pp)
    && w.watch.inOrder && AllSucceed(env, w.calls) && env.reply(w.calls).words.sndWnd == 1
  }

  lemma GateOpen(env: Env, g: Game, w: World, s: Side)
    requires env.cfg.pingPong == g.pp && env.cfg.SideOf(s).writeFrom == 0
    requires w.Of(s).writes != [] && w.Of(s).sent < g.pp && (s == B ==> w.b.got >= g.pp)
    ensures CanWrite(env, w, s)
  {
    FewMessages(w.Of(s).sent, g.pp);
  }

  lemma Tears(env: Env, g: Game, w: World, s: Side)
    requires AboutToTear(env, g, w, s)
    ensures var asked := Call(env, w, s, Head.WaitSnd); Torn(env, g, OneWrite(env, asked, s), s)
  {
    var asked := Call(env, w, s, Head.WaitSnd);
    TornMessage(env, g.pp, TakeWrite(asked, s), s);
  }

  /** The next whole message then goes more than one message too far. */
  lemma NextGoesTooFar(env: Env, g: Game, w: World, s: Side)
    requires g.pp >= 2 && env.cfg.pingPong == g.pp && Torn(env, g, w, s)
    ensures Out(OneWrite(env, Call(env, w, s, Head.WaitSnd), s))
  {
    var asked := Call(env, w, s, Head.WaitSnd);
    var taken, n := TakeWrite(asked, s), asked.Of(s).writes[0];
    WholeMessage(env, taken, s, n);
    assert Out(WriteMessage(env, asked, s));
  }

  lemma WindowOpen(env: Env, w: World, s: Side)
    requires env.reply(w.calls).ret == 0 && env.reply(w.calls).words.sndWnd == 1
    ensures Ret(env, w) < Call(env, w, s, Head.WaitSnd).Of(s).words.sndWnd
  {
  }

  function Asked(env: Env, w: World, s: Side): World { Call(env, w, s, Head.WaitSnd) }

  lemma AskedKeeps(env: Env, w: World, s: Side)
    ensures Asked(env, w, s).Of(s).writes == w.Of(s).writes
  {
  }

  /** The writer's loop goes round once more. */
  lemma WriteOnce(env: Env, w: World, s: Side)
    requires CanWrite(env, w, s) && Ret(env, w) < Asked(env, w, s).Of(s).words.sndWnd
    requires Asked(env, w, s).Of(s).writes != []
    ensures Write(env, w, s) == Write(env, OneWrite(env, Asked(env, w, s), s), s)
  {
  }

  lemma TornWrite(env: Env, g: Game, w: World, s: Side)
    requires AboutToTear(env, g, w, s)
    ensures Out(Write(env, w, s))
  {
    AskedKeeps(env, w, s);
    var torn := OneWrite(env, Asked(env, w, s), s);
    GateOpen(env, g, w, s);
    WindowOpen(env, w, s);
    WriteOnce(env, w, s);
    Tears(env, g, w, s);
    GoesTooFar(env, g, torn, s);
  }

  lemma GoesTooFar(env: Env, g: Game, w: World, s: Side)
    requires g.pp >= 2 && env.cfg.pingPong == g.pp && env.cfg.SideOf(s).writeFrom == 0
    requires Torn(env, g, w, s)
    ensures Out(Write(env, w, s))
  {
    AskedKeeps(env, w, s);
    GateOpen(env, g, w, s);
    WindowOpen(env, w, s);
    WriteOnce(env, w, s);
    NextGoesTooFar(env, g, w, s);
    WriteKeepsOut(env, OneWrite(env, Asked(env, w, s), s), s);
  }

  // ---------- The configuration and engine of the failing runs ----------

  function Player(bytes: nat, whole: bool, buf: nat): SideConfig {
    SideConfig(None, 0, 0, 0, 0, false, bytes, 0, (k: nat) => 0, whole, buf, 0, 0, [], 0)
  }

  /** No stalls, no delays, a clock that stands still. */
  function Playing(g: Game): Config {
    Config(0, 0, false, g.pp, [], false, 0, Player(g.aBytes, g.aWhole, g.pp), Player(g.bBytes, g.bWhole, g.pp),
           Link(0, 0, 0, 0), Link(0, 0, 0, 0), false)
  }

  /** A perfect link. */
  function Perfect(): LinkDraw {
    LinkDraw(false, false, CopyDraw(0, false, false, 0, false), CopyDraw(0, false, false, 0, false))
  }

  /** The engine fails one Send. Handing over, it outputs one packet in call 6 and pp bytes in call 9. */
  function Engine(g: Game, aMss: pos, bMss: pos, fails: nat, handsOver: bool): Env {
    Env(Playing(g),
        (i: nat) => Reply(if i == fails then -1 else if handsOver && i == 9 then g.pp else 0, 0,
                          if handsOver && i == 6 then [[0]] else [], Words(if i == 0 then aMss else bMss, 1, 0, false)),
        (i: nat) => Perfect(), (i: nat) => Burst([g.pp], -1))
  }

  // ---------- Stepping through a run ----------

  /** A call without output on a clock that stands still only counts itself and adds its line. */
  lemma QuietCall(env: Env, w: World, s: Side, head: Head, ret: int)
    requires env.cfg.step == 0 && env.reply(w.calls).outs == []
    ensures CallAs(env, w, s, head, ret)
         == Append(w.(calls := w.calls + 1), s, NewOp(env, w, head, ret), env.reply(w.calls).words)
  {
    assert Ticked(env, w) == w.(calls := w.calls + 1);
  }

  /** Everything but the lines, words and byte counts of the endpoints, and the counters. */
  predicate Quiet(w: World, calls: nat, q: seq<Delivery>) {
    && w.calls == calls && w.now == 0 && w.nextNum == 0 && w.queue == q && w.bursts == 0 && w.pendingRaw == 0
    && w.a.nextTimer == 0 && w.b.nextTimer == 0 && w.a.idleReads == 0 && w.b.idleReads == 0
    && w.watch == Watch(true, true, true)
  }

  lemma Configured(env: Env, w: World, s: Side, g: Game)
    requires env.cfg == Playing(g) && env.reply(w.calls).outs == [] && Quiet(w, w.calls, [])
    ensures var r := Configure(env, w, s);
            && Quiet(r, w.calls + 1, []) && r.Of(s.Peer()) == w.Of(s.Peer())
            && r.Of(s) == w.Of(s).(mss := env.reply(w.calls).words.mss, ops := r.Of(s).ops, words := r.Of(s).words)
  {
    assert Settings(env, w, s) == w;
    QuietCall(env, w, s, Stream(env.cfg.SideOf(s).stream), Ret(env, w));
  }

  lemma Started(env: Env, g: Game)
    requires env.cfg == Playing(g) && env.reply(0).outs == [] && env.reply(1).outs == []
    ensures var r := Start(env);
            && Quiet(r, 2, []) && r.a.sent == r.b.sent == r.a.got == r.b.got == 0
            && r.a.mss == env.reply(0).words.mss && r.b.mss == env.reply(1).words.mss
            && r.a.writes == Plan(env.cfg, env.cfg.a, g.aBytes, 0) && r.b.writes == Plan(env.cfg, env.cfg.b, g.bBytes, 0)
  {
    var w := NewWorld(env);
    Configured(env, w, A, g);
    Configured(env, Configure(env, w, A), B, g);
  }

  /** A plan of more than a message and a byte starts with a whole message and goes on with at least two. */
  lemma LongPlan(cfg: Config, pp: pos, side: SideConfig)
    requires cfg.pingPong == pp && pp >= 2 && side.writeBytes >= pp + 2
    ensures var plan := Plan(cfg, side, side.writeBytes, 0); |plan| >= 2 && plan[0] == pp && plan[1] >= 2
  {
    var rest := Plan(cfg, side, side.writeBytes - pp, 1);
    assert Plan(cfg, side, side.writeBytes, 0) == [pp] + rest;
    assert rest[0] == PlanSize(cfg, side, side.writeBytes - pp, 1);
  }

  // ---------- a tears a message ----------

  lemma FirstTimer(env: Env, g: Game)
    requires env.cfg == Playing(g) && (forall i: nat :: i < 3 ==> env.reply(i).outs == [] && env.reply(i).ret == 0)
    requires g.aBytes > 0
    ensures var w, f := Start(env), FlushTimer(env, Start(env), A);
            && Turn(env, w) == Running(Write(env, f, A))
            && Quiet(f, 3, []) && f.b == w.b && f.a == w.a.(ops := f.a.ops, words := f.a.words)
  {
    var w := Start(env);
    Started(env, g);
    assert w.a.writes != [];
    assert Advance(env, w) == w;
    QuietCall(env, w, A, Head.Flush, Ret(env, w));
    assert Event(env, w) == Timer(env, w, A);
  }

  function AEngine(g: Game): Env
    requires g.pp >= 2
  {
    Engine(g, g.pp - 1, g.pp - 1, 5, false)
  }

  lemma AGoesTooFar(g: Game)
    requires g.pp >= 2 && !g.aWhole && g.aBytes >= g.pp + 2
    ensures Plays(AEngine(g).cfg, g) && Out(After(AEngine(g), 1).w)
  {
    var env := AEngine(g);
    Started(env, g);
    FirstTimer(env, g);
    LongPlan(env.cfg, g.pp, env.cfg.a);
    var f := FlushTimer(env, Start(env), A);
    assert AboutToTear(env, g, f, A);
    TornWrite(env, g, f, A);
    assert After(env, 1) == Turn(env, Start(env));
  }

  // ---------- b tears an answer ----------

  /** The packet a's first message puts on the link. */
  function FirstPacket(op: nat): Delivery { Delivery(0, 0, B, Origin.Sent(op, 0, None), [0], false) }

  lemma SentAtOnce(env: Env, g: Game, w: World)
    requires env.cfg == Playing(g) && w.a.mss == g.pp && env.reply(w.calls).ret == 0
    ensures SendMessage(env, w, A, g.pp) == SendCall(env, w, A, g.pp)
  {
    OnePieceIsOneSend(env, w, A, g.pp);
  }

  /** What a has done once its first message is out, before the flush that carries it. */
  ghost predicate MessageOut(g: Game, w: World, before: World, calls: nat) {
    && w.calls == calls && w.now == 0 && w.queue == [] && w.bursts == 0 && w.pendingRaw == 0 && w.nextNum == before.nextNum
    && w.a.sent == g.pp && w.a.got == 0 && w.a.nextTimer == 0 && w.b == before.b && w.packets == before.packets
    && w.watch.inOrder
  }

  lemma FirstMessage(env: Env, g: Game, w: World)
    requires env.cfg == Playing(g) && Quiet(w, 3, []) && w.a.sent == w.a.got == 0 && w.a.mss == g.pp
    requires w.a.writes != [] && w.a.writes[0] == g.pp
    requires forall i: nat :: 3 <= i < 6 ==> env.reply(i).outs == [] && env.reply(i).ret == 0
    ensures var waited := Asked(env, WriteMessage(env, Asked(env, w, A), A), A);
            MessageOut(g, waited, w, 6) && waited.a.writes == w.a.writes[1..]
  {
    QuietCall(env, w, A, Head.WaitSnd, Ret(env, w));
    var taken := TakeWrite(Asked(env, w, A), A);
    SentAtOnce(env, g, taken);
    QuietCall(env, taken, A, Head.Send(g.pp), Ret(env, taken));
    var sent := WriteMessage(env, Asked(env, w, A), A);
    assert sent.calls == 5 && sent.a.sent == g.pp;
    QuietCall(env, sent, A, Head.WaitSnd, Ret(env, sent));
  }

  /** A flush with one output on a perfect link puts that one packet in the queue, due at once. */
  lemma FlushedOut(env: Env, g: Game, w: World)
    requires env.cfg == Playing(g) && w.now == 0 && w.queue == [] && w.nextNum == 0
    requires env.reply(w.calls).outs == [[0]] && env.draw(w.packets) == Perfect()
    ensures var r := Call(env, w, A, Head.Flush);
            && r.queue == [FirstPacket(|w.a.ops|)] && r.calls == w.calls + 1 && r.now == 0
            && r.a == w.a.(ops := r.a.ops, words := r.a.words) && r.b == w.b
            && r.bursts == w.bursts && r.pendingRaw == w.pendingRaw && r.watch == w.watch
  {
    var t, op, p := Ticked(env, w), |w.a.ops|, [0];
    var d := FirstPacket(op);
    assert t == w.(calls := w.calls + 1);
    assert Copy(env, OneMore(t), A, op, 0, p, Perfect().first) == d;
    assert Transmit(env, t, A, op, 0, p) == Enqueue(OneMore(t), d);
    OnlyOne(d);
    var r := Transmit(env, t, A, op, 0, p);
    assert TransmitFrom(env, r, A, op, [p], 1) == r;
    assert TransmitFrom(env, t, A, op, [p], 0) == r;
  }

  lemma OnlyOne(d: Delivery)
    ensures Pushed([], d) == [d] && Popped([d]) == []
  {
    assert [] + [d] == [d];
  }

  /** After the first turn: a's first message is sent, and its packet is on its way to b, due at once. */
  ghost predicate Served(g: Game, w: World, d: Delivery, b: End) {
    && w.calls == 7 && w.now == 0 && w.bursts == 0 && w.pendingRaw == 0 && w.queue == [d]
    && d.to == B && d.at == 0 && d.origin.Sent?
    && w.a.sent == g.pp && w.a.nextTimer == 0 && w.b == b && w.watch.inOrder
  }

  lemma FirstWrite(env: Env, g: Game, w: World)
    requires env.cfg == Playing(g) && Quiet(w, 3, []) && w.a.sent == w.a.got == 0 && w.a.mss == g.pp
    requires w.a.writes != [] && w.a.writes[0] == g.pp
    requires forall i: nat :: 3 <= i < 6 ==> env.reply(i).outs == [] && env.reply(i).ret == 0
    requires env.reply(3).words.sndWnd == 1 && env.reply(6).outs == [[0]] && forall i: nat :: env.draw(i) == Perfect()
    ensures exists d :: Served(g, Write(env, w, A), d, w.b)
  {
    GateOpen(env, g, w, A);
    WindowOpen(env, w, A);
    AskedKeeps(env, w, A);
    WriteOnce(env, w, A);
    FirstMessage(env, g, w);
    var waited := Asked(env, WriteMessage(env, Asked(env, w, A), A), A);
    FlushedOut(env, g, waited);
    var r := OneWrite(env, Asked(env, w, A), A);
    assert r == Call(env, waited, A, Head.Flush);
    GateShut(env, g, r);
    assert Served(g, r, FirstPacket(|waited.a.ops|), w.b);
  }

  /** With one message out and no answer, a waits. */
  lemma GateShut(env: Env, g: Game, w: World)
    requires env.cfg.pingPong == g.pp && w.a.sent == g.pp && w.a.got == 0
    ensures !CanWrite(env, w, A)
  {
    FewMessages(g.pp, g.pp);
  }

  /** b reads the whole message, and nothing else changes but counters and lines. */
  lemma ReadsIt(env: Env, g: Game, w: World)
    requires env.cfg == Playing(g) && w.calls == 8 && w.now == 0 && w.bursts == 0 && w.b.idleReads == 0
    requires w.a.sent == g.pp && w.b.got == 0 && w.watch.inOrder
    requires env.burst(0) == Burst([g.pp], -1)
    requires forall i: nat :: 8 <= i < 12 ==> env.reply(i).outs == [] && env.reply(i).ret == if i == 9 then g.pp else 0
    ensures var r := Read(env, w, B);
            && r.calls == 12 && r.now == 0 && r.watch.inOrder && r.a == w.a
            && r.b == w.b.(got := g.pp, idleReads := 1, ops := r.b.ops, words := r.b.words)
  {
    var burst := Burst([g.pp], -1);
    var begun := NextBurst(w);
    QuietCall(env, begun, B, Head.Peek, g.pp);
    var peeked := CallAs(env, begun, B, Head.Peek, g.pp);
    QuietCall(env, peeked, B, Recv(g.pp), Ret(env, peeked));
    var read := ReadOne(env, peeked, B, g.pp);
    assert read == RecvCall(env, peeked, B, g.pp);
    QuietCall(env, read, B, Head.Peek, -1);
    var empty := CallAs(env, read, B, Head.Peek, -1);
    var counted := CountIdle(empty, B);
    QuietCall(env, counted, B, Recv(g.pp), Ret(env, counted));
    var idle := IdleRead(env, empty, B);
    assert idle == RecvCall(env, counted, B, g.pp);
    assert ReadFrom(env, read, B, burst, 1) == idle;
    assert ReadFrom(env, begun, B, burst, 0) == ReadFrom(env, read, B, burst, 1);
  }

  lemma SecondTurn(env: Env, g: Game, w: World, d: Delivery, b: End)
    requires env.cfg == Playing(g) && Served(g, w, d, b) && b.writes != []
    requires env.reply(7).outs == []
    ensures var called := Call(env, TakeNext(w), B, InputHead(env, d));
            && Turn(env, w) == Running(Write(env, Read(env, called, B), B))
            && called.calls == 8 && called.now == 0 && called.bursts == 0 && called.watch == w.watch
            && called.a == w.a && called.b == b.(ops := called.b.ops, words := called.b.words)
  {
    assert Advance(env, w) == w;
    assert DeliveryDue(w);
    QuietCall(env, TakeNext(w), B, InputHead(env, d), Ret(env, TakeNext(w)));
    assert Event(env, w) == Deliver(env, TakeNext(w), d);
  }

  function BEngine(g: Game): Env
    requires g.pp >= 2
  {
    Engine(g, g.pp, g.pp - 1, 14, true)
  }

  /** b at the start: its whole plan, nothing sent or read. */
  ghost predicate Fresh(g: Game, b: End)
    requires g.pp >= 2
  {
    && b.sent == 0 && b.got == 0 && b.idleReads == 0 && b.mss == g.pp - 1 && b.nextTimer == 0
    && b.writes == Plan(Playing(g), Playing(g).b, g.bBytes, 0)
  }

  lemma AfterOneTurn(g: Game) returns (w: World, d: Delivery)
    requires g.pp >= 2 && g.aBytes >= g.pp
    ensures Turn(BEngine(g), Start(BEngine(g))) == Running(w)
    ensures Served(g, w, d, w.b) && Fresh(g, w.b)
  {
    var env := BEngine(g);
    Started(env, g);
    FirstTimer(env, g);
    var f := FlushTimer(env, Start(env), A);
    assert f.a.writes[0] == PlanSize(env.cfg, env.cfg.a, g.aBytes, 0) == g.pp;
    FirstWrite(env, g, f);
    w := Write(env, f, A);
    d :| Served(g, w, d, f.b);
  }

  lemma AfterTwoTurns(g: Game, w: World, d: Delivery)
    requires g.pp >= 2 && !g.bWhole && g.bBytes >= g.pp + 2
    requires Served(g, w, d, w.b) && Fresh(g, w.b)
    ensures Turn(BEngine(g), w).Running? && Out(Turn(BEngine(g), w).w)
  {
    var env := BEngine(g);
    LongPlan(env.cfg, g.pp, env.cfg.b);
    SecondTurn(env, g, w, d, w.b);
    var called := Call(env, TakeNext(w), B, InputHead(env, d));
    ReadsIt(env, g, called);
    TornWrite(env, g, Read(env, called, B), B);
  }

  lemma BGoesTooFar(g: Game)
    requires g.pp >= 2 && !g.bWhole && g.bBytes >= g.pp + 2 && g.aBytes >= g.pp
    ensures Plays(BEngine(g).cfg, g) && Out(After(BEngine(g), 2).w)
  {
    var env := BEngine(g);
    var w, d := AfterOneTurn(g);
    AfterTwoTurns(g, w, d);
    TwoTurns(Turns(env), Start(env), w);
  }

  lemma TwoTurns(turn: World -> Outcome, start: World, w: World)
    requires turn(start) == Running(w)
    ensures Run(turn, Running(start), 2) == turn(w)
  {
  }

  // ---------- Exactly when ----------

  /** Every run that is in order stays in step if and only if the configuration's values are safe. */
  lemma StaysInStepExactly(g: Game)
    ensures StaysInStep(g) <==> SafeGame(g)
  {
    if SafeGame(g) {
      forall env: Env, turns: nat | Plays(env.cfg, g) && After(env, turns).w.watch.inOrder
        ensures After(env, turns).w.watch.inStep
      {
        SafeStaysInStep(env, turns);
      }
    } else if g.pp >= 2 && !g.aWhole && g.aBytes >= g.pp + 2 {
      AGoesTooFar(g);
      assert !After(AEngine(g), 1).w.watch.inStep;
    } else {
      BGoesTooFar(g);
      assert !After(BEngine(g), 2).w.watch.inStep;
    }
  }
}
