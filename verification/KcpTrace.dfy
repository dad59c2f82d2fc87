/**
 * The trace simulator (tools/govectors/kcptrace.go) as functions on values: two endpoints, a lossy
 * link with a delivery queue, and a clock that may advance on every read. The KCP engine is an
 * arbitrary machine: its answer to the i-th call (return value, clock reads, packets output, state
 * words) is any value, and so is every draw of the link's random generator. The mutable objects
 * are in KcpSimulator; what is promised of every run is proved in KcpCausality, KcpTiming and
 * PingPong.
 */
module KcpTrace {
  import opened Helpers
  import opened DeliveryHeap

  type pos = x: nat | x > 0 witness 1

  // The state words of an engine that the simulator looks at.
  datatype Words = Words(mss: pos, sndWnd: nat, waiting: int, dead: bool)

  // What the engine does in one call.
  datatype Reply = Reply(ret: int, clocks: nat, outs: seq<Packet>, words: Words)

  // The message sizes one reader finds before PeekSize turns negative, and that negative answer.
  datatype Burst = Burst(sizes: seq<nat>, none: int) {
    function Peek(i: nat): int { if i < |sizes| then sizes[i] else if none < 0 then none else -1 }
  }

  // What the random generator of the link decides about one copy, and about one packet.
  datatype CopyDraw = CopyDraw(jitter: nat, late: bool, shorten: bool, keep: nat, fec: bool)
  datatype LinkDraw = LinkDraw(lost: bool, twice: bool, first: CopyDraw, second: CopyDraw)

  datatype Link = Link(delay: nat, jitter: nat, reorder: nat, blackout: nat)

  datatype SideConfig = SideConfig(
    noDelay: Option<seq<int>>, sndWnd: int, rcvWnd: int, mtu: int, stream: int, ackNoDelay: bool,
    writeBytes: nat, maxWrite: nat, work: nat -> nat, noSplit: bool, readBuf: nat,
    stallFrom: nat, stallTo: nat, extraSends: seq<nat>, writeFrom: nat)

  // garbage holds the crafted packets, none where the configuration asks for none.
  // lateNow says whether `s.now + uint64(s.flush(e))` reads s.now after the call: the language
  // leaves the order open.
  datatype Config = Config(
    t0: nat, step: nat, useUpdate: bool, pingPong: nat, garbage: seq<Packet>, toDead: bool,
    limit: nat, a: SideConfig, b: SideConfig, ab: Link, ba: Link, lateNow: bool)
  {
    function SideOf(s: Side): SideConfig { if s == A then a else b }
    function LinkFrom(s: Side): Link { if s == A then ab else ba }
  }

  /** A configuration together with everything the run does not decide itself: answers of the
    * engine by call number, draws of the link by packet number, reader bursts by number. */
  datatype Env = Env(cfg: Config, reply: nat -> Reply, draw: nat -> LinkDraw, burst: nat -> Burst)

  datatype Head =
    | Input(origin: Origin, data: Packet, fec: bool, ackNoDelay: bool)
    | Send(n: nat) | Recv(n: nat) | Peek | WaitSnd | Flush | Update | Check
    | SetMtu(mtu: int) | NoDelay(args: seq<int>) | WndSize(snd: int, rcv: int) | Stream(mode: int)

  // One line of an endpoint's trace. `serial` is how many lines both traces held before it; `words` are
  // the engine's state words after the call, which the program writes as a digest.
  datatype Op = Op(head: Head, t: nat, ret: int, clocks: nat, outs: seq<Packet>, serial: nat, words: Words)

  datatype End = End(
    ops: seq<Op>, writes: seq<nat>, nextTimer: nat, sent: nat, got: nat, idleReads: nat,
    mss: pos, words: Words)

  // When a delivery was taken out of the queue.
  datatype Arrival = Arrival(d: Delivery, when: nat)

  // What an observer of the application's bytes has seen since the start: no reader ever got ahead
  // of its peer's sent bytes; no message was sent in part only; a was never behind b nor more than
  // one ping-pong message ahead.
  datatype Watch = Watch(inOrder: bool, whole: bool, inStep: bool)

  // `enqueued` lists the deliveries ever put in the queue, `arrivals` those taken out.
  datatype World = World(
    now: nat, nextNum: nat, queue: seq<Delivery>, a: End, b: End, packets: nat, dropped: nat,
    pendingRaw: int, calls: nat, bursts: nat, enqueued: seq<Delivery>, arrivals: seq<Arrival>, watch: Watch)
  {
    function Of(s: Side): End { if s == A then a else b }
    function With(s: Side, e: End): World { if s == A then this.(a := e) else this.(b := e) }
    function Lines(): nat { |a.ops| + |b.ops| }
  }

  // ---------- The link ----------

  function Clock(cfg: Config, now: nat): nat { (cfg.t0 + now) % 0x1_0000_0000 }

  function Ticks(clocks: nat, step: nat): (r: nat)
    ensures step == 0 ==> r == 0
  {
    clocks * step
  }

  function Delay(l: Link, c: CopyDraw): nat { l.delay + Min(c.jitter, l.jitter) + if c.late then l.reorder else 0 }

  /** Where a copy of an n-byte packet is cut; a cut leaves 1 to n - 1 bytes. */
  function Cut(n: nat, c: CopyDraw): Option<nat> {
    if c.shorten && n > 1 then Some(if 1 <= c.keep < n then c.keep else 1) else None
  }

  function CopyAt(cfg: Config, now: nat, num: nat, from: Side, op: nat, out: nat, p: Packet, c: CopyDraw): Delivery {
    var cut := Cut(|p|, c);
    Delivery(now + Delay(cfg.LinkFrom(from), c), num, from.Peer(), Origin.Sent(op, out, cut),
             if cut.Some? then p[..cut.value] else p, c.fec)
  }

  function Copy(env: Env, w: World, from: Side, op: nat, out: nat, p: Packet, c: CopyDraw): Delivery {
    CopyAt(env.cfg, w.now, w.nextNum, from, op, out, p, c)
  }

  function Enqueue(w: World, d: Delivery): World {
    w.(queue := Pushed(w.queue, d), nextNum := w.nextNum + 1, enqueued := w.enqueued + [d])
  }

  predicate Blackout(l: Link, now: nat) { l.blackout != 0 && now >= l.blackout }

  /** One or two copies, each with draws of its own. */
  function SendCopies(env: Env, w: World, from: Side, op: nat, out: nat, p: Packet, draw: LinkDraw): World {
    var once := Enqueue(w, Copy(env, w, from, op, out, p, draw.first));
    if draw.twice then Enqueue(once, Copy(env, once, from, op, out, p, draw.second)) else once
  }

  function OneMore(w: World): World { w.(packets := w.packets + 1) }

  function Transmit(env: Env, w: World, from: Side, op: nat, out: nat, p: Packet): World {
    var draw := env.draw(w.packets);
    if Blackout(env.cfg.LinkFrom(from), w.now) || draw.lost then OneMore(w).(dropped := w.dropped + 1)
    else SendCopies(env, OneMore(w), from, op, out, p, draw)
  }

  /** Outputs i, i + 1, … of one call. */
  function TransmitFrom(env: Env, w: World, from: Side, op: nat, outs: seq<Packet>, i: nat): (r: World)
    ensures r == w.(queue := r.queue, nextNum := r.nextNum, enqueued := r.enqueued,
                    packets := r.packets, dropped := r.dropped)
    decreases |outs| - i
  {
    if i >= |outs| then w else TransmitFrom(env, Transmit(env, w, from, op, i, outs[i]), from, op, outs, i + 1)
  }

  // ---------- Engine calls ----------

  function Ret(env: Env, w: World): int { env.reply(w.calls).ret }

  function NewOp(env: Env, w: World, head: Head, ret: int): Op {
    var r := env.reply(w.calls);
    Op(head, Clock(env.cfg, w.now), ret, r.clocks, r.outs, w.Lines(), r.words)
  }

  /** The world right after the engine has run, its outputs still to be sent. */
  function Ticked(env: Env, w: World): World {
    w.(now := w.now + Ticks(env.reply(w.calls).clocks, env.cfg.step), calls := w.calls + 1)
  }

  function Append(w: World, s: Side, op: Op, words: Words): World {
    w.With(s, w.Of(s).(ops := w.Of(s).ops + [op], words := words))
  }

  /** One recorded call of endpoint s. */
  function CallAs(env: Env, w: World, s: Side, head: Head, ret: int): (r: World)
    ensures r.Of(s) == w.Of(s).(ops := w.Of(s).ops + [NewOp(env, w, head, ret)], words := env.reply(w.calls).words)
    ensures r.Of(s.Peer()) == w.Of(s.Peer()) && r.watch == w.watch && r.now >= w.now
  {
    var reply := env.reply(w.calls);
    Append(TransmitFrom(env, Ticked(env, w), s, |w.Of(s).ops|, reply.outs, 0), s, NewOp(env, w, head, ret), reply.words)
  }

  function Call(env: Env, w: World, s: Side, head: Head): World { CallAs(env, w, s, head, Ret(env, w)) }

  predicate InStep(pp: nat, aSent: nat, bSent: nat) { bSent <= aSent <= bSent + pp }

  function SendCall(env: Env, w: World, s: Side, n: nat): World {
    var called := Call(env, w, s, Head.Send(n));
    var after := if Ret(env, w) == 0 then called.With(s, called.Of(s).(sent := called.Of(s).sent + n)) else called;
    after.(watch := after.watch.(inStep := after.watch.inStep && InStep(env.cfg.pingPong, after.a.sent, after.b.sent)))
  }

  function RecvCall(env: Env, w: World, s: Side, n: nat): World {
    var ret := Ret(env, w);
    var called := Call(env, w, s, Recv(n));
    if ret <= 0 then called
    else
      var e := called.Of(s);
      var after := called.With(s, e.(got := e.got + ret));
      after.(watch := after.watch.(inOrder := after.watch.inOrder && after.Of(s).got <= after.Of(s.Peer()).sent))
  }

  /** The return value of Flush is a uint32. */
  function FlushRet(env: Env, w: World): nat { Ret(env, w) % 0x1_0000_0000 }

  // ---------- The application ----------

  predicate Stalled(cfg: SideConfig, now: nat) { cfg.stallTo > cfg.stallFrom && cfg.stallFrom <= now < cfg.stallTo }

  function CountIdle(w: World, s: Side): World { w.With(s, w.Of(s).(idleReads := w.Of(s).idleReads + 1)) }

  function IdleRead(env: Env, w: World, s: Side): World {
    var counted := CountIdle(w, s);
    if (w.Of(s).idleReads + 1) % 8 == 1 then RecvCall(env, counted, s, env.cfg.SideOf(s).readBuf) else counted
  }

  function ReadOne(env: Env, w: World, s: Side, n: nat): World {
    var buf := env.cfg.SideOf(s).readBuf;
    var read := RecvCall(env, w, s, buf);
    if n > buf then RecvCall(env, read, s, n) else read
  }

  /** The reader's loop from the i-th message of its burst on. */
  function ReadFrom(env: Env, w: World, s: Side, burst: Burst, i: nat): World
    decreases |burst.sizes| - i
  {
    var peeked := CallAs(env, w, s, Head.Peek, burst.Peek(i));
    if i >= |burst.sizes| then IdleRead(env, peeked, s)
    else ReadFrom(env, ReadOne(env, peeked, s, burst.sizes[i]), s, burst, i + 1)
  }

  /** The reader's whole loop. */
  function Drained(env: Env, w: World, s: Side, burst: Burst): World { ReadFrom(env, w, s, burst, 0) }

  function NextBurst(w: World): World { w.(bursts := w.bursts + 1) }

  function Read(env: Env, w: World, s: Side): World {
    if Stalled(env.cfg.SideOf(s), w.now) then w else Drained(env, NextBurst(w), s, env.burst(w.bursts))
  }

  /** How many whole messages of pp bytes fit in n. */
  function Messages(n: nat, pp: pos): nat { n / pp }

  predicate CanWrite(env: Env, w: World, s: Side) {
    var e := w.Of(s);
    && e.writes != [] && w.now >= env.cfg.SideOf(s).writeFrom
    && (env.cfg.pingPong > 0 ==>
          var pp: pos := env.cfg.pingPong;
          e.got >= (if s == A then Messages(e.sent, pp) else Messages(e.sent, pp) + 1) * pp)
  }

  function Sending(env: Env, s: Side): (World, nat) -> World { (w: World, n: nat) => SendCall(env, w, s, n) }

  /** n bytes in pieces of at most mss. */
  function Split(send: (World, nat) -> World, mss: pos, w: World, n: nat): World
    decreases n
  {
    if n == 0 then w else Split(send, mss, send(w, Min(n, mss)), n - Min(n, mss))
  }

  lemma SplitOnce(send: (World, nat) -> World, mss: pos, w: World, n: pos)
    ensures Split(send, mss, w, n) == Split(send, mss, send(w, Min(n, mss)), n - Min(n, mss))
  {
  }

  /** From w, with n bytes left, the pieces end in `end`. */
  ghost predicate SplitsTo(send: (World, nat) -> World, mss: pos, w: World, n: nat, end: World) {
    Split(send, mss, w, n) == end
  }

  lemma SplitUnrolls(send: (World, nat) -> World, mss: pos, w: World, n: pos, end: World)
    requires SplitsTo(send, mss, w, n, end)
    ensures SplitsTo(send, mss, send(w, Min(n, mss)), n - Min(n, mss), end)
  {
    SplitOnce(send, mss, w, n);
  }

  /** What holds with n bytes left, and every piece keeps, holds with none left. */
  lemma {:induction false} SplitCounts(send: (World, nat) -> World, mss: pos, inv: (World, nat) -> bool, w: World, n: nat)
    requires inv(w, n)
    requires forall u: World, left: nat, c: pos {:trigger inv(u, left), send(u, c)} ::
               c <= left && inv(u, left) ==> inv(send(u, c), left - c)
    ensures inv(Split(send, mss, w, n), 0)
    decreases n
  {
    if n > 0 { SplitCounts(send, mss, inv, send(w, Min(n, mss)), n - Min(n, mss)); }
  }

  lemma SplitKeeps(send: (World, nat) -> World, mss: pos, inv: World -> bool, w: World, n: nat)
    requires inv(w) && forall u: World, c: nat :: inv(u) ==> inv(send(u, c))
    ensures inv(Split(send, mss, w, n))
  {
    SplitCounts(send, mss, (u: World, left: nat) => inv(u), w, n);
  }

  lemma SplitKeepsPlan(env: Env, w: World, s: Side, n: nat)
    ensures Split(Sending(env, s), w.Of(s).mss, w, n).Of(s).writes == w.Of(s).writes
  {
    SplitKeeps(Sending(env, s), w.Of(s).mss, (u: World) => u.Of(s).writes == w.Of(s).writes, w, n);
  }

  /** The pieces of one write. Sending does not change the mss. */
  function Pieces(env: Env, w: World, s: Side, n: nat): (r: World)
    ensures r.Of(s).writes == w.Of(s).writes
  {
    SplitKeepsPlan(env, w, s, n);
    Split(Sending(env, s), w.Of(s).mss, w, n)
  }

  function TakeWrite(w: World, s: Side): World
    requires w.Of(s).writes != []
  {
    w.With(s, w.Of(s).(writes := w.Of(s).writes[1..]))
  }

  function SendMessage(env: Env, w: World, s: Side, n: nat): (r: World)
    ensures r.Of(s).writes == w.Of(s).writes
  {
    if env.cfg.SideOf(s).noSplit then SendCall(env, w, s, n) else Pieces(env, w, s, n)
  }

  /** One write, whole or in pieces; the observer notes whether it was sent in part only. */
  function WriteMessage(env: Env, w: World, s: Side): (r: World)
    requires w.Of(s).writes != []
    ensures r.Of(s).writes == w.Of(s).writes[1..]
  {
    var before, n := w.Of(s).sent, w.Of(s).writes[0];
    var sent := SendMessage(env, TakeWrite(w, s), s, n);
    var whole := sent.Of(s).sent == before || sent.Of(s).sent == before + n;
    sent.(watch := sent.watch.(whole := sent.watch.whole && whole))
  }

  /** One turn of the writer's loop past its window check: the message, then WaitSnd and Flush. */
  function OneWrite(env: Env, w: World, s: Side): (r: World)
    requires w.Of(s).writes != []
    ensures r.Of(s).writes == w.Of(s).writes[1..]
  {
    var sent := WriteMessage(env, w, s);
    Call(env, Call(env, sent, s, Head.WaitSnd), s, Head.Flush)
  }

  function Write(env: Env, w: World, s: Side): World
    decreases |w.Of(s).writes|
  {
    if !CanWrite(env, w, s) then w
    else
      var asked := Call(env, w, s, Head.WaitSnd);
      if Ret(env, w) >= asked.Of(s).words.sndWnd then asked else Write(env, OneWrite(env, asked, s), s)
  }

  // ---------- Events ----------

  /** The signed 32-bit difference of two clock values. */
  function Itimediff(later: int, earlier: int): int {
    var d := (later - earlier) % 0x1_0000_0000;
    if d < 0x8000_0000 then d else d - 0x1_0000_0000
  }

  function Armed(w: World, s: Side, at: nat): World { w.With(s, w.Of(s).(nextTimer := at)) }

  function UpdateTimer(env: Env, w: World, s: Side): World {
    var updated := Call(env, w, s, Update);
    var checked := Call(env, updated, s, Check);
    var d := Itimediff(Ret(env, updated), Clock(env.cfg, checked.now));
    Armed(checked, s, checked.now + Max(d, 1))
  }

  function FlushTimer(env: Env, w: World, s: Side): World {
    var flushed := Call(env, w, s, Head.Flush);
    Armed(flushed, s, (if env.cfg.lateNow then flushed.now else w.now) + FlushRet(env, w))
  }

  function Timer(env: Env, w: World, s: Side): World {
    Write(env, if env.cfg.useUpdate then UpdateTimer(env, w, s) else FlushTimer(env, w, s), s)
  }

  function InputHead(env: Env, d: Delivery): Head {
    Input(d.origin, d.data, d.fec, env.cfg.SideOf(d.to).ackNoDelay)
  }

  function Counted(w: World, d: Delivery): World {
    if d.origin.Crafted? then w.(pendingRaw := w.pendingRaw - 1) else w
  }

  function HandleInput(env: Env, w: World, d: Delivery): World {
    Write(env, Read(env, Call(env, w, d.to, InputHead(env, d)), d.to), d.to)
  }

  /** deliver, with the packet already out of the queue. */
  function Deliver(env: Env, w: World, d: Delivery): World { HandleInput(env, Counted(w, d), d) }

  function StallEnd(cfg: SideConfig, now: nat, next: nat): nat {
    if cfg.stallTo > cfg.stallFrom && cfg.stallTo > now then Min(next, cfg.stallTo) else next
  }

  /** When the next event is due. */
  function NextAt(env: Env, w: World): nat {
    var timers := Min(w.a.nextTimer, w.b.nextTimer);
    var queued := if w.queue != [] then Min(timers, w.queue[0].at) else timers;
    StallEnd(env.cfg.b, w.now, StallEnd(env.cfg.a, w.now, queued))
  }

  function Advance(env: Env, w: World): World { w.(now := Max(w.now, NextAt(env, w))) }

  predicate DeliveryDue(w: World) { w.queue != [] && w.queue[0].at <= w.now }

  function TakeNext(w: World): World
    requires w.queue != []
  {
    w.(queue := Popped(w.queue), arrivals := w.arrivals + [Arrival(w.queue[0], w.now)])
  }

  function StallsEnded(env: Env, w: World): World {
    var first := if env.cfg.a.stallTo == w.now then Read(env, w, A) else w;
    if env.cfg.b.stallTo == first.now then Read(env, first, B) else first
  }

  function Event(env: Env, w: World): World {
    if DeliveryDue(w) then Deliver(env, TakeNext(w), w.queue[0])
    else if w.a.nextTimer <= w.now then Timer(env, w, A)
    else if w.b.nextTimer <= w.now then Timer(env, w, B)
    else StallsEnded(env, w)
  }

  predicate Done(env: Env, w: World) {
    if env.cfg.toDead then w.a.words.dead
    else
      && w.pendingRaw == 0 && w.a.writes == [] && w.b.writes == []
      && w.b.got == w.a.sent && w.a.got == w.b.sent
      && w.a.words.waiting == 0 && w.b.words.waiting == 0
  }

  /** Where the event loop stands: done, past the time limit, or still going. */
  datatype Outcome = Finished(w: World) | TimedOut(w: World) | Running(w: World)

  /** One turn of the event loop: its guard, the advance of the clock, the limit, one event. */
  function Turn(env: Env, w: World): Outcome {
    if Done(env, w) then Finished(w)
    else
      var next := Advance(env, w);
      if next.now > env.cfg.limit then TimedOut(next) else Running(Event(env, next))
  }

  function Standing(done: bool, late: bool, w: World): Outcome {
    if done then Finished(w) else if late then TimedOut(w) else Running(w)
  }

  function Turns(env: Env): World -> Outcome { w => Turn(env, w) }

  /** Any number of turns. */
  function Run(turn: World -> Outcome, o: Outcome, turns: nat): Outcome
    decreases turns
  {
    if turns == 0 || !o.Running? then o else Run(turn, turn(o.w), turns - 1)
  }

  /** From o, `left` more turns end in `end`. */
  ghost predicate EndsIn(turn: World -> Outcome, o: Outcome, left: nat, end: Outcome) { Run(turn, o, left) == end }

  lemma NoTurnsOn(turn: World -> Outcome, o: Outcome, left: nat, end: Outcome)
    requires EndsIn(turn, o, left, end) && (left == 0 || !o.Running?)
    ensures end == o
  {
  }

  lemma OneTurnOn(turn: World -> Outcome, o: Outcome, left: nat, end: Outcome)
    requires EndsIn(turn, o, left, end) && o.Running? && left > 0
    ensures EndsIn(turn, turn(o.w), left - 1, end)
  {
  }

  /** What every turn keeps, every run keeps. */
  lemma {:induction false} RunKeeps(turn: World -> Outcome, inv: Outcome -> bool, o: Outcome, turns: nat)
    requires inv(o) && forall p: Outcome :: inv(p) && p.Running? ==> inv(turn(p.w))
    ensures inv(Run(turn, o, turns))
    decreases turns
  {
    if turns > 0 && o.Running? { RunKeeps(turn, inv, turn(o.w), turns - 1); }
  }

  // ---------- The start of a run ----------

  /** The sizes of the application's writes, from write number k on. */
  function Plan(cfg: Config, side: SideConfig, left: nat, k: nat): seq<nat>
    decreases left
  {
    if left == 0 then []
    else
      var n := PlanSize(cfg, side, left, k);
      [n] + Plan(cfg, side, left - n, k + 1)
  }

  function PlanSize(cfg: Config, side: SideConfig, left: pos, k: nat): (n: nat)
    ensures 1 <= n <= left
  {
    if cfg.pingPong > 0 then Min(left, cfg.pingPong)
    else if side.maxWrite > 0 then Min(left, 1 + Min(side.work(k), side.maxWrite - 1))
    else left
  }

  function NewEnd(cfg: Config, side: SideConfig): End {
    End([], Plan(cfg, side, side.writeBytes, 0), 0, 0, 0, 0, 1, Words(1, 0, 0, false))
  }

  function NewWorld(env: Env): World {
    World(0, 0, [], NewEnd(env.cfg, env.cfg.a), NewEnd(env.cfg, env.cfg.b), 0, 0, 0, 0, 0, [], [], Watch(true, true, true))
  }

  function CallIf(env: Env, w: World, s: Side, head: Head, wanted: bool): World {
    if wanted then Call(env, w, s, head) else w
  }

  function ExtraSends(env: Env, w: World, s: Side, i: nat): World
    decreases |env.cfg.SideOf(s).extraSends| - i
  {
    var sizes := env.cfg.SideOf(s).extraSends;
    if i >= |sizes| then w else ExtraSends(env, SendCall(env, w, s, sizes[i]), s, i + 1)
  }

  function NoDelayHead(c: SideConfig): Head { NoDelay(if c.noDelay.Some? then c.noDelay.value else []) }

  /** The setters that are called only when configured. */
  function Settings(env: Env, w: World, s: Side): World {
    var c := env.cfg.SideOf(s);
    var sized := CallIf(env, w, s, SetMtu(c.mtu), c.mtu != 0);
    var quick := CallIf(env, sized, s, NoDelayHead(c), c.noDelay.Some?);
    CallIf(env, quick, s, WndSize(c.sndWnd, c.rcvWnd), c.sndWnd != 0 || c.rcvWnd != 0)
  }

  /** The stream setter, after which the engine's mss is final. */
  function Streamed(env: Env, w: World, s: Side): World {
    var streamed := Call(env, w, s, Stream(env.cfg.SideOf(s).stream));
    streamed.With(s, streamed.Of(s).(mss := streamed.Of(s).words.mss))
  }

  function Configure(env: Env, w: World, s: Side): World {
    var streamed := Streamed(env, Settings(env, w, s), s);
    var extra := ExtraSends(env, CallIf(env, streamed, s, Check, env.cfg.useUpdate), s, 0);
    Armed(extra, s, extra.now)
  }

  /** Crafted packet k for one endpoint. */
  function CraftedPacket(cfg: Config, num: nat, k: nat, s: Side): Delivery
    requires k < |cfg.garbage|
  {
    Delivery(5 + 7 * k + if s == A then 0 else 3, num, s, Crafted, cfg.garbage[k], false)
  }

  /** The counter advances before it is used. */
  function PushCrafted(env: Env, w: World, k: nat, s: Side): World
    requires k < |env.cfg.garbage|
  {
    Enqueue(w, CraftedPacket(env.cfg, w.nextNum + 1, k, s)).(pendingRaw := w.pendingRaw + 1)
  }

  function PushBoth(env: Env, w: World, k: nat): World
    requires k < |env.cfg.garbage|
  {
    PushCrafted(env, PushCrafted(env, w, k, A), k, B)
  }

  function Crafting(env: Env): (World, nat) -> World {
    (w: World, k: nat) => if k < |env.cfg.garbage| then PushBoth(env, w, k) else w
  }

  /** Step k, k + 1, … n - 1. */
  function Repeat(step: (World, nat) -> World, w: World, k: nat, n: nat): World
    decreases n - k
  {
    if k >= n then w else Repeat(step, step(w, k), k + 1, n)
  }

  lemma {:induction false} RepeatKeeps(step: (World, nat) -> World, inv: World -> bool, w: World, k: nat, n: nat)
    requires inv(w) && forall u: World, j: nat :: inv(u) && j < n ==> inv(step(u, j))
    ensures inv(Repeat(step, w, k, n))
    decreases n - k
  {
    if k < n { RepeatKeeps(step, inv, step(w, k), k + 1, n); }
  }

  /** Crafted packets k, k + 1, … for both endpoints. */
  function PushGarbage(env: Env, w: World, k: nat): World { Repeat(Crafting(env), w, k, |env.cfg.garbage|) }

  function Start(env: Env): World { PushGarbage(env, Configure(env, Configure(env, NewWorld(env), A), B), 0) }

  /** What a run of this configuration is after some turns. */
  function After(env: Env, turns: nat): Outcome { Run(Turns(env), Running(Start(env)), turns) }
}
