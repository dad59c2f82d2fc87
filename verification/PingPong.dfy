/**
 * The ping-pong application protocol on top of the trace simulator: a sends message i once it has
 * i answers, b answers message j once it has it. As long as no reader gets ahead of its peer and no
 * message is sent in part only, a is never behind b and never more than one message ahead, after
 * every single Send of every run.
 */
module PingPong {
  import opened Helpers
  import opened DeliveryHeap
  import opened KcpTrace

  // The part of an endpoint that counts bytes.
  datatype Share = Share(sent: nat, got: nat, writes: seq<nat>, mss: pos)

  datatype Bytes = Bytes(a: Share, b: Share, watch: Watch, allSent: bool) {
    function Of(s: Side): Share { if s == A then a else b }
    function With(s: Side, e: Share): Bytes { if s == A then this.(a := e) else this.(b := e) }
  }

  /** Every Send on this trace returned 0. */
  ghost predicate AllSent(ops: seq<Op>) { forall op :: op in ops && op.head.Send? ==> op.ret == 0 }

  function ShareOf(e: End): Share { Share(e.sent, e.got, e.writes, e.mss) }

  ghost function BytesOf(w: World): Bytes {
    Bytes(ShareOf(w.a), ShareOf(w.b), w.watch, AllSent(w.a.ops) && AllSent(w.b.ops))
  }

  /** n more bytes of s were sent. */
  function Sent(pp: nat, y: Bytes, s: Side, n: nat, ok: bool): Bytes {
    var e := y.Of(s);
    var z := if ok then y.With(s, e.(sent := e.sent + n)) else y;
    z.(watch := z.watch.(inStep := z.watch.inStep && InStep(pp, z.a.sent, z.b.sent)), allSent := y.allSent && ok)
  }

  /** s received n more bytes. */
  function Got(y: Bytes, s: Side, n: nat): Bytes {
    if n == 0 then y
    else
      var z := y.With(s, y.Of(s).(got := y.Of(s).got + n));
      z.(watch := z.watch.(inOrder := z.watch.inOrder && z.Of(s).got <= z.Of(s.Peer()).sent))
  }

  // ---------- What calls do to the bytes ----------

  lemma AllSentSnoc(ops: seq<Op>, op: Op)
    ensures AllSent(ops + [op]) <==> AllSent(ops) && (op.head.Send? ==> op.ret == 0)
  {
    assert op in ops + [op];
    assert forall x :: x in ops ==> x in ops + [op];
  }

  lemma CallBytes(env: Env, w: World, s: Side, head: Head, ret: int)
    ensures BytesOf(CallAs(env, w, s, head, ret)) ==
            BytesOf(w).(allSent := BytesOf(w).allSent && (head.Send? ==> ret == 0))
  {
    AllSentSnoc(w.Of(s).ops, NewOp(env, w, head, ret));
  }

  lemma SendBytes(env: Env, w: World, s: Side, n: nat)
    ensures BytesOf(SendCall(env, w, s, n)) == Sent(env.cfg.pingPong, BytesOf(w), s, n, Ret(env, w) == 0)
  {
    CallBytes(env, w, s, Head.Send(n), Ret(env, w));
  }

  lemma RecvBytes(env: Env, w: World, s: Side, n: nat)
    ensures BytesOf(RecvCall(env, w, s, n)) == Got(BytesOf(w), s, if Ret(env, w) > 0 then Ret(env, w) else 0)
  {
    CallBytes(env, w, s, Recv(n), Ret(env, w));
  }

  // ---------- The invariant ----------

  /** Messages of pp bytes, the last one perhaps shorter. */
  ghost predicate Messages(pp: pos, writes: seq<nat>) {
    forall i :: 0 <= i < |writes| ==> 0 < writes[i] <= pp && (i + 1 < |writes| ==> writes[i] == pp)
  }

  /** Every message of both sides goes out in a single piece. */
  predicate OnePiece(env: Env, y: Bytes) {
    && (env.cfg.a.noSplit || env.cfg.pingPong <= y.a.mss)
    && (env.cfg.b.noSplit || env.cfg.pingPong <= y.b.mss)
  }

  /** No message of this side is ever cut into pieces. */
  predicate CannotSplit(c: SideConfig, pp: pos) { c.noSplit || pp == 1 }

  /** The configurations in which no run that is in order can get out of step. */
  predicate Safe(cfg: Config, pp: pos) {
    && (CannotSplit(cfg.a, pp) || cfg.a.writeBytes <= pp + 1)
    && (CannotSplit(cfg.b, pp) || cfg.b.writeBytes <= pp + 1 || cfg.a.writeBytes < pp)
  }

  /** At most one message is left, or one whole message and one byte before anything was sent. */
  predicate Brief(pp: pos, e: Share) { |e.writes| <= 1 || (e.writes == [pp, 1] && e.sent == 0) }

  /** This side never sends a whole message. */
  predicate Starving(pp: pos, e: Share) {
    e.sent < pp && |e.writes| <= 1 && (e.writes != [] ==> e.sent + e.writes[0] < pp)
  }

  predicate Spared(cfg: Config, pp: pos, y: Bytes) {
    && (CannotSplit(cfg.a, pp) || Brief(pp, y.a))
    && (CannotSplit(cfg.b, pp) || Brief(pp, y.b) || Starving(pp, y.a))
  }

  /** Between messages: whole messages were sent, or only one last byte is left. */
  predicate Ready(pp: pos, e: Share) { e.writes == [] || e.sent % pp == 0 || (e.writes == [1] && e.sent <= pp) }

  predicate Good(cfg: Config, pp: pos, watch: Watch) { watch.inOrder && (watch.whole || Safe(cfg, pp)) }

  ghost predicate Lockstep(env: Env, pp: pos, y: Bytes) {
    && Messages(pp, y.a.writes) && Messages(pp, y.b.writes)
    && (y.allSent || OnePiece(env, y) ==> y.watch.whole)
    && (Safe(env.cfg, pp) ==> Spared(env.cfg, pp, y))
    && (Good(env.cfg, pp, y.watch) ==>
          && y.watch.inStep && InStep(pp, y.a.sent, y.b.sent)
          && y.a.got <= y.b.sent && y.b.got <= y.a.sent
          && Ready(pp, y.a) && Ready(pp, y.b))
  }

  /** There is room for `left` more bytes of s. */
  predicate Room(env: Env, pp: pos, y: Bytes, s: Side, left: nat) {
    Good(env.cfg, pp, y.watch) ==>
      && y.watch.inStep && InStep(pp, y.a.sent, y.b.sent)
      && (if s == A then y.a.sent + left <= y.b.sent + pp else y.b.sent + left <= y.a.sent)
  }

  /** From y to z only s has sent, at most n bytes, and all n if every Send succeeded. */
  predicate Progress(y: Bytes, z: Bytes, s: Side, n: nat) {
    && z.Of(s.Peer()) == y.Of(s.Peer()) && z.Of(s) == y.Of(s).(sent := z.Of(s).sent)
    && y.Of(s).sent <= z.Of(s).sent <= y.Of(s).sent + n
    && (z.allSent ==> y.allSent && z.Of(s).sent == y.Of(s).sent + n)
    && z.watch == y.watch.(inStep := z.watch.inStep)
  }

  lemma WholeMultiple(n: nat, pp: pos)
    requires n % pp == 0
    ensures KcpTrace.Messages(n, pp) * pp == n && (n + pp) % pp == 0
    ensures (KcpTrace.Messages(n, pp) + 1) * pp == n + pp
  {
    var q := n / pp;
    assert n == q * pp;
    assert (q + 1) * pp == n + pp;
    DivModUnique(n + pp, pp, q + 1, 0);
  }

  /** Up to pp bytes are one message at most, and one exactly when they are pp. */
  lemma FewMessages(n: nat, pp: pos)
    requires n <= pp
    ensures KcpTrace.Messages(n, pp) == if n == pp then 1 else 0
  {
    if n == pp { DivModUnique(n, pp, 1, 0); } else { DivModUnique(n, pp, 0, n); }
  }

  /** The gate opens only when the next message has room. */
  lemma GateGivesRoom(env: Env, pp: pos, w: World, s: Side)
    requires env.cfg.pingPong == pp && Lockstep(env, pp, BytesOf(w)) && CanWrite(env, w, s)
    ensures Room(env, pp, BytesOf(w), s, w.Of(s).writes[0])
  {
    var y := BytesOf(w);
    var e := y.Of(s);
    assert e.writes[0] <= pp;
    if Good(env.cfg, pp, y.watch) {
      if e.sent % pp == 0 {
        WholeMultiple(e.sent, pp);
      } else {
        assert e.writes == [1] && e.sent <= pp;
        FewMessages(e.sent, pp);
      }
    }
  }

  lemma SendKeepsRoom(env: Env, pp: pos, y: Bytes, s: Side, left: nat, c: nat, ok: bool)
    requires Room(env, pp, y, s, left) && c <= left
    ensures Room(env, pp, Sent(pp, y, s, c, ok), s, left - c) && Progress(y, Sent(pp, y, s, c, ok), s, c)
  {
  }

  lemma ProgressAdds(x: Bytes, y: Bytes, z: Bytes, s: Side, m: nat, n: nat)
    requires Progress(x, y, s, m) && Progress(y, z, s, n)
    ensures Progress(x, z, s, m + n)
  {
  }

  /** From y to z only s has sent, up to n bytes, and room for `left` more remains. */
  predicate Along(env: Env, pp: pos, y: Bytes, z: Bytes, s: Side, n: nat, left: nat) {
    Room(env, pp, z, s, left) && Progress(y, z, s, n)
  }

  lemma AlongAdds(env: Env, pp: pos, x: Bytes, y: Bytes, s: Side, n: nat, left: nat, c: nat, ok: bool)
    requires Along(env, pp, x, y, s, n, left) && c <= left
    ensures Along(env, pp, x, Sent(pp, y, s, c, ok), s, n + c, left - c)
  {
    SendKeepsRoom(env, pp, y, s, left, c, ok);
    ProgressAdds(x, y, Sent(pp, y, s, c, ok), s, n, c);
  }

  lemma SendProgress(env: Env, pp: pos, x: Bytes, w: World, s: Side, n: nat, left: nat, c: nat)
    requires env.cfg.pingPong == pp && Along(env, pp, x, BytesOf(w), s, n, left) && c <= left
    ensures Along(env, pp, x, BytesOf(SendCall(env, w, s, c)), s, n + c, left - c)
  {
    SendBytes(env, w, s, c);
    AlongAdds(env, pp, x, BytesOf(w), s, n, left, c, Ret(env, w) == 0);
  }

  lemma AlongSelf(env: Env, pp: pos, y: Bytes, s: Side, left: nat)
    requires Room(env, pp, y, s, left)
    ensures Along(env, pp, y, y, s, 0, left)
  {
  }

  /** With `left` of n bytes still to go, s has come along since x. */
  ghost predicate Underway(env: Env, pp: pos, x: Bytes, s: Side, n: nat, u: World, left: nat) {
    left <= n && Along(env, pp, x, BytesOf(u), s, n - left, left)
  }

  lemma PieceKeepsUnderway(env: Env, pp: pos, x: Bytes, s: Side, n: nat, u: World, left: nat, c: pos)
    requires env.cfg.pingPong == pp && Underway(env, pp, x, s, n, u, left) && c <= left
    ensures Underway(env, pp, x, s, n, Sending(env, s)(u, c), left - c)
  {
    SendProgress(env, pp, x, u, s, n - left, left, c);
  }

  /** The pieces of a message move its sender forward by no more than the message. */
  lemma PiecesProgress(env: Env, pp: pos, w: World, s: Side, n: nat)
    requires env.cfg.pingPong == pp && Room(env, pp, BytesOf(w), s, n)
    ensures Along(env, pp, BytesOf(w), BytesOf(Pieces(env, w, s, n)), s, n, 0)
  {
    var x := BytesOf(w);
    var inv := (u: World, left: nat) => Underway(env, pp, x, s, n, u, left);
    AlongSelf(env, pp, x, s, n);
    forall u: World, left: nat, c: pos | c <= left && inv(u, left) ensures inv(Sending(env, s)(u, c), left - c) {
      PieceKeepsUnderway(env, pp, x, s, n, u, left, c);
    }
    SplitCounts(Sending(env, s), w.Of(s).mss, inv, w, n);
    assert Underway(env, pp, x, s, n, Pieces(env, w, s, n), 0);
  }

  lemma OnePieceIsOneSend(env: Env, w: World, s: Side, n: nat)
    requires 0 < n <= w.Of(s).mss
    ensures Pieces(env, w, s, n) == SendCall(env, w, s, n)
  {
    var sent := Sending(env, s)(w, n);
    assert Split(Sending(env, s), w.Of(s).mss, sent, 0) == sent;
  }

  function Taking(y: Bytes, s: Side): Bytes
    requires y.Of(s).writes != []
  {
    y.With(s, y.Of(s).(writes := y.Of(s).writes[1..]))
  }

  /** The message is counted as whole or not. */
  function Closed(y: Bytes, z: Bytes, s: Side, n: nat): Bytes {
    z.(watch := z.watch.(whole := z.watch.whole && (z.Of(s).sent == y.Of(s).sent || z.Of(s).sent == y.Of(s).sent + n)))
  }

  lemma MessagesTail(pp: pos, writes: seq<nat>)
    requires Messages(pp, writes) && writes != []
    ensures Messages(pp, writes[1..]) && (writes[1..] != [] ==> writes[0] == pp)
  {
    assert forall i :: 0 <= i < |writes| - 1 ==> writes[1..][i] == writes[i + 1];
  }

  lemma MessageKeepsReady(env: Env, pp: pos, y: Bytes, z: Bytes, s: Side, whole: bool)
    requires Lockstep(env, pp, y) && y.Of(s).writes != [] && Good(env.cfg, pp, y.watch)
    requires Room(env, pp, y, s, y.Of(s).writes[0]) && Progress(Taking(y, s), z, s, y.Of(s).writes[0])
    requires whole || (Safe(env.cfg, pp) && CannotSplit(env.cfg.SideOf(s), pp)) ==>
               z.Of(s).sent == y.Of(s).sent || z.Of(s).sent == y.Of(s).sent + y.Of(s).writes[0]
    requires whole || Safe(env.cfg, pp)
    ensures Ready(pp, z.Of(s))
  {
    var e := y.Of(s);
    MessagesTail(pp, e.writes);
    if z.Of(s).writes != [] {
      assert e.writes[0] == pp && e.sent % pp == 0;
      WholeMultiple(e.sent, pp);
    }
  }

  lemma TakingKeepsSpared(cfg: Config, pp: pos, y: Bytes, z: Bytes, s: Side)
    requires Spared(cfg, pp, y) && y.Of(s).writes != [] && Progress(Taking(y, s), z, s, y.Of(s).writes[0])
    ensures Spared(cfg, pp, z)
  {
  }

  lemma ClosedKeepsLockstep(env: Env, pp: pos, y: Bytes, z: Bytes, s: Side)
    requires env.cfg.pingPong == pp && Lockstep(env, pp, y) && y.Of(s).writes != []
    requires Room(env, pp, y, s, y.Of(s).writes[0])
    requires Room(env, pp, z, s, 0) && Progress(Taking(y, s), z, s, y.Of(s).writes[0])
    requires OnePiece(env, y) || CannotSplit(env.cfg.SideOf(s), pp) ==>
               z.Of(s).sent == y.Of(s).sent || z.Of(s).sent == y.Of(s).sent + y.Of(s).writes[0]
    ensures Lockstep(env, pp, Closed(y, z, s, y.Of(s).writes[0]))
  {
    var r := Closed(y, z, s, y.Of(s).writes[0]);
    MessagesTail(pp, y.Of(s).writes);
    if Safe(env.cfg, pp) { TakingKeepsSpared(env.cfg, pp, y, z, s); }
    if Good(env.cfg, pp, r.watch) { MessageKeepsReady(env, pp, y, z, s, r.watch.whole); }
  }

  lemma TakenBytes(w: World, s: Side)
    requires w.Of(s).writes != []
    ensures BytesOf(TakeWrite(w, s)) == Taking(BytesOf(w), s)
  {
  }

  lemma MessageBytes(env: Env, w: World, s: Side)
    requires w.Of(s).writes != []
    ensures var sent := SendMessage(env, TakeWrite(w, s), s, w.Of(s).writes[0]);
            BytesOf(WriteMessage(env, w, s)) == Closed(BytesOf(w), BytesOf(sent), s, w.Of(s).writes[0])
  {
  }

  /** A message sent in one or more pieces makes progress, and in one piece it is all or nothing. */
  lemma SendMessageProgress(env: Env, pp: pos, w: World, s: Side, n: pos)
    requires env.cfg.pingPong == pp && Room(env, pp, BytesOf(w), s, n)
    ensures var y, z := BytesOf(w), BytesOf(SendMessage(env, w, s, n));
            && Room(env, pp, z, s, 0) && Progress(y, z, s, n)
            && (env.cfg.SideOf(s).noSplit || n <= w.Of(s).mss ==>
                  z.Of(s).sent == y.Of(s).sent || z.Of(s).sent == y.Of(s).sent + n)
  {
    SendProgress(env, pp, BytesOf(w), w, s, 0, n, n);
    SendBytes(env, w, s, n);
    if !env.cfg.SideOf(s).noSplit {
      PiecesProgress(env, pp, w, s, n);
      if n <= w.Of(s).mss { OnePieceIsOneSend(env, w, s, n); }
    }
  }

  lemma TakingKeepsRoom(env: Env, pp: pos, y: Bytes, s: Side, n: nat)
    requires Room(env, pp, y, s, n) && y.Of(s).writes != []
    ensures Room(env, pp, Taking(y, s), s, n)
  {
  }

  lemma MessageKeepsLockstep(env: Env, pp: pos, w: World, s: Side)
    requires env.cfg.pingPong == pp && Lockstep(env, pp, BytesOf(w)) && w.Of(s).writes != []
    requires Room(env, pp, BytesOf(w), s, w.Of(s).writes[0])
    ensures Lockstep(env, pp, BytesOf(WriteMessage(env, w, s)))
  {
    var taken := TakeWrite(w, s);
    var n := w.Of(s).writes[0];
    assert n == BytesOf(w).Of(s).writes[0] && 0 < n <= pp;
    TakenBytes(w, s);
    TakingKeepsRoom(env, pp, BytesOf(w), s, n);
    SendMessageProgress(env, pp, taken, s, n);
    ClosedKeepsLockstep(env, pp, BytesOf(w), BytesOf(SendMessage(env, taken, s, n)), s);
    MessageBytes(env, w, s);
  }

  lemma OneWriteBytes(env: Env, w: World, s: Side)
    requires w.Of(s).writes != []
    ensures BytesOf(OneWrite(env, w, s)) == BytesOf(WriteMessage(env, w, s))
  {
    var sent := WriteMessage(env, w, s);
    CallBytes(env, sent, s, Head.WaitSnd, Ret(env, sent));
    var waited := Call(env, sent, s, Head.WaitSnd);
    CallBytes(env, waited, s, Head.Flush, Ret(env, waited));
  }

  lemma {:induction false} WriteKeepsLockstep(env: Env, pp: pos, w: World, s: Side)
    requires env.cfg.pingPong == pp && Lockstep(env, pp, BytesOf(w))
    ensures Lockstep(env, pp, BytesOf(Write(env, w, s)))
    decreases |w.Of(s).writes|
  {
    if CanWrite(env, w, s) {
      var asked := Call(env, w, s, Head.WaitSnd);
      CallBytes(env, w, s, Head.WaitSnd, Ret(env, w));
      if Ret(env, w) < asked.Of(s).words.sndWnd {
        GateGivesRoom(env, pp, w, s);
        MessageKeepsLockstep(env, pp, asked, s);
        OneWriteBytes(env, asked, s);
        WriteKeepsLockstep(env, pp, OneWrite(env, asked, s), s);
      }
    }
  }

  // ---------- Readers ----------

  lemma GotKeepsLockstep(env: Env, pp: pos, y: Bytes, s: Side, n: nat)
    requires Lockstep(env, pp, y)
    ensures Lockstep(env, pp, Got(y, s, n))
  {
  }

  lemma RecvKeepsLockstep(env: Env, pp: pos, w: World, s: Side, n: nat)
    requires Lockstep(env, pp, BytesOf(w))
    ensures Lockstep(env, pp, BytesOf(RecvCall(env, w, s, n)))
  {
    RecvBytes(env, w, s, n);
    GotKeepsLockstep(env, pp, BytesOf(w), s, if Ret(env, w) > 0 then Ret(env, w) else 0);
  }

  lemma ReadOneKeepsLockstep(env: Env, pp: pos, w: World, s: Side, n: nat)
    requires Lockstep(env, pp, BytesOf(w))
    ensures Lockstep(env, pp, BytesOf(ReadOne(env, w, s, n)))
  {
    var buf := env.cfg.SideOf(s).readBuf;
    RecvKeepsLockstep(env, pp, w, s, buf);
    RecvKeepsLockstep(env, pp, RecvCall(env, w, s, buf), s, n);
  }

  lemma IdleReadKeepsLockstep(env: Env, pp: pos, w: World, s: Side)
    requires Lockstep(env, pp, BytesOf(w))
    ensures Lockstep(env, pp, BytesOf(IdleRead(env, w, s)))
  {
    assert BytesOf(CountIdle(w, s)) == BytesOf(w);
    RecvKeepsLockstep(env, pp, CountIdle(w, s), s, env.cfg.SideOf(s).readBuf);
  }

  lemma {:induction false} ReadFromKeepsLockstep(env: Env, pp: pos, w: World, s: Side, burst: Burst, i: nat)
    requires Lockstep(env, pp, BytesOf(w))
    ensures Lockstep(env, pp, BytesOf(ReadFrom(env, w, s, burst, i)))
    decreases |burst.sizes| - i
  {
    var peeked := CallAs(env, w, s, Head.Peek, burst.Peek(i));
    CallBytes(env, w, s, Head.Peek, burst.Peek(i));
    if i >= |burst.sizes| {
      IdleReadKeepsLockstep(env, pp, peeked, s);
    } else {
      var read := ReadOne(env, peeked, s, burst.sizes[i]);
      ReadOneKeepsLockstep(env, pp, peeked, s, burst.sizes[i]);
      ReadFromKeepsLockstep(env, pp, read, s, burst, i + 1);
    }
  }

  lemma ReadKeepsLockstep(env: Env, pp: pos, w: World, s: Side)
    requires Lockstep(env, pp, BytesOf(w))
    ensures Lockstep(env, pp, BytesOf(Read(env, w, s)))
  {
    var begun := NextBurst(w);
    assert BytesOf(begun) == BytesOf(w);
    ReadFromKeepsLockstep(env, pp, begun, s, env.burst(w.bursts), 0);
  }

  // ---------- Events and runs ----------

  lemma TimerBytes(env: Env, w: World, s: Side)
    ensures BytesOf(UpdateTimer(env, w, s)) == BytesOf(w) && BytesOf(FlushTimer(env, w, s)) == BytesOf(w)
  {
    CallBytes(env, w, s, Update, Ret(env, w));
    var updated := Call(env, w, s, Update);
    CallBytes(env, updated, s, Check, Ret(env, updated));
    CallBytes(env, w, s, Head.Flush, Ret(env, w));
  }

  lemma TimerKeepsLockstep(env: Env, pp: pos, w: World, s: Side)
    requires env.cfg.pingPong == pp && Lockstep(env, pp, BytesOf(w))
    ensures Lockstep(env, pp, BytesOf(Timer(env, w, s)))
  {
    TimerBytes(env, w, s);
    if env.cfg.useUpdate {
      WriteKeepsLockstep(env, pp, UpdateTimer(env, w, s), s);
    } else {
      WriteKeepsLockstep(env, pp, FlushTimer(env, w, s), s);
    }
  }

  lemma DeliverKeepsLockstep(env: Env, pp: pos, w: World, d: Delivery)
    requires env.cfg.pingPong == pp && Lockstep(env, pp, BytesOf(w))
    ensures Lockstep(env, pp, BytesOf(Deliver(env, w, d)))
  {
    var counted := Counted(w, d);
    assert BytesOf(counted) == BytesOf(w);
    CallBytes(env, counted, d.to, InputHead(env, d), Ret(env, counted));
    var called := Call(env, counted, d.to, InputHead(env, d));
    ReadKeepsLockstep(env, pp, called, d.to);
    WriteKeepsLockstep(env, pp, Read(env, called, d.to), d.to);
  }

  lemma StallsEndedKeepsLockstep(env: Env, pp: pos, w: World)
    requires Lockstep(env, pp, BytesOf(w))
    ensures Lockstep(env, pp, BytesOf(StallsEnded(env, w)))
  {
    ReadKeepsLockstep(env, pp, w, A);
    ReadKeepsLockstep(env, pp, if env.cfg.a.stallTo == w.now then Read(env, w, A) else w, B);
  }

  lemma EventKeepsLockstep(env: Env, pp: pos, w: World)
    requires env.cfg.pingPong == pp && Lockstep(env, pp, BytesOf(w))
    ensures Lockstep(env, pp, BytesOf(Event(env, w)))
  {
    if DeliveryDue(w) {
      assert BytesOf(TakeNext(w)) == BytesOf(w);
      DeliverKeepsLockstep(env, pp, TakeNext(w), w.queue[0]);
    } else if w.a.nextTimer <= w.now {
      TimerKeepsLockstep(env, pp, w, A);
    } else if w.b.nextTimer <= w.now {
      TimerKeepsLockstep(env, pp, w, B);
    } else {
      StallsEndedKeepsLockstep(env, pp, w);
    }
  }

  lemma TurnKeepsLockstep(env: Env, pp: pos, w: World)
    requires env.cfg.pingPong == pp && Lockstep(env, pp, BytesOf(w))
    ensures Lockstep(env, pp, BytesOf(Turn(env, w).w))
  {
    assert BytesOf(Advance(env, w)) == BytesOf(w);
    EventKeepsLockstep(env, pp, Advance(env, w));
  }

  // ---------- The start ----------

  lemma {:induction false} PlanIsMessages(cfg: Config, pp: pos, side: SideConfig, left: nat, k: nat)
    requires cfg.pingPong == pp
    ensures Messages(pp, Plan(cfg, side, left, k)) && (left > 0 ==> Plan(cfg, side, left, k) != [])
    ensures 0 < left <= pp ==> Plan(cfg, side, left, k) == [left]
    decreases left
  {
    if left > 0 {
      var n := PlanSize(cfg, side, left, k);
      PlanIsMessages(cfg, pp, side, left - n, k + 1);
      var rest := Plan(cfg, side, left - n, k + 1);
      assert left <= pp ==> rest == [];
      assert forall i :: 0 < i < 1 + |rest| ==> ([n] + rest)[i] == rest[i - 1];
    }
  }

  lemma PlanIsBrief(cfg: Config, pp: pos, side: SideConfig, left: nat)
    requires cfg.pingPong == pp && left <= pp + 1
    ensures var plan := Plan(cfg, side, left, 0); |plan| <= 1 || plan == [pp, 1]
  {
    PlanIsMessages(cfg, pp, side, left, 0);
    if left == pp + 1 {
      PlanIsMessages(cfg, pp, side, 1, 1);
      assert Plan(cfg, side, left, 0) == [pp] + Plan(cfg, side, 1, 1);
    }
  }

  lemma CallIfBytes(env: Env, w: World, s: Side, head: Head, wanted: bool)
    requires !head.Send?
    ensures BytesOf(CallIf(env, w, s, head, wanted)) == BytesOf(w)
  {
    CallBytes(env, w, s, head, Ret(env, w));
  }

  lemma SettingsBytes(env: Env, w: World, s: Side)
    ensures BytesOf(Settings(env, w, s)) == BytesOf(w)
  {
    var c := env.cfg.SideOf(s);
    CallIfBytes(env, w, s, SetMtu(c.mtu), c.mtu != 0);
    var sized := CallIf(env, w, s, SetMtu(c.mtu), c.mtu != 0);
    CallIfBytes(env, sized, s, NoDelayHead(c), c.noDelay.Some?);
    var quick := CallIf(env, sized, s, NoDelayHead(c), c.noDelay.Some?);
    CallIfBytes(env, quick, s, WndSize(c.sndWnd, c.rcvWnd), c.sndWnd != 0 || c.rcvWnd != 0);
  }

  /** Configuring an endpoint that has no extra sends only fixes its mss. */
  lemma ConfigureBytes(env: Env, w: World, s: Side)
    requires env.cfg.SideOf(s).extraSends == []
    ensures exists mss: pos :: BytesOf(Configure(env, w, s)) == BytesOf(w).With(s, BytesOf(w).Of(s).(mss := mss))
  {
    var set1 := Settings(env, w, s);
    SettingsBytes(env, w, s);
    CallBytes(env, set1, s, Stream(env.cfg.SideOf(s).stream), Ret(env, set1));
    var streamed := Streamed(env, set1, s);
    CallIfBytes(env, streamed, s, Check, env.cfg.useUpdate);
    var mss: pos := streamed.Of(s).mss;
    assert BytesOf(Configure(env, w, s)) == BytesOf(w).With(s, BytesOf(w).Of(s).(mss := mss));
  }

  lemma CraftedBytes(env: Env, w: World, k: nat, s: Side)
    requires k < |env.cfg.garbage|
    ensures BytesOf(PushCrafted(env, w, k, s)) == BytesOf(w)
  {
  }

  lemma BothBytes(env: Env, w: World, k: nat)
    ensures BytesOf(Crafting(env)(w, k)) == BytesOf(w)
  {
    if k < |env.cfg.garbage| {
      CraftedBytes(env, w, k, A);
      CraftedBytes(env, PushCrafted(env, w, k, A), k, B);
    }
  }

  lemma GarbageBytes(env: Env, w: World)
    ensures BytesOf(PushGarbage(env, w, 0)) == BytesOf(w)
  {
    var y := BytesOf(w);
    var inv := (u: World) => BytesOf(u) == y;
    forall u: World, k: nat | inv(u) && k < |env.cfg.garbage| ensures inv(Crafting(env)(u, k)) { BothBytes(env, u, k); }
    RepeatKeeps(Crafting(env), inv, w, 0, |env.cfg.garbage|);
  }

  /** Before anything is sent, a safe configuration is spared. */
  lemma PlansAreSpared(env: Env, pp: pos, y: Bytes)
    requires env.cfg.pingPong == pp && Safe(env.cfg, pp) && y.a.sent == 0
    requires y.a.writes == Plan(env.cfg, env.cfg.a, env.cfg.a.writeBytes, 0)
    requires y.b.writes == Plan(env.cfg, env.cfg.b, env.cfg.b.writeBytes, 0) && y.b.sent == 0
    ensures Spared(env.cfg, pp, y)
  {
    PlanIsMessages(env.cfg, pp, env.cfg.a, env.cfg.a.writeBytes, 0);
    if env.cfg.a.writeBytes <= pp + 1 { PlanIsBrief(env.cfg, pp, env.cfg.a, env.cfg.a.writeBytes); }
    if env.cfg.b.writeBytes <= pp + 1 { PlanIsBrief(env.cfg, pp, env.cfg.b, env.cfg.b.writeBytes); }
  }

  lemma StartBytes(env: Env)
    requires env.cfg.a.extraSends == [] && env.cfg.b.extraSends == []
    ensures var y, z := BytesOf(Start(env)), BytesOf(NewWorld(env));
            y == z.(a := z.a.(mss := y.a.mss), b := z.b.(mss := y.b.mss))
  {
    var w := NewWorld(env);
    ConfigureBytes(env, w, A);
    ConfigureBytes(env, Configure(env, w, A), B);
    GarbageBytes(env, Configure(env, Configure(env, w, A), B));
  }

  lemma StartIsLockstep(env: Env, pp: pos)
    requires env.cfg.pingPong == pp && env.cfg.a.extraSends == [] && env.cfg.b.extraSends == []
    ensures Lockstep(env, pp, BytesOf(Start(env)))
  {
    StartBytes(env);
    PlanIsMessages(env.cfg, pp, env.cfg.a, env.cfg.a.writeBytes, 0);
    PlanIsMessages(env.cfg, pp, env.cfg.b, env.cfg.b.writeBytes, 0);
    if Safe(env.cfg, pp) { PlansAreSpared(env, pp, BytesOf(Start(env))); }
  }

  lemma EveryRunIsLockstep(env: Env, pp: pos, turns: nat)
    requires env.cfg.pingPong == pp && env.cfg.a.extraSends == [] && env.cfg.b.extraSends == []
    ensures Lockstep(env, pp, BytesOf(After(env, turns).w))
  {
    StartIsLockstep(env, pp);
    var inv := (o: Outcome) => Lockstep(env, pp, BytesOf(o.w));
    forall p: Outcome | inv(p) && p.Running? ensures inv(Turns(env)(p.w)) { TurnKeepsLockstep(env, pp, p.w); }
    RunKeeps(Turns(env), inv, Running(Start(env)), turns);
  }

  // ---------- What the protocol promises ----------

  /** In every run in which no reader got ahead of its peer's sent bytes and no message was sent in
    * part only: a has never been behind b, nor more than one message ahead, not even between the
    * pieces of a message. */
  lemma NeverMoreThanOneAhead(env: Env, turns: nat)
    requires env.cfg.pingPong > 0 && env.cfg.a.extraSends == [] && env.cfg.b.extraSends == []
    ensures var w := After(env, turns).w;
            w.watch.inOrder && w.watch.whole ==>
              w.watch.inStep && w.b.sent <= w.a.sent <= w.b.sent + env.cfg.pingPong
  {
    EveryRunIsLockstep(env, env.cfg.pingPong, turns);
  }

  /** No message is sent in part only when every Send so far has succeeded, or when messages are
    * not split, or fit in one piece. */
  lemma WholeWhenSentOrSingle(env: Env, turns: nat)
    requires env.cfg.pingPong > 0 && env.cfg.a.extraSends == [] && env.cfg.b.extraSends == []
    ensures var w := After(env, turns).w;
            (AllSent(w.a.ops) && AllSent(w.b.ops)) || OnePiece(env, BytesOf(w)) ==> w.watch.whole
  {
    EveryRunIsLockstep(env, env.cfg.pingPong, turns);
  }

  /** A ping-pong configuration that is safe. */
  predicate Gentle(cfg: Config) {
    cfg.pingPong > 0 && cfg.a.extraSends == [] && cfg.b.extraSends == [] && Safe(cfg, cfg.pingPong)
  }

  /** A safe configuration needs no such condition: in every run in which no reader gets ahead, a
    * is never behind b nor more than one message ahead, whatever part of a message gets lost. */
  lemma SafeStaysInStep(env: Env, turns: nat)
    requires Gentle(env.cfg)
    ensures var w := After(env, turns).w;
            w.watch.inOrder ==> w.watch.inStep && w.b.sent <= w.a.sent <= w.b.sent + env.cfg.pingPong
  {
    EveryRunIsLockstep(env, env.cfg.pingPong, turns);
  }
}
