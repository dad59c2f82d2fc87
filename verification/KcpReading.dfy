/**
 * Every trace of every run is one that the reader of KcpReader accepts, and it reads off it exactly what
 * the endpoint has left to write, has sent, received and found. So a run that waits for its bytes ends
 * exactly when all of them have arrived.
 */
module KcpReading {
  import opened Helpers
  import opened DeliveryHeap
  import opened KcpTrace
  import opened KcpRuns
  import KcpCausality
  import R = KcpReader

  /** Reading the trace of s brings the reader to this phase, with the counts that the endpoint has. */
  ghost predicate At(cfg: Config, e: End, s: Side, m: pos, phase: R.Phase) {
    R.Read(R.RulesOf(cfg, s, m), R.Opened(cfg, s), e.ops) == Some(ReadingOf(e, phase))
  }

  function ReadingOf(e: End, phase: R.Phase): R.Reading { R.Reading(phase, e.writes, e.sent, e.got, e.idleReads) }

  /** From w to r only s has done anything, and before its writeFrom it has taken nothing off its plan. */
  predicate OnlyOf(env: Env, w: World, r: World, s: Side) {
    && r.Of(s.Peer()) == w.Of(s.Peer()) && r.now >= w.now
    && r.Of(s).mss == w.Of(s).mss && w.Of(s).ops <= r.Of(s).ops
    && (r.now < env.cfg.SideOf(s).writeFrom ==> r.Of(s).writes == w.Of(s).writes)
  }

  ghost predicate Moves(env: Env, w: World, r: World, s: Side, m: pos, phase: R.Phase) {
    OnlyOf(env, w, r, s) && At(env.cfg, r.Of(s), s, m, phase)
  }

  // ---------- One call ----------

  lemma ReadSnoc(r: R.Rules, start: R.Reading, ops: seq<Op>, op: Op)
    ensures R.Read(r, start, ops + [op]) ==
            match R.Read(r, start, ops) case None => None case Some(x) => R.Line(r, x, op)
  {
    assert (ops + [op])[..|ops|] == ops;
  }

  /** What the reader makes of the line a call adds. */
  function Next(env: Env, w: World, s: Side, m: pos, phase: R.Phase, head: Head, ret: int): Option<R.Reading> {
    R.Line(R.RulesOf(env.cfg, s, m), ReadingOf(w.Of(s), phase), NewOp(env, w, head, ret))
  }

  lemma CallReads(env: Env, w: World, s: Side, m: pos, phase: R.Phase, head: Head, ret: int)
    requires At(env.cfg, w.Of(s), s, m, phase)
    ensures R.Read(R.RulesOf(env.cfg, s, m), R.Opened(env.cfg, s), CallAs(env, w, s, head, ret).Of(s).ops)
         == Next(env, w, s, m, phase, head, ret)
  {
    ReadSnoc(R.RulesOf(env.cfg, s, m), R.Opened(env.cfg, s), w.Of(s).ops, NewOp(env, w, head, ret));
  }

  /** A call that is neither Send, Recv nor Peek leaves the counts alone. */
  lemma PlainCall(env: Env, w: World, s: Side, m: pos, phase: R.Phase, head: Head, ret: int, next: R.Phase)
    requires At(env.cfg, w.Of(s), s, m, phase)
    requires Next(env, w, s, m, phase, head, ret) == Some(ReadingOf(w.Of(s), next))
    ensures Moves(env, w, CallAs(env, w, s, head, ret), s, m, next)
  {
    CallReads(env, w, s, m, phase, head, ret);
  }

  lemma RecvCalled(env: Env, w: World, s: Side, m: pos, phase: R.Phase, n: nat, next: R.Phase)
    requires At(env.cfg, w.Of(s), s, m, phase)
    requires Next(env, w, s, m, phase, Recv(n), Ret(env, w))
          == Some(R.Credited(ReadingOf(w.Of(s), phase), NewOp(env, w, Recv(n), Ret(env, w))).(phase := next))
    ensures Moves(env, w, RecvCall(env, w, s, n), s, m, next)
  {
    CallReads(env, w, s, m, phase, Recv(n), Ret(env, w));
  }

  lemma SendAdds(env: Env, w: World, s: Side, c: nat)
    ensures var r, op := SendCall(env, w, s, c), NewOp(env, w, Head.Send(c), Ret(env, w));
            && r.Of(s) == w.Of(s).(ops := w.Of(s).ops + [op], words := r.Of(s).words,
                                   sent := w.Of(s).sent + if op.ret == 0 then c else 0)
            && r.Of(s.Peer()) == w.Of(s.Peer()) && r.now >= w.now
  {
  }

  lemma SendCalled(env: Env, w: World, s: Side, m: pos, phase: R.Phase, n: nat, next: R.Phase)
    requires At(env.cfg, w.Of(s), s, m, phase)
    requires Next(env, w, s, m, phase, Head.Send(n), Ret(env, w))
          == Some(R.Credited(ReadingOf(w.Of(s), phase), NewOp(env, w, Head.Send(n), Ret(env, w))).(phase := next))
    ensures Moves(env, w, SendCall(env, w, s, n), s, m, next)
  {
    CallReads(env, w, s, m, phase, Head.Send(n), Ret(env, w));
    SendAdds(env, w, s, n);
    MovesIf(env, w, SendCall(env, w, s, n), s, m, next);
  }

  lemma MovesIf(env: Env, w: World, r: World, s: Side, m: pos, next: R.Phase)
    requires OnlyOf(env, w, r, s) && At(env.cfg, r.Of(s), s, m, next)
    ensures Moves(env, w, r, s, m, next)
  {
  }

  lemma MovesOn(env: Env, u: World, v: World, w: World, s: Side, m: pos, p: R.Phase, q: R.Phase)
    requires Moves(env, u, v, s, m, p) && Moves(env, v, w, s, m, q)
    ensures Moves(env, u, w, s, m, q)
  {
  }

  // ---------- Reading ----------

  lemma ReadOneMoves(env: Env, w: World, s: Side, m: pos, n: nat)
    requires At(env.cfg, w.Of(s), s, m, R.Taking(n))
    ensures Moves(env, w, ReadOne(env, w, s, n), s, m, R.Peeking)
  {
    var buf := env.cfg.SideOf(s).readBuf;
    var read := RecvCall(env, w, s, buf);
    RecvCalled(env, w, s, m, R.Taking(n), buf, if n > buf then R.Retaking(n) else R.Peeking);
    if n > buf {
      RecvCalled(env, read, s, m, R.Retaking(n), n, R.Peeking);
      MovesOn(env, w, read, RecvCall(env, read, s, n), s, m, R.Retaking(n), R.Peeking);
    }
  }

  /** The PeekSize that finds nothing, and the Recv after every eighth. */
  lemma EmptyMoves(env: Env, w: World, s: Side, m: pos, phase: R.Phase, none: int)
    requires At(env.cfg, w.Of(s), s, m, phase) && (phase.Ready? || phase.Peeking?) && none < 0
    ensures Moves(env, w, IdleRead(env, CallAs(env, w, s, Head.Peek, none), s), s, m, R.Ready)
  {
    var peeked := CallAs(env, w, s, Head.Peek, none);
    var counted := CountIdle(peeked, s);
    CallReads(env, w, s, m, phase, Head.Peek, none);
    var next := if (w.Of(s).idleReads + 1) % 8 == 1 then R.Poking else R.Ready;
    assert Moves(env, w, counted, s, m, next);
    if next.Poking? {
      RecvCalled(env, counted, s, m, R.Poking, env.cfg.SideOf(s).readBuf, R.Ready);
      MovesOn(env, w, counted, RecvCall(env, counted, s, env.cfg.SideOf(s).readBuf), s, m, R.Poking, R.Ready);
    }
  }

  lemma {:induction false} ReadFromMoves(env: Env, w: World, s: Side, m: pos, phase: R.Phase, burst: Burst, i: nat)
    requires At(env.cfg, w.Of(s), s, m, phase) && (phase.Ready? || phase.Peeking?)
    ensures Moves(env, w, ReadFrom(env, w, s, burst, i), s, m, R.Ready)
    decreases |burst.sizes| - i
  {
    if i >= |burst.sizes| {
      EmptyMoves(env, w, s, m, phase, burst.Peek(i));
    } else {
      var n := burst.sizes[i];
      var peeked := CallAs(env, w, s, Head.Peek, n);
      PlainCall(env, w, s, m, phase, Head.Peek, n, R.Taking(n));
      ReadOneMoves(env, peeked, s, m, n);
      var read := ReadOne(env, peeked, s, n);
      MovesOn(env, w, peeked, read, s, m, R.Taking(n), R.Peeking);
      ReadFromMoves(env, read, s, m, R.Peeking, burst, i + 1);
      MovesOn(env, w, read, ReadFrom(env, read, s, burst, i + 1), s, m, R.Peeking, R.Ready);
    }
  }

  lemma ReadMoves(env: Env, w: World, s: Side, m: pos)
    requires At(env.cfg, w.Of(s), s, m, R.Ready)
    ensures Moves(env, w, KcpTrace.Read(env, w, s), s, m, R.Ready)
  {
    ReadFromMoves(env, NextBurst(w), s, m, R.Ready, env.burst(w.bursts), 0);
  }

  // ---------- Writing ----------

  /** The gate on the endpoint is the gate on what is read off its trace. */
  lemma GateIsRead(env: Env, w: World, s: Side, m: pos, phase: R.Phase)
    ensures CanWrite(env, w, s) <==>
            w.now >= env.cfg.SideOf(s).writeFrom && R.GateOpen(R.RulesOf(env.cfg, s, m), ReadingOf(w.Of(s), phase))
  {
  }

  function Left(left: nat): R.Phase { if left == 0 then R.Waiting else R.Sending(left) }

  lemma PieceMoves(env: Env, w: World, s: Side, m: pos, left: nat)
    requires left > 0 && At(env.cfg, w.Of(s), s, m, R.Sending(left))
    ensures Moves(env, w, SendCall(env, w, s, Min(left, m)), s, m, Left(left - Min(left, m)))
  {
    SendCalled(env, w, s, m, R.Sending(left), Min(left, m), Left(left - Min(left, m)));
  }

  /** What the next piece keeps, all pieces keep. */
  lemma {:induction false} PiecesKeepPhase(send: (World, nat) -> World, m: pos, inv: (World, nat) -> bool, w: World, left: nat)
    requires inv(w, left)
    requires forall u: World, n: pos {:trigger inv(u, n)} :: inv(u, n) ==> inv(send(u, Min(n, m)), n - Min(n, m))
    ensures inv(Split(send, m, w, left), 0)
    decreases left
  {
    if left > 0 { PiecesKeepPhase(send, m, inv, send(w, Min(left, m)), left - Min(left, m)); }
  }

  lemma PieceMovesOn(env: Env, w: World, u: World, s: Side, m: pos, left: pos)
    requires Moves(env, w, u, s, m, Left(left))
    ensures Moves(env, w, KcpTrace.Sending(env, s)(u, Min(left, m)), s, m, Left(left - Min(left, m)))
  {
    PieceMoves(env, u, s, m, left);
    MovesOn(env, w, u, SendCall(env, u, s, Min(left, m)), s, m, Left(left), Left(left - Min(left, m)));
  }

  lemma SplitMoves(env: Env, w: World, s: Side, m: pos, left: nat)
    requires At(env.cfg, w.Of(s), s, m, Left(left))
    ensures Moves(env, w, Split(KcpTrace.Sending(env, s), m, w, left), s, m, R.Waiting)
  {
    var inv := (u: World, n: nat) => Moves(env, w, u, s, m, Left(n));
    forall u: World, n: pos | inv(u, n) ensures inv(KcpTrace.Sending(env, s)(u, Min(n, m)), n - Min(n, m)) {
      PieceMovesOn(env, w, u, s, m, n);
    }
    PiecesKeepPhase(KcpTrace.Sending(env, s), m, inv, w, left);
    assert inv(Split(KcpTrace.Sending(env, s), m, w, left), 0);
  }

  lemma FirstLine(env: Env, e: End, s: Side, m: pos, op: Op)
    requires e.writes != [] && op.head == Head.Send(R.Piece(R.RulesOf(env.cfg, s, m), e.writes[0]))
    ensures R.Line(R.RulesOf(env.cfg, s, m), ReadingOf(e, R.Writing), op)
         == Some(R.Reading(Left(e.writes[0] - op.head.n), e.writes[1..], e.sent + (if op.ret == 0 then op.head.n else 0),
                           e.got, e.idleReads))
  {
  }

  lemma FirstLineRead(env: Env, e: End, r: End, s: Side, m: pos, op: Op)
    requires At(env.cfg, e, s, m, R.Writing)
    requires e.writes != [] && op.head == Head.Send(R.Piece(R.RulesOf(env.cfg, s, m), e.writes[0]))
    requires r == e.(ops := e.ops + [op], words := r.words, writes := e.writes[1..],
                     sent := e.sent + if op.ret == 0 then op.head.n else 0)
    ensures At(env.cfg, r, s, m, Left(e.writes[0] - op.head.n))
  {
    FirstLine(env, e, s, m, op);
    ReadSnoc(R.RulesOf(env.cfg, s, m), R.Opened(env.cfg, s), e.ops, op);
  }

  /** Taking a message off the plan and sending its first piece. */
  lemma FirstPiece(env: Env, w: World, s: Side, m: pos)
    requires At(env.cfg, w.Of(s), s, m, R.Writing) && w.Of(s).writes != [] && w.now >= env.cfg.SideOf(s).writeFrom
    ensures var n := w.Of(s).writes[0];
            var c := R.Piece(R.RulesOf(env.cfg, s, m), n);
            Moves(env, w, SendCall(env, TakeWrite(w, s), s, c), s, m, Left(n - c))
  {
    var taken := TakeWrite(w, s);
    var c := R.Piece(R.RulesOf(env.cfg, s, m), w.Of(s).writes[0]);
    var op := NewOp(env, taken, Head.Send(c), Ret(env, taken));
    SendAdds(env, taken, s, c);
    FirstLineRead(env, w.Of(s), SendCall(env, taken, s, c).Of(s), s, m, op);
  }

  lemma RestFollows(env: Env, w: World, sent: World, s: Side, m: pos, left: nat)
    requires Moves(env, w, sent, s, m, Left(left))
    ensures Moves(env, w, Split(KcpTrace.Sending(env, s), m, sent, left), s, m, R.Waiting)
  {
    SplitMoves(env, sent, s, m, left);
    MovesOn(env, w, sent, Split(KcpTrace.Sending(env, s), m, sent, left), s, m, Left(left), R.Waiting);
  }

  lemma FirstOfPieces(env: Env, w: World, s: Side, m: pos)
    requires w.Of(s).writes != [] && w.now >= env.cfg.SideOf(s).writeFrom && !env.cfg.SideOf(s).noSplit
    requires At(env.cfg, w.Of(s), s, m, R.Writing)
    ensures var n := w.Of(s).writes[0];
            Moves(env, w, KcpTrace.Sending(env, s)(TakeWrite(w, s), Min(n, m)), s, m, Left(n - Min(n, m)))
  {
    FirstPiece(env, w, s, m);
  }

  lemma PiecesMove(env: Env, w: World, s: Side, m: pos, n: pos)
    requires w.Of(s).writes != [] && w.Of(s).writes[0] == n && w.now >= env.cfg.SideOf(s).writeFrom
    requires At(env.cfg, w.Of(s), s, m, R.Writing) && !env.cfg.SideOf(s).noSplit
    ensures Moves(env, w, Split(KcpTrace.Sending(env, s), m, TakeWrite(w, s), n), s, m, R.Waiting)
  {
    var send := KcpTrace.Sending(env, s);
    FirstOfPieces(env, w, s, m);
    RestFollows(env, w, send(TakeWrite(w, s), Min(n, m)), s, m, n - Min(n, m));
    SplitOnce(send, m, TakeWrite(w, s), n);
  }

  lemma MessageMoves(env: Env, w: World, s: Side)
    requires w.Of(s).writes != [] && w.Of(s).writes[0] > 0 && w.now >= env.cfg.SideOf(s).writeFrom
    requires At(env.cfg, w.Of(s), s, w.Of(s).mss, R.Writing)
    ensures Moves(env, w, SendMessage(env, TakeWrite(w, s), s, w.Of(s).writes[0]), s, w.Of(s).mss, R.Waiting)
  {
    if env.cfg.SideOf(s).noSplit {
      FirstPiece(env, w, s, w.Of(s).mss);
    } else {
      PiecesMove(env, w, s, w.Of(s).mss, w.Of(s).writes[0]);
    }
  }

  /** Where the reader is after a message: another may go, or not. */
  function AfterMessage(env: Env, w: World, s: Side, m: pos): R.Phase {
    if R.GateOpen(R.RulesOf(env.cfg, s, m), ReadingOf(w.Of(s), R.Flushing)) then R.Asking else R.Ready
  }

  lemma WriteMessageMoves(env: Env, w: World, s: Side)
    requires w.Of(s).writes != [] && w.Of(s).writes[0] > 0 && w.now >= env.cfg.SideOf(s).writeFrom
    requires At(env.cfg, w.Of(s), s, w.Of(s).mss, R.Writing)
    ensures Moves(env, w, WriteMessage(env, w, s), s, w.Of(s).mss, R.Waiting)
  {
    MessageMoves(env, w, s);
  }

  lemma OneWriteMoves(env: Env, w: World, s: Side)
    requires w.Of(s).writes != [] && w.Of(s).writes[0] > 0 && w.now >= env.cfg.SideOf(s).writeFrom
    requires At(env.cfg, w.Of(s), s, w.Of(s).mss, R.Writing)
    ensures var r := OneWrite(env, w, s); Moves(env, w, r, s, w.Of(s).mss, AfterMessage(env, r, s, w.Of(s).mss))
  {
    var m, sent := w.Of(s).mss, WriteMessage(env, w, s);
    WriteMessageMoves(env, w, s);
    var waited := CallAs(env, sent, s, Head.WaitSnd, Ret(env, sent));
    PlainCall(env, sent, s, m, R.Waiting, Head.WaitSnd, Ret(env, sent), R.Flushing);
    var flushed := CallAs(env, waited, s, Head.Flush, Ret(env, waited));
    PlainCall(env, waited, s, m, R.Flushing, Head.Flush, Ret(env, waited), AfterMessage(env, waited, s, m));
    MovesOn(env, w, sent, waited, s, m, R.Waiting, R.Flushing);
    MovesOn(env, w, waited, flushed, s, m, R.Flushing, AfterMessage(env, waited, s, m));
  }

  ghost predicate Positive(writes: seq<nat>) { forall i :: 0 <= i < |writes| ==> writes[i] > 0 }

  /** Where the writer's loop begins, or goes on. */
  ghost predicate AtWrite(env: Env, w: World, s: Side) {
    && Positive(w.Of(s).writes)
    && (At(env.cfg, w.Of(s), s, w.Of(s).mss, R.Ready)
        || (CanWrite(env, w, s) && At(env.cfg, w.Of(s), s, w.Of(s).mss, R.Asking)))
  }

  lemma AskMoves(env: Env, w: World, s: Side)
    requires AtWrite(env, w, s) && CanWrite(env, w, s)
    ensures var asked := Call(env, w, s, Head.WaitSnd);
            Moves(env, w, asked, s, w.Of(s).mss, if Ret(env, w) < asked.Of(s).words.sndWnd then R.Writing else R.Ready)
  {
    var m, asked := w.Of(s).mss, Call(env, w, s, Head.WaitSnd);
    var next := if Ret(env, w) < asked.Of(s).words.sndWnd then R.Writing else R.Ready;
    GateIsRead(env, w, s, m, R.Ready);
    if At(env.cfg, w.Of(s), s, m, R.Ready) {
      PlainCall(env, w, s, m, R.Ready, Head.WaitSnd, Ret(env, w), next);
    } else {
      PlainCall(env, w, s, m, R.Asking, Head.WaitSnd, Ret(env, w), next);
    }
  }

  lemma WroteOne(env: Env, w: World, s: Side)
    requires w.Of(s).writes != [] && Positive(w.Of(s).writes) && w.now >= env.cfg.SideOf(s).writeFrom
    requires At(env.cfg, w.Of(s), s, w.Of(s).mss, R.Writing)
    ensures OnlyOf(env, w, OneWrite(env, w, s), s) && AtWrite(env, OneWrite(env, w, s), s)
    ensures OneWrite(env, w, s).now >= env.cfg.SideOf(s).writeFrom
  {
    OneWriteMoves(env, w, s);
    GateIsRead(env, OneWrite(env, w, s), s, w.Of(s).mss, R.Flushing);
  }

  lemma {:induction false} WriteMoves(env: Env, w: World, s: Side)
    requires AtWrite(env, w, s)
    ensures Moves(env, w, Write(env, w, s), s, w.Of(s).mss, R.Ready) && Positive(Write(env, w, s).Of(s).writes)
    decreases |w.Of(s).writes|
  {
    if CanWrite(env, w, s) {
      var asked := Call(env, w, s, Head.WaitSnd);
      AskMoves(env, w, s);
      if Ret(env, w) < asked.Of(s).words.sndWnd {
        WroteOne(env, asked, s);
        WriteMoves(env, OneWrite(env, asked, s), s);
      }
    }
  }

  // ---------- Events ----------

  /** The mss is the one the engine had when the stream mode was set. */
  ghost predicate MssIsStreams(e: End) { exists k :: 0 <= k < |e.ops| && e.ops[k].head.Stream? && e.ops[k].words.mss == e.mss }

  /** Between two events: both traces are read to the end. */
  ghost predicate EndRead(env: Env, w: World, s: Side) {
    && At(env.cfg, w.Of(s), s, w.Of(s).mss, R.Ready) && Positive(w.Of(s).writes) && MssIsStreams(w.Of(s))
    && (w.now < env.cfg.SideOf(s).writeFrom ==> w.Of(s).writes == Plan(env.cfg, env.cfg.SideOf(s), env.cfg.SideOf(s).writeBytes, 0))
  }

  ghost predicate AllRead(env: Env, w: World) { EndRead(env, w, A) && EndRead(env, w, B) }

  lemma MssStays(e: End, r: End)
    requires MssIsStreams(e) && e.ops <= r.ops && r.mss == e.mss
    ensures MssIsStreams(r)
  {
    var k :| 0 <= k < |e.ops| && e.ops[k].head.Stream? && e.ops[k].words.mss == e.mss;
    assert r.ops[k] == e.ops[k];
  }

  lemma MovedIsRead(env: Env, w: World, r: World, s: Side)
    requires AllRead(env, w) && Moves(env, w, r, s, w.Of(s).mss, R.Ready) && Positive(r.Of(s).writes)
    ensures AllRead(env, r)
  {
    assert EndRead(env, w, s);
    MssStays(w.Of(s), r.Of(s));
    assert EndRead(env, r, s) && EndRead(env, r, s.Peer());
  }

  lemma ReadIsRead(env: Env, w: World, s: Side)
    requires AllRead(env, w)
    ensures AllRead(env, KcpTrace.Read(env, w, s))
  {
    ReadMoves(env, w, s, w.Of(s).mss);
    ReadKeepsPlan(env, w, s);
    MovedIsRead(env, w, KcpTrace.Read(env, w, s), s);
  }

  lemma {:induction false} ReadFromKeepsPlan(env: Env, w: World, s: Side, burst: Burst, i: nat)
    ensures ReadFrom(env, w, s, burst, i).Of(s).writes == w.Of(s).writes
    decreases |burst.sizes| - i
  {
    var peeked := CallAs(env, w, s, Head.Peek, burst.Peek(i));
    if i < |burst.sizes| { ReadFromKeepsPlan(env, ReadOne(env, peeked, s, burst.sizes[i]), s, burst, i + 1); }
  }

  lemma ReadKeepsPlan(env: Env, w: World, s: Side)
    ensures KcpTrace.Read(env, w, s).Of(s).writes == w.Of(s).writes
  {
    ReadFromKeepsPlan(env, NextBurst(w), s, env.burst(w.bursts), 0);
  }

  lemma WriteIsRead(env: Env, w: World, s: Side)
    requires AllRead(env, w)
    ensures AllRead(env, Write(env, w, s))
  {
    assert EndRead(env, w, s);
    WriteMoves(env, w, s);
    MovedIsRead(env, w, Write(env, w, s), s);
  }

  /** A call that begins nothing that must go on, and arming a timer. */
  lemma CallIsRead(env: Env, w: World, s: Side, head: Head, at: nat)
    requires AllRead(env, w) && Next(env, w, s, w.Of(s).mss, R.Ready, head, Ret(env, w)) == Some(ReadingOf(w.Of(s), R.Ready))
    ensures AllRead(env, Call(env, w, s, head)) && AllRead(env, Armed(Call(env, w, s, head), s, at))
  {
    assert EndRead(env, w, s);
    PlainCall(env, w, s, w.Of(s).mss, R.Ready, head, Ret(env, w), R.Ready);
    MovedIsRead(env, w, Call(env, w, s, head), s);
    MovedIsRead(env, w, Armed(Call(env, w, s, head), s, at), s);
  }

  lemma UpdateIsRead(env: Env, w: World, s: Side)
    requires AllRead(env, w) && env.cfg.useUpdate
    ensures AllRead(env, UpdateTimer(env, w, s))
  {
    assert EndRead(env, w, s);
    var m, updated := w.Of(s).mss, Call(env, w, s, Update);
    PlainCall(env, w, s, m, R.Ready, Update, Ret(env, w), R.Checking);
    PlainCall(env, updated, s, m, R.Checking, Check, Ret(env, updated), R.Ready);
    MovesOn(env, w, updated, Call(env, updated, s, Check), s, m, R.Checking, R.Ready);
    MovedIsRead(env, w, UpdateTimer(env, w, s), s);
  }

  lemma TimerIsRead(env: Env, w: World, s: Side)
    requires AllRead(env, w)
    ensures AllRead(env, Timer(env, w, s))
  {
    if env.cfg.useUpdate {
      UpdateIsRead(env, w, s);
      WriteIsRead(env, UpdateTimer(env, w, s), s);
    } else {
      CallIsRead(env, w, s, Head.Flush, FlushTimer(env, w, s).Of(s).nextTimer);
      WriteIsRead(env, FlushTimer(env, w, s), s);
    }
  }

  lemma DeliveryIsRead(env: Env, w: World)
    requires AllRead(env, w) && w.queue != []
    ensures AllRead(env, Deliver(env, TakeNext(w), w.queue[0]))
  {
    var d, taken := w.queue[0], Taken(w);
    assert AllRead(env, taken);
    CallIsRead(env, taken, d.to, InputHead(env, d), 0);
    ReadIsRead(env, InputDone(env, w), d.to);
    WriteIsRead(env, KcpTrace.Read(env, InputDone(env, w), d.to), d.to);
  }

  lemma EventIsRead(env: Env, w: World)
    requires AllRead(env, w)
    ensures AllRead(env, Event(env, w))
  {
    if DeliveryDue(w) {
      DeliveryIsRead(env, w);
    } else if w.a.nextTimer <= w.now {
      TimerIsRead(env, w, A);
    } else if w.b.nextTimer <= w.now {
      TimerIsRead(env, w, B);
    } else {
      StallsEndedIsRead(env, w);
    }
  }

  lemma StallsEndedIsRead(env: Env, w: World)
    requires AllRead(env, w)
    ensures AllRead(env, StallsEnded(env, w))
  {
    ReadIsRead(env, w, A);
    ReadIsRead(env, if env.cfg.a.stallTo == w.now then KcpTrace.Read(env, w, A) else w, B);
  }

  lemma AdvanceIsRead(env: Env, w: World)
    requires AllRead(env, w)
    ensures AllRead(env, Advance(env, w))
  {
  }

  lemma TurnIsRead(env: Env, w: World)
    requires AllRead(env, w)
    ensures AllRead(env, Turn(env, w).w)
  {
    AdvanceIsRead(env, w);
    EventIsRead(env, Advance(env, w));
  }

  // ---------- The start ----------

  /** The reader is in the opening of the trace, with these calls still to come. */
  ghost predicate Opens(env: Env, w: World, r: World, s: Side, m: pos, heads: seq<Head>) {
    && At(env.cfg, r.Of(s), s, m, R.Rest(heads)) && r.Of(s.Peer()) == w.Of(s.Peer()) && r.now >= w.now
    && r.Of(s).writes == w.Of(s).writes && w.Of(s).ops <= r.Of(s).ops
    && (MssIsStreams(w.Of(s)) ==> MssIsStreams(r.Of(s)))
  }

  lemma CallOpens(env: Env, w: World, s: Side, m: pos, head: Head, heads: seq<Head>)
    requires At(env.cfg, w.Of(s), s, m, R.Rest([head] + heads)) && !head.Send? && !head.Recv?
    ensures Opens(env, w, Call(env, w, s, head), s, m, heads)
  {
    assert ([head] + heads)[1..] == heads;
    CallReads(env, w, s, m, R.Rest([head] + heads), head, Ret(env, w));
  }

  lemma CallIfOpens(env: Env, w: World, s: Side, m: pos, head: Head, wanted: bool, heads: seq<Head>)
    requires At(env.cfg, w.Of(s), s, m, R.Rest(R.If(wanted, head) + heads)) && !head.Send? && !head.Recv?
    ensures Opens(env, w, CallIf(env, w, s, head, wanted), s, m, heads)
  {
    if wanted { CallOpens(env, w, s, m, head, heads); } else { assert R.If(wanted, head) + heads == heads; }
  }

  lemma {:induction false} ExtraSendsOpen(env: Env, w: World, s: Side, m: pos, i: nat)
    requires i <= |env.cfg.SideOf(s).extraSends|
    requires At(env.cfg, w.Of(s), s, m, R.Rest(R.Sends(env.cfg.SideOf(s).extraSends)[i..]))
    ensures Opens(env, w, ExtraSends(env, w, s, i), s, m, [])
    decreases |env.cfg.SideOf(s).extraSends| - i
  {
    var sizes := env.cfg.SideOf(s).extraSends;
    var heads := R.Sends(sizes)[i..];
    if i < |sizes| {
      assert heads[0] == Head.Send(sizes[i]) && heads[1..] == R.Sends(sizes)[i + 1..];
      SendCalled(env, w, s, m, R.Rest(heads), sizes[i], R.Rest(heads[1..]));
      ExtraSendsOpen(env, SendCall(env, w, s, sizes[i]), s, m, i + 1);
    }
  }

  lemma OpensOn(env: Env, u: World, v: World, w: World, s: Side, m: pos, heads: seq<Head>, rest: seq<Head>)
    requires Opens(env, u, v, s, m, heads) && Opens(env, v, w, s, m, rest)
    ensures Opens(env, u, w, s, m, rest)
  {
  }

  lemma SettingsOpen(env: Env, w: World, s: Side, m: pos, heads: seq<Head>)
    requires var c := env.cfg.SideOf(s);
             At(env.cfg, w.Of(s), s, m, R.Rest(R.If(c.mtu != 0, SetMtu(c.mtu))
               + (R.If(c.noDelay.Some?, NoDelayHead(c))
                  + (R.If(c.sndWnd != 0 || c.rcvWnd != 0, WndSize(c.sndWnd, c.rcvWnd)) + heads))))
    ensures Opens(env, w, Settings(env, w, s), s, m, heads)
  {
    var c := env.cfg.SideOf(s);
    var window := R.If(c.sndWnd != 0 || c.rcvWnd != 0, WndSize(c.sndWnd, c.rcvWnd)) + heads;
    CallIfOpens(env, w, s, m, SetMtu(c.mtu), c.mtu != 0, R.If(c.noDelay.Some?, NoDelayHead(c)) + window);
    var sized := CallIf(env, w, s, SetMtu(c.mtu), c.mtu != 0);
    CallIfOpens(env, sized, s, m, NoDelayHead(c), c.noDelay.Some?, window);
    var quick := CallIf(env, sized, s, NoDelayHead(c), c.noDelay.Some?);
    CallIfOpens(env, quick, s, m, WndSize(c.sndWnd, c.rcvWnd), c.sndWnd != 0 || c.rcvWnd != 0, heads);
    OpensOn(env, w, sized, quick, s, m, R.If(c.noDelay.Some?, NoDelayHead(c)) + window, window);
    OpensOn(env, w, quick, Settings(env, w, s), s, m, window, heads);
  }

  lemma StreamedOpens(env: Env, w: World, s: Side, m: pos, heads: seq<Head>)
    requires At(env.cfg, w.Of(s), s, m, R.Rest([Stream(env.cfg.SideOf(s).stream)] + heads))
    ensures Opens(env, w, Streamed(env, w, s), s, m, heads) && MssIsStreams(Streamed(env, w, s).Of(s))
  {
    CallOpens(env, w, s, m, Stream(env.cfg.SideOf(s).stream), heads);
    var r := Streamed(env, w, s);
    assert r.Of(s).ops[|w.Of(s).ops|].head.Stream? && r.Of(s).ops[|w.Of(s).ops|].words.mss == r.Of(s).mss;
  }

  lemma LastCallsOpen(env: Env, w: World, s: Side, m: pos)
    requires var c := env.cfg.SideOf(s);
             At(env.cfg, w.Of(s), s, m, R.Rest(R.If(env.cfg.useUpdate, Check) + R.Sends(c.extraSends)))
    ensures var checked := CallIf(env, w, s, Check, env.cfg.useUpdate);
            Opens(env, w, ExtraSends(env, checked, s, 0), s, m, [])
  {
    var sends := R.Sends(env.cfg.SideOf(s).extraSends);
    var checked := CallIf(env, w, s, Check, env.cfg.useUpdate);
    CallIfOpens(env, w, s, m, Check, env.cfg.useUpdate, sends);
    assert sends[0..] == sends;
    ExtraSendsOpen(env, checked, s, m, 0);
    OpensOn(env, w, checked, ExtraSends(env, checked, s, 0), s, m, sends, []);
  }

  /** What Configure has done before it arms the timer. */
  function Called(env: Env, w: World, s: Side): World {
    ExtraSends(env, CallIf(env, Streamed(env, Settings(env, w, s), s), s, Check, env.cfg.useUpdate), s, 0)
  }

  lemma CalledOpens(env: Env, w: World, s: Side, m: pos)
    requires w.Of(s) == NewEnd(env.cfg, env.cfg.SideOf(s))
    ensures Opens(env, w, Called(env, w, s), s, m, []) && MssIsStreams(Called(env, w, s).Of(s))
  {
    var c := env.cfg.SideOf(s);
    var last := R.If(env.cfg.useUpdate, Check) + R.Sends(c.extraSends);
    var set1 := Settings(env, w, s);
    SettingsOpen(env, w, s, m, [Stream(c.stream)] + last);
    StreamedOpens(env, set1, s, m, last);
    var streamed := Streamed(env, set1, s);
    OpensOn(env, w, set1, streamed, s, m, [Stream(c.stream)] + last, last);
    LastCallsOpen(env, streamed, s, m);
    OpensOn(env, w, streamed, Called(env, w, s), s, m, last, []);
  }

  lemma ArmedOpens(env: Env, w: World, r: World, s: Side, m: pos, at: nat)
    requires Opens(env, w, r, s, m, [])
    ensures Opens(env, w, Armed(r, s, at), s, m, []) && (MssIsStreams(r.Of(s)) ==> MssIsStreams(Armed(r, s, at).Of(s)))
  {
    if MssIsStreams(r.Of(s)) { MssStays(r.Of(s), Armed(r, s, at).Of(s)); }
    if MssIsStreams(w.Of(s)) { MssStays(r.Of(s), Armed(r, s, at).Of(s)); }
  }

  lemma ConfigureOpens(env: Env, w: World, s: Side, m: pos)
    requires w.Of(s) == NewEnd(env.cfg, env.cfg.SideOf(s))
    ensures Opens(env, w, Configure(env, w, s), s, m, []) && MssIsStreams(Configure(env, w, s).Of(s))
  {
    CalledOpens(env, w, s, m);
    ArmedOpens(env, w, Called(env, w, s), s, m, Called(env, w, s).now);
  }

  lemma ConfiguredIsRead(env: Env, w: World, s: Side)
    requires w.Of(s) == NewEnd(env.cfg, env.cfg.SideOf(s))
    ensures EndRead(env, Configure(env, w, s), s) && Configure(env, w, s).Of(s.Peer()) == w.Of(s.Peer())
    ensures Configure(env, w, s).now >= w.now
  {
    var r := Configure(env, w, s);
    ConfigureOpens(env, w, s, r.Of(s).mss);
    R.PlanExactly(env.cfg, env.cfg.SideOf(s), env.cfg.SideOf(s).writeBytes, 0);
  }

  lemma CraftedKeepsEnds(env: Env, w: World, k: nat)
    requires k < |env.cfg.garbage|
    ensures var r := PushBoth(env, w, k); r.a == w.a && r.b == w.b && r.now == w.now
  {
  }

  lemma GarbageKeepsRead(env: Env, w: World)
    requires AllRead(env, w)
    ensures AllRead(env, PushGarbage(env, w, 0))
  {
    var inv := (u: World) => u.a == w.a && u.b == w.b && u.now == w.now;
    forall u: World, k: nat | inv(u) && k < |env.cfg.garbage| ensures inv(Crafting(env)(u, k)) { CraftedKeepsEnds(env, u, k); }
    RepeatKeeps(Crafting(env), inv, w, 0, |env.cfg.garbage|);
  }

  lemma StartIsRead(env: Env)
    ensures AllRead(env, Start(env))
  {
    var w := NewWorld(env);
    ConfiguredIsRead(env, w, A);
    var one := Configure(env, w, A);
    ConfiguredIsRead(env, one, B);
    var two := Configure(env, one, B);
    assert two.Of(A) == one.Of(A);
    assert EndRead(env, two, A);
    GarbageKeepsRead(env, two);
  }

  // ---------- Every run ----------

  /** In every run, after every turn, each trace is one that the reader accepts, line by line, and what it reads
    * off is what the endpoint has: the writes it still plans, the bytes it sent and received, its idle reads.
    * Before its writeFrom an endpoint has taken nothing off its plan. */
  lemma EveryTraceIsRead(env: Env, turns: nat)
    ensures AllRead(env, After(env, turns).w)
  {
    StartIsRead(env);
    var inv := (o: Outcome) => AllRead(env, o.w);
    forall p: Outcome | inv(p) && p.Running? ensures inv(Turns(env)(p.w)) { TurnIsRead(env, p.w); }
    RunKeeps(Turns(env), inv, Running(Start(env)), turns);
  }
}
