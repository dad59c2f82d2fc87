/**
 * What the trace of one endpoint must look like, told from its lines alone: a reader that knows the
 * configuration and accepts a trace only if every line is the one the session code would make next. It
 * reads off what the endpoint has still to write, the bytes it has sent and received, and how often it
 * found nothing to read.
 */
module KcpReader {
  import opened Helpers
  import opened DeliveryHeap
  import opened KcpTrace

  /** What must come next on the trace. */
  datatype Phase =
    | Opening(heads: seq<Head>) // these calls, in order, then anything
    | Ready                     // an event of the endpoint's own
    | Checking                  // the timer was updated: Check
    | Peeking                   // a message was read: look for the next
    | Taking(n: nat)            // n bytes were found: Recv into the reader's buffer
    | Retaking(n: nat)          // they did not fit: Recv of that size
    | Poking                    // an eighth idle read: Recv all the same
    | Writing                   // the window is open: the first piece of the next message
    | Sending(left: nat)        // the next piece
    | Waiting                   // the message is out: WaitSnd
    | Flushing                  // and Flush
    | Asking                    // another message may go: WaitSnd, to see the window

  /** Where the reader stands: the writes still planned, bytes sent and received, idle reads. */
  datatype Reading = Reading(phase: Phase, plan: seq<nat>, sent: nat, got: nat, idle: nat)

  /** What the reader knows beforehand. */
  datatype Rules = Rules(c: SideConfig, side: Side, useUpdate: bool, pp: nat, mss: pos)

  function RulesOf(cfg: Config, s: Side, mss: pos): Rules { Rules(cfg.SideOf(s), s, cfg.useUpdate, cfg.pingPong, mss) }

  /** A message is planned, and with ping-pong the peer's answers so far allow it. */
  predicate GateOpen(r: Rules, x: Reading) {
    && x.plan != []
    && (r.pp > 0 ==> x.got >= (if r.side == A then x.sent / r.pp else x.sent / r.pp + 1) * r.pp)
  }

  /** The bytes a call adds to the counts: those of a Send that returned 0, those a Recv returned. */
  function Credited(x: Reading, op: Op): Reading {
    match op.head
    case Send(n) => if op.ret == 0 then x.(sent := x.sent + n) else x
    case Recv(_) => if op.ret > 0 then x.(got := x.got + op.ret) else x
    case _ => x
  }

  /** The first piece of a message of n bytes. */
  function Piece(r: Rules, n: nat): nat { if r.c.noSplit then n else Min(n, r.mss) }

  function Sent(x: Reading, left: nat): Reading { x.(phase := if left == 0 then Waiting else Sending(left)) }

  function Found(x: Reading, ret: int): Reading {
    if ret >= 0 then x.(phase := Taking(ret))
    else x.(idle := x.idle + 1, phase := if (x.idle + 1) % 8 == 1 then Poking else Ready)
  }

  function Asked(x: Reading, op: Op): Reading { x.(phase := if op.ret < op.words.sndWnd then Writing else Ready) }

  function Rest(heads: seq<Head>): Phase { if heads == [] then Ready else Opening(heads) }

  /** A line that begins something. */
  function Begins(r: Rules, x: Reading, op: Op): Option<Reading> {
    match op.head
    case Input(_, _, _, _) => Some(x)
    case Update => if r.useUpdate then Some(x.(phase := Checking)) else None
    case Flush => if r.useUpdate then None else Some(x)
    case Peek => Some(Found(x, op.ret))
    case WaitSnd => if GateOpen(r, x) then Some(Asked(x, op)) else None
    case _ => None
  }

  /** One line: None if it is not one that may come next. */
  function Line(r: Rules, x: Reading, op: Op): Option<Reading> {
    match x.phase
    case Opening(heads) =>
      if heads != [] && op.head == heads[0] then Some(Credited(x, op).(phase := Rest(heads[1..]))) else None
    case Ready => Begins(r, x, op)
    case Checking => if op.head.Check? then Some(x.(phase := Ready)) else None
    case Peeking => if op.head.Peek? then Some(Found(x, op.ret)) else None
    case Taking(n) =>
      if op.head != Recv(r.c.readBuf) then None
      else Some(Credited(x, op).(phase := if n > r.c.readBuf then Retaking(n) else Peeking))
    case Retaking(n) => if op.head == Recv(n) then Some(Credited(x, op).(phase := Peeking)) else None
    case Poking => if op.head == Recv(r.c.readBuf) then Some(Credited(x, op).(phase := Ready)) else None
    case Writing =>
      if x.plan == [] || op.head != Head.Send(Piece(r, x.plan[0])) then None
      else Some(Sent(Credited(x, op).(plan := x.plan[1..]), x.plan[0] - Piece(r, x.plan[0])))
    case Sending(left) =>
      if op.head == Head.Send(Min(left, r.mss)) then Some(Sent(Credited(x, op), left - Min(left, r.mss))) else None
    case Waiting => if op.head.WaitSnd? then Some(x.(phase := Flushing)) else None
    case Flushing => if op.head.Flush? then Some(x.(phase := if GateOpen(r, x) then Asking else Ready)) else None
    case Asking => if op.head.WaitSnd? then Some(Asked(x, op)) else None
  }

  /** The whole trace. */
  function Read(r: Rules, start: Reading, ops: seq<Op>): Option<Reading> {
    if ops == [] then Some(start)
    else
      match Read(r, start, ops[..|ops| - 1])
      case None => None
      case Some(x) => Line(r, x, ops[|ops| - 1])
  }

  // ---------- How a trace opens ----------

  function If(wanted: bool, head: Head): seq<Head> { if wanted then [head] else [] }

  function Sends(sizes: seq<nat>): seq<Head> { seq(|sizes|, i requires 0 <= i < |sizes| => Head.Send(sizes[i])) }

  /** The setters that are configured, the stream mode, the first Check, the extra sends. */
  function Prologue(cfg: Config, c: SideConfig): seq<Head> {
    If(c.mtu != 0, SetMtu(c.mtu))
    + (If(c.noDelay.Some?, NoDelay(if c.noDelay.Some? then c.noDelay.value else []))
       + (If(c.sndWnd != 0 || c.rcvWnd != 0, WndSize(c.sndWnd, c.rcvWnd))
          + ([Stream(c.stream)] + (If(cfg.useUpdate, Check) + Sends(c.extraSends)))))
  }

  /** Before the first line. */
  function Opened(cfg: Config, s: Side): Reading {
    Reading(Rest(Prologue(cfg, cfg.SideOf(s))), Plan(cfg, cfg.SideOf(s), cfg.SideOf(s).writeBytes, 0), 0, 0, 0)
  }

  // ---------- What a trace that is read adds up to ----------

  function Sum(sizes: seq<nat>): nat { if sizes == [] then 0 else sizes[0] + Sum(sizes[1..]) }

  /** The bytes of the Sends among these calls. */
  function HeadBytes(heads: seq<Head>): nat {
    if heads == [] then 0 else (if heads[0].Send? then heads[0].n else 0) + HeadBytes(heads[1..])
  }

  /** The bytes handed to Send on a trace, those of Sends that returned 0, those Recv returned, and how often
    * PeekSize found nothing. */
  function Tried(ops: seq<Op>): nat {
    if ops == [] then 0 else Tried(ops[..|ops| - 1]) + if ops[|ops| - 1].head.Send? then ops[|ops| - 1].head.n else 0
  }

  function Delivered(ops: seq<Op>): nat {
    if ops == [] then 0
    else
      var last := ops[|ops| - 1];
      Delivered(ops[..|ops| - 1]) + if last.head.Send? && last.ret == 0 then last.head.n else 0
  }

  function Received(ops: seq<Op>): nat {
    if ops == [] then 0
    else
      var last := ops[|ops| - 1];
      Received(ops[..|ops| - 1]) + if last.head.Recv? && last.ret > 0 then last.ret else 0
  }

  function FoundNothing(ops: seq<Op>): nat {
    if ops == [] then 0
    else
      var last := ops[|ops| - 1];
      FoundNothing(ops[..|ops| - 1]) + if last.head.Peek? && last.ret < 0 then 1 else 0
  }

  /** What of the message in hand, or of the opening, is still to be sent. */
  function InHand(phase: Phase): nat {
    match phase
    case Opening(heads) => HeadBytes(heads)
    case Sending(left) => left
    case _ => 0
  }

  /** Of a trace that is read: its byte counts are those of its lines, and what was handed to Send, what is in
    * hand and what is planned is all there was to send. */
  lemma {:induction false} ReadAddsUp(r: Rules, start: Reading, ops: seq<Op>)
    requires Read(r, start, ops).Some? && start.sent == start.got == start.idle == 0
    requires start.phase.Opening? ==> Quick(start.phase.heads)
    ensures var x := Read(r, start, ops).value;
            && x.sent == Delivered(ops) && x.got == Received(ops) && x.idle == FoundNothing(ops)
            && (x.phase.Opening? ==> Quick(x.phase.heads))
            && Tried(ops) + InHand(x.phase) + Sum(x.plan) == InHand(start.phase) + Sum(start.plan)
  {
    if ops != [] {
      ReadAddsUp(r, start, ops[..|ops| - 1]);
      LineAddsUp(r, Read(r, start, ops[..|ops| - 1]).value, ops[|ops| - 1]);
    }
  }

  /** Nothing is read while a trace opens. */
  ghost predicate Quick(heads: seq<Head>) { forall head :: head in heads ==> !head.Peek? && !head.Recv? }

  lemma LineAddsUp(r: Rules, x: Reading, op: Op)
    requires Line(r, x, op).Some? && (x.phase.Opening? ==> Quick(x.phase.heads))
    ensures var y := Line(r, x, op).value;
            && (y.phase.Opening? ==> Quick(y.phase.heads))
            && y.idle == x.idle + (if op.head.Peek? && op.ret < 0 then 1 else 0)
            && y.sent == x.sent + (if op.head.Send? && op.ret == 0 then op.head.n else 0)
            && y.got == x.got + (if op.head.Recv? && op.ret > 0 then op.ret else 0)
            && (if op.head.Send? then op.head.n else 0) + InHand(y.phase) + Sum(y.plan) == InHand(x.phase) + Sum(x.plan)
  {
    if x.phase.Opening? { assert InHand(Rest(x.phase.heads[1..])) == HeadBytes(x.phase.heads[1..]); }
  }

  lemma {:induction false} AllDelivered(ops: seq<Op>)
    requires forall op :: op in ops && op.head.Send? ==> op.ret == 0
    ensures Delivered(ops) == Tried(ops)
  {
    if ops != [] {
      assert ops[|ops| - 1] in ops && forall op :: op in ops[..|ops| - 1] ==> op in ops;
      AllDelivered(ops[..|ops| - 1]);
    }
  }

  lemma {:induction false} HeadBytesAppend(a: seq<Head>, b: seq<Head>)
    ensures HeadBytes(a + b) == HeadBytes(a) + HeadBytes(b)
  {
    if a == [] {
      assert a + b == b;
    } else {
      HeadBytesAppend(a[1..], b);
      assert (a + b)[1..] == a[1..] + b;
    }
  }

  lemma {:induction false} SendsBytes(sizes: seq<nat>)
    ensures HeadBytes(Sends(sizes)) == Sum(sizes)
  {
    if sizes != [] {
      SendsBytes(sizes[1..]);
      assert Sends(sizes)[1..] == Sends(sizes[1..]);
    }
  }

  /** The opening sends the extra sends and nothing else. */
  lemma PrologueBytes(cfg: Config, c: SideConfig)
    ensures HeadBytes(Prologue(cfg, c)) == Sum(c.extraSends)
  {
    var last := If(cfg.useUpdate, Check) + Sends(c.extraSends);
    var stream := [Stream(c.stream)] + last;
    var window := If(c.sndWnd != 0 || c.rcvWnd != 0, WndSize(c.sndWnd, c.rcvWnd));
    var quick := If(c.noDelay.Some?, NoDelay(if c.noDelay.Some? then c.noDelay.value else []));
    SendsBytes(c.extraSends);
    HeadBytesAppend(If(cfg.useUpdate, Check), Sends(c.extraSends));
    HeadBytesAppend([Stream(c.stream)], last);
    HeadBytesAppend(window, stream);
    HeadBytesAppend(quick, window + stream);
    HeadBytesAppend(If(c.mtu != 0, SetMtu(c.mtu)), quick + (window + stream));
  }

  // ---------- The planned writes ----------

  /** What write number k takes if as much is left. */
  function WriteSize(cfg: Config, c: SideConfig, left: nat, k: nat): nat {
    if cfg.pingPong > 0 then cfg.pingPong
    else if c.maxWrite > 0 then 1 + Min(c.work(k), c.maxWrite - 1)
    else left
  }

  /** Every write has its size, only the last may be shorter. */
  ghost predicate Sized(cfg: Config, c: SideConfig, left: nat, k: nat, plan: seq<nat>) {
    && (forall i :: 0 <= i < |plan| ==> 0 < plan[i] <= WriteSize(cfg, c, left, k + i))
    && (forall i :: 0 <= i < |plan| - 1 ==> plan[i] == WriteSize(cfg, c, left, k + i))
  }

  lemma SizedOneMore(cfg: Config, c: SideConfig, left: nat, k: nat, n: nat, rest: seq<nat>)
    requires 0 < n <= left && n == Min(left, WriteSize(cfg, c, left, k)) && (n == left ==> rest == [])
    requires Sized(cfg, c, left - n, k + 1, rest)
    ensures Sized(cfg, c, left, k, [n] + rest)
  {
    var plan := [n] + rest;
    forall i | 0 < i < |plan|
      ensures 0 < plan[i] <= WriteSize(cfg, c, left, k + i)
      ensures i < |plan| - 1 ==> plan[i] == WriteSize(cfg, c, left, k + i)
    {
      assert plan[i] == rest[i - 1] && k + i == k + 1 + (i - 1);
    }
  }

  /** The plan takes all bytes, in writes of the ping-pong size, or of sizes drawn up to the largest write, or
    * all at once; only the last is shorter, and none is empty. */
  lemma {:induction false} PlanExactly(cfg: Config, c: SideConfig, left: nat, k: nat)
    ensures Sum(Plan(cfg, c, left, k)) == left && Sized(cfg, c, left, k, Plan(cfg, c, left, k))
    decreases left
  {
    if left > 0 {
      var n := PlanSize(cfg, c, left, k);
      PlanExactly(cfg, c, left - n, k + 1);
      var rest := Plan(cfg, c, left - n, k + 1);
      SizedOneMore(cfg, c, left, k, n, rest);
      assert Plan(cfg, c, left, k)[1..] == rest;
    }
  }
}
