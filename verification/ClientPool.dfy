/** The client's session pool and its scavenger (crates/client/src/main.rs, serve and scavenger):
    two tasks that share a channel of 128 places, modelled as interleaved steps. Every slot of a
    purge, every test of a session (its closed bit, then the clock), every dial, every channel
    operation and every inspection and close of a sweep is one step; a session may die and time may
    pass between any two. A session that dies, or time that passes, between the two reads of a test
    makes no difference: the test then comes out as if both were read where the later one is, or the
    death as if it came after. */
module ClientPool {
  import opened Helpers
  import RoundRobin

  // ---------------------------------------------------------------------------------------
  // Deadlines
  // ---------------------------------------------------------------------------------------

  type i64 = x: int | -0x8000_0000_0000_0000 <= x < 0x8000_0000_0000_0000

  const I64_MIN: i64 := -0x8000_0000_0000_0000
  const SECOND := 1_000_000_000
  const DURATION_MAX := 0xffff_ffff_ffff_ffff * SECOND + 999_999_999

  /** The instants the platform can represent, in nanoseconds. */
  datatype Clock = Clock(low: int, high: int) {
    predicate Has(t: int) { low <= t <= high }
  }

  /** The length of |seconds| seconds; i64::MIN has no absolute value and stands for the longest. */
  function Span(seconds: i64): nat {
    if seconds == I64_MIN then DURATION_MAX else if seconds < 0 then -seconds * SECOND else seconds * SECOND
  }

  /** t moved by the given seconds, or t itself where that is no instant. */
  function GoDeadline(clock: Clock, t: int, seconds: i64): (r: int)
    requires clock.Has(t)
    ensures clock.Has(r)
  {
    var moved := if seconds >= 0 then t + Span(seconds) else t - Span(seconds);
    if clock.Has(moved) then moved else t
  }

  /** The instant that many seconds away, if there is one, and otherwise the one given; only the smallest
      count, whose length no 64-bit number has, stands for the longest way back. */
  lemma GoDeadlineExactly(clock: Clock, t: int, seconds: i64)
    requires clock.Has(t)
    ensures var there := if seconds == -9_223_372_036_854_775_808 then t - 18_446_744_073_709_551_615_999_999_999
                         else t + seconds * 1_000_000_000;
            GoDeadline(clock, t, seconds) == if clock.low <= there <= clock.high then there else t
  {}

  /** A deadline is moved forward, or left alone, exactly for a count that is not negative or
      that cannot be subtracted. */
  lemma DeadlineNotEarlier(clock: Clock, t: int, seconds: i64)
    requires clock.Has(t)
    ensures GoDeadline(clock, t, seconds) >= t <==> seconds >= 0 || t - Span(seconds) < clock.low
  {}

  /** `conn as u16`, refused when it is 0. */
  function ConnU16(conn: i64): (r: Option<nat>)
    ensures r.None? <==> conn % 65536 == 0
    ensures r.Some? ==> 0 < r.value < 65536 && (conn - r.value) % 65536 == 0
  {
    if conn % 65536 == 0 then None else Some(conn % 65536)
  }

  // ---------------------------------------------------------------------------------------
  // The two tasks
  // ---------------------------------------------------------------------------------------

  type Id = nat

  datatype Timed = Timed(session: Id, expiry: int)

  const BACKLOG := 128

  datatype Config = Config(clock: Clock, autoExpire: i64, ttl: i64, numconn: nat) {
    predicate Valid() { clock.low <= clock.high && 0 < numconn < 65536 }
  }

  /** Where the accept loop is, with the slot of the connection it is serving. */
  datatype Pc =
    | Accepting
    | Purging(idx: nat, slot: nat)
    | Testing(idx: nat)
    | Dialling(idx: nat)
    | Sending(idx: nat, mux: Timed)
    | Serving(idx: nat)

  /** Where the scavenger is: waiting, or in a sweep begun at `start`. */
  datatype Sweep =
    | Idle
    | Draining(start: int, todo: seq<Timed>, kept: seq<Timed>)
    | Closing(start: int, s: Timed, todo: seq<Timed>, kept: seq<Timed>)

  datatype State = State(
    now: int,
    closed: set<Id>,
    expiry: seq<int>, // of every session dialled so far, by id: the pool's own deadline
    muxes: seq<Option<Timed>>, rr: nat, pc: Pc,
    accepts: nat, loads: seq<nat>, // connections served, in all and by slot
    channel: seq<Timed>,
    list: seq<Timed>, sweep: Sweep,
    reaped: seq<Id>) // sessions the scavenger has let go of

  function Init(cfg: Config, now: int): State {
    State(now, {}, [], seq(cfg.numconn, _ => None), 0, Accepting, 0, seq(cfg.numconn, _ => 0), [], [], Idle, [])
  }

  /** The pool's own test: a session it will not hand out any more. */
  predicate Stale(cfg: Config, st: State, t: Timed) {
    t.session in st.closed || (cfg.autoExpire > 0 && st.now > t.expiry)
  }

  /** The slot holds a session that may be handed out: open, and not past its time. */
  predicate Usable(cfg: Config, slot: Option<Timed>, closed: set<Id>, now: int) {
    slot.Some? && slot.value.session !in closed && (cfg.autoExpire > 0 ==> now <= slot.value.expiry)
  }

  datatype Action =
    | Accept | PurgeSlot | Test | Dial | Send | Serve
    | Receive | BeginSweep | Inspect | FinishClose | EndSweep
    | Die(id: Id) | Advance(to: int)

  function PurgeStep(cfg: Config, st: State): Option<State>
    requires cfg.Valid() && Shape(cfg, st)
  {
    if !st.pc.Purging? then None
    else if st.pc.slot < cfg.numconn then
      var slot := st.pc.slot;
      var dead := st.muxes[slot].Some? && st.muxes[slot].value.session in st.closed;
      Some(st.(muxes := if dead then st.muxes[slot := None] else st.muxes, pc := Purging(st.pc.idx, slot + 1)))
    else Some(st.(pc := Testing(st.pc.idx)))
  }

  function TestStep(cfg: Config, st: State): Option<State>
    requires cfg.Valid() && Shape(cfg, st)
  {
    if !st.pc.Testing? then None
    else
      var idx := st.pc.idx;
      var refresh := st.muxes[idx].None? || Stale(cfg, st, st.muxes[idx].value);
      Some(st.(pc := if refresh then Dialling(idx) else Serving(idx)))
  }

  function DialStep(cfg: Config, st: State): Option<State>
    requires cfg.Valid() && Shape(cfg, st)
  {
    if !st.pc.Dialling? then None
    else
      var mux := Timed(|st.expiry|, GoDeadline(cfg.clock, st.now, cfg.autoExpire));
      Some(st.(expiry := st.expiry + [mux.expiry], muxes := st.muxes[st.pc.idx := Some(mux)],
               pc := if cfg.autoExpire > 0 then Sending(st.pc.idx, mux) else Serving(st.pc.idx)))
  }

  function SendStep(st: State): Option<State> {
    if st.pc.Sending? && |st.channel| < BACKLOG
    then Some(st.(channel := st.channel + [st.pc.mux], pc := Serving(st.pc.idx))) else None
  }

  function ServeStep(cfg: Config, st: State): Option<State>
    requires cfg.Valid() && Shape(cfg, st)
  {
    if !st.pc.Serving? then None
    else if st.muxes[st.pc.idx].None? then Some(st.(pc := Accepting))
    else Some(st.(rr := (st.rr + 1) % 65536, accepts := st.accepts + 1,
                  loads := st.loads[st.pc.idx := st.loads[st.pc.idx] + 1], pc := Accepting))
  }

  function ReceiveStep(cfg: Config, st: State): Option<State>
    requires cfg.Valid() && Shape(cfg, st)
  {
    if !st.sweep.Idle? || st.channel == [] then None
    else
      var item := st.channel[0];
      Some(st.(list := st.list + [Timed(item.session, GoDeadline(cfg.clock, item.expiry, cfg.ttl))],
               channel := st.channel[1..]))
  }

  function InspectStep(st: State): Option<State> {
    match st.sweep
    case Draining(start, todo, kept) =>
      if todo == [] then None
      else if todo[0].session in st.closed then
        Some(st.(sweep := Draining(start, todo[1..], kept), reaped := st.reaped + [todo[0].session]))
      else if st.now > todo[0].expiry then Some(st.(sweep := Closing(start, todo[0], todo[1..], kept)))
      else Some(st.(sweep := Draining(start, todo[1..], kept + [todo[0]])))
    case _ => None
  }

  function CloseStep(st: State): Option<State> {
    match st.sweep
    case Closing(start, s, todo, kept) =>
      Some(st.(sweep := Draining(start, todo, kept), closed := st.closed + {s.session},
               reaped := st.reaped + [s.session]))
    case _ => None
  }

  /** One step, where it is enabled. */
  function Step(cfg: Config, st: State, a: Action): Option<State>
    requires cfg.Valid() && Shape(cfg, st)
  {
    match a
    case Accept => if st.pc.Accepting? then Some(st.(pc := Purging(st.rr % cfg.numconn, 0))) else None
    case PurgeSlot => PurgeStep(cfg, st)
    case Test => TestStep(cfg, st)
    case Dial => DialStep(cfg, st)
    case Send => SendStep(st)
    case Serve => ServeStep(cfg, st)
    case Receive => ReceiveStep(cfg, st)
    case BeginSweep => if st.sweep.Idle? then Some(st.(list := [], sweep := Draining(st.now, st.list, []))) else None
    case Inspect => InspectStep(st)
    case FinishClose => CloseStep(st)
    case EndSweep =>
      if st.sweep.Draining? && st.sweep.todo == [] then Some(st.(list := st.sweep.kept, sweep := Idle)) else None
    case Die(id) => if id < |st.expiry| then Some(st.(closed := st.closed + {id})) else None
    case Advance(to) => if st.now <= to <= cfg.clock.high then Some(st.(now := to)) else None
  }

  function SweepItems(s: Sweep): seq<Timed> {
    match s
    case Idle => []
    case Draining(_, todo, kept) => todo + kept
    case Closing(_, s, todo, kept) => [s] + todo + kept
  }

  function Hand(pc: Pc): seq<Timed> { if pc.Sending? then [pc.mux] else [] }

  // ---------------------------------------------------------------------------------------
  // Shape: the accept loop's own variables
  // ---------------------------------------------------------------------------------------

  predicate PcOk(cfg: Config, st: State)
    requires cfg.Valid() && |st.muxes| == cfg.numconn
  {
    match st.pc
    case Accepting => true
    case Purging(idx, slot) => idx == st.rr % cfg.numconn && slot <= cfg.numconn
    case Testing(idx) => idx == st.rr % cfg.numconn
    case Dialling(idx) => idx == st.rr % cfg.numconn
    case Sending(idx, mux) => idx == st.rr % cfg.numconn && cfg.autoExpire > 0 && st.muxes[idx] == Some(mux)
    case Serving(idx) => idx == st.rr % cfg.numconn && st.muxes[idx].Some?
  }

  /** The slot in hand is the round-robin one, it is filled whenever it is about to be used, and
      every served connection advanced the counter. */
  ghost predicate Shape(cfg: Config, st: State)
    requires cfg.Valid()
  {
    && cfg.clock.Has(st.now)
    && |st.muxes| == |st.loads| == cfg.numconn && PcOk(cfg, st)
    && st.rr == st.accepts % 65536
    && (forall j :: 0 <= j < cfg.numconn ==> st.loads[j] == RoundRobin.Load(st.accepts, cfg.numconn, j))
    && (forall j :: 0 <= j < cfg.numconn && st.muxes[j].Some? ==> cfg.clock.Has(st.muxes[j].value.expiry))
    && (forall k :: 0 <= k < |st.channel| ==> cfg.clock.Has(st.channel[k].expiry))
    && (!st.sweep.Idle? ==> st.list == [])
    && |st.channel| <= BACKLOG
  }

  lemma InitShape(cfg: Config, now: int)
    requires cfg.Valid() && cfg.clock.Has(now)
    ensures Shape(cfg, Init(cfg, now))
  {}

  lemma LoadsStep(loads: seq<nat>, after: seq<nat>, accepts: nat, slots: nat, idx: nat)
    requires |loads| == slots && 0 < slots && idx == RoundRobin.SlotOf(accepts, slots)
    requires forall j :: 0 <= j < slots ==> loads[j] == RoundRobin.Load(accepts, slots, j)
    requires after == loads[idx := loads[idx] + 1]
    ensures forall j :: 0 <= j < slots ==> after[j] == RoundRobin.Load(accepts + 1, slots, j)
  {}

  lemma CounterStep(accepts: nat)
    ensures (accepts % 65536 + 1) % 65536 == (accepts + 1) % 65536
  {
    Successor(accepts, 65536);
  }

  lemma ServeKeepsShape(cfg: Config, st: State)
    requires cfg.Valid() && Shape(cfg, st) && Step(cfg, st, Serve).Some?
    ensures Shape(cfg, Step(cfg, st, Serve).value)
    ensures Step(cfg, st, Serve).value.accepts == st.accepts + 1
  {
    var (r, idx) := (Step(cfg, st, Serve).value, st.pc.idx);
    CounterStep(st.accepts);
    assert r.loads == st.loads[idx := st.loads[idx] + 1];
    LoadsStep(st.loads, r.loads, st.accepts, cfg.numconn, idx);
  }

  lemma AcceptLoopKeepsShape(cfg: Config, st: State, a: Action)
    requires cfg.Valid() && Shape(cfg, st) && Step(cfg, st, a).Some?
    requires a.Accept? || a.PurgeSlot? || a.Test? || a.Dial? || a.Send?
    ensures Shape(cfg, Step(cfg, st, a).value)
  {}

  lemma ScavengerKeepsShape(cfg: Config, st: State, a: Action)
    requires cfg.Valid() && Shape(cfg, st) && Step(cfg, st, a).Some?
    requires a.Receive? || a.BeginSweep? || a.Inspect? || a.FinishClose? || a.EndSweep? || a.Die? || a.Advance?
    ensures Shape(cfg, Step(cfg, st, a).value)
  {}

  lemma StepKeepsShape(cfg: Config, st: State, a: Action)
    requires cfg.Valid() && Shape(cfg, st) && Step(cfg, st, a).Some?
    ensures Shape(cfg, Step(cfg, st, a).value)
  {
    if a.Serve? {
      ServeKeepsShape(cfg, st);
    } else if a.Accept? || a.PurgeSlot? || a.Test? || a.Dial? || a.Send? {
      AcceptLoopKeepsShape(cfg, st, a);
    } else {
      ScavengerKeepsShape(cfg, st, a);
    }
  }

  // ---------------------------------------------------------------------------------------
  // Stamps: which deadline is where
  // ---------------------------------------------------------------------------------------

  /** A session with the pool's deadline. */
  predicate PoolStamp(st: State, t: Timed) { t.session < |st.expiry| && t.expiry == st.expiry[t.session] }

  /** A session with the scavenger's. */
  ghost predicate ScavengerStamp(cfg: Config, st: State, t: Timed) {
    && t.session < |st.expiry| && cfg.clock.Has(st.expiry[t.session])
    && t.expiry == GoDeadline(cfg.clock, st.expiry[t.session], cfg.ttl)
  }

  ghost predicate Stamped(cfg: Config, st: State)
    requires cfg.Valid() && Shape(cfg, st)
  {
    && (forall id :: 0 <= id < |st.expiry| ==> cfg.clock.Has(st.expiry[id]))
    && (forall j :: 0 <= j < cfg.numconn && st.muxes[j].Some? ==> PoolStamp(st, st.muxes[j].value))
    && (forall k :: 0 <= k < |st.channel| ==> PoolStamp(st, st.channel[k]))
    && (forall k :: 0 <= k < |st.list| ==> ScavengerStamp(cfg, st, st.list[k]))
    && (forall k :: 0 <= k < |SweepItems(st.sweep)| ==> ScavengerStamp(cfg, st, SweepItems(st.sweep)[k]))
  }

  /** The scavenger's sessions after one of its steps were its sessions before. */
  lemma SweepKeepsStamped(cfg: Config, st: State, a: Action)
    requires cfg.Valid() && Shape(cfg, st) && Stamped(cfg, st) && Step(cfg, st, a).Some?
    requires a.BeginSweep? || a.Inspect? || a.FinishClose? || a.EndSweep?
    ensures Shape(cfg, Step(cfg, st, a).value) && Stamped(cfg, Step(cfg, st, a).value)
  {
    ScavengerKeepsShape(cfg, st, a);
    var r := Step(cfg, st, a).value;
    match a
    case Inspect => ItemsMoved(st.sweep, r.sweep);
    case FinishClose => ItemsMoved(st.sweep, r.sweep);
    case BeginSweep => assert SweepItems(r.sweep) == st.list;
    case EndSweep => assert SweepItems(st.sweep) == r.list;
  }

  lemma OtherKeepsStamped(cfg: Config, st: State, a: Action)
    requires cfg.Valid() && Shape(cfg, st) && Stamped(cfg, st) && Step(cfg, st, a).Some?
    requires !a.BeginSweep? && !a.Inspect? && !a.FinishClose? && !a.EndSweep?
    ensures Shape(cfg, Step(cfg, st, a).value) && Stamped(cfg, Step(cfg, st, a).value)
  {
    StepKeepsShape(cfg, st, a);
  }

  lemma StepKeepsStamped(cfg: Config, st: State, a: Action)
    requires cfg.Valid() && Shape(cfg, st) && Stamped(cfg, st) && Step(cfg, st, a).Some?
    ensures Shape(cfg, Step(cfg, st, a).value) && Stamped(cfg, Step(cfg, st, a).value)
  {
    if a.BeginSweep? || a.Inspect? || a.FinishClose? || a.EndSweep? {
      SweepKeepsStamped(cfg, st, a);
    } else {
      OtherKeepsStamped(cfg, st, a);
    }
  }

  /** A step of a sweep brings in nothing new. */
  lemma ItemsMoved(before: Sweep, after: Sweep)
    requires match (before, after)
             case (Draining(_, todo, kept), Draining(_, todo', kept')) =>
               todo != [] && todo' == todo[1..] && (kept' == kept || kept' == kept + [todo[0]])
             case (Draining(_, todo, kept), Closing(_, s, todo', kept')) =>
               todo != [] && s == todo[0] && todo' == todo[1..] && kept' == kept
             case (Closing(_, s, todo, kept), Draining(_, todo', kept')) => todo' == todo && kept' == kept
             case _ => false
    ensures forall k :: 0 <= k < |SweepItems(after)| ==> SweepItems(after)[k] in SweepItems(before)
  {}

  // ---------------------------------------------------------------------------------------
  // Custody: no session is orphaned
  // ---------------------------------------------------------------------------------------

  function Sessions(ts: seq<Timed>): (ids: seq<Id>)
    ensures |ids| == |ts|
  {
    seq(|ts|, k requires 0 <= k < |ts| => ts[k].session)
  }

  function Held(ts: seq<Timed>): multiset<Id> { multiset(Sessions(ts)) }

  function Ids(n: nat): seq<Id> { seq(n, i => i) }

  /** Where sessions are: in the accept loop's hand, in the channel, with the scavenger, reaped. */
  function Places(st: State): multiset<Id> {
    Held(Hand(st.pc)) + Held(st.channel) + Held(st.list) + Held(SweepItems(st.sweep)) + multiset(st.reaped)
  }

  /** Each dialled session is in exactly one place. */
  ghost predicate Custody(st: State) { Places(st) == multiset(Ids(|st.expiry|)) }

  /** What was reaped is closed. */
  ghost predicate ReapedClosed(st: State) { forall k :: 0 <= k < |st.reaped| ==> st.reaped[k] in st.closed }

  lemma HeldAppend(a: seq<Timed>, b: seq<Timed>)
    ensures Held(a + b) == Held(a) + Held(b)
  {
    assert Sessions(a + b) == Sessions(a) + Sessions(b);
  }

  lemma HeldOne(t: Timed)
    ensures Held([t]) == multiset{t.session}
  {
    assert Sessions([t]) == [t.session];
  }

  lemma HeldHead(ts: seq<Timed>)
    requires ts != []
    ensures Held(ts) == multiset{ts[0].session} + Held(ts[1..])
  {
    assert ts == [ts[0]] + ts[1..];
    HeldAppend([ts[0]], ts[1..]);
    HeldOne(ts[0]);
  }

  lemma HeldSweep(s: Sweep)
    ensures match s
            case Idle => Held(SweepItems(s)) == multiset{}
            case Draining(_, todo, kept) => Held(SweepItems(s)) == Held(todo) + Held(kept)
            case Closing(_, c, todo, kept) => Held(SweepItems(s)) == multiset{c.session} + (Held(todo) + Held(kept))
  {
    match s
    case Idle =>
    case Draining(_, todo, kept) => HeldAppend(todo, kept);
    case Closing(_, c, todo, kept) =>
      HeldAppend([c] + todo, kept);
      HeldAppend([c], todo);
      HeldOne(c);
  }

  lemma StepKeepsReapedClosed(cfg: Config, st: State, a: Action)
    requires cfg.Valid() && Shape(cfg, st) && Step(cfg, st, a).Some? && ReapedClosed(st)
    ensures ReapedClosed(Step(cfg, st, a).value)
  {}

  lemma DialKeepsCustody(cfg: Config, st: State)
    requires cfg.Valid() && Shape(cfg, st) && Step(cfg, st, Dial).Some? && cfg.autoExpire > 0 && Custody(st)
    ensures Custody(Step(cfg, st, Dial).value)
  {
    var r := Step(cfg, st, Dial).value;
    HeldOne(r.pc.mux);
    assert Ids(|r.expiry|) == Ids(|st.expiry|) + [|st.expiry|];
    NewInHand(Held(st.channel), Held(st.list), Held(SweepItems(st.sweep)), multiset(st.reaped), |st.expiry|);
    assert Held(Hand(st.pc)) == multiset{};
  }

  lemma NewInHand(a: multiset<Id>, b: multiset<Id>, c: multiset<Id>, d: multiset<Id>, id: Id)
    ensures multiset{id} + a + b + c + d == (multiset{} + a + b + c + d) + multiset{id}
  {}

  /** A step that moves no session. */
  lemma QuietKeepsCustody(st: State, r: State)
    requires Custody(st) && Hand(r.pc) == Hand(st.pc)
    requires r.expiry == st.expiry && r.channel == st.channel && r.list == st.list
    requires r.sweep == st.sweep && r.reaped == st.reaped
    ensures Custody(r)
  {}

  lemma SendKeepsCustody(st: State)
    requires SendStep(st).Some? && Custody(st)
    ensures Custody(SendStep(st).value)
  {
    HeldOne(st.pc.mux);
    HeldAppend(st.channel, [st.pc.mux]);
  }

  lemma ReceiveKeepsCustody(cfg: Config, st: State)
    requires cfg.Valid() && Shape(cfg, st) && Step(cfg, st, Receive).Some? && Custody(st)
    ensures Custody(Step(cfg, st, Receive).value)
  {
    var r := Step(cfg, st, Receive).value;
    var item := r.list[|st.list|];
    HeldHead(st.channel);
    HeldAppend(st.list, [item]);
    HeldOne(item);
  }

  /** What a step of a sweep takes from the scavenger's hands it reaps. */
  ghost predicate SweepBalanced(st: State, r: State) {
    Held(SweepItems(r.sweep)) + multiset(r.reaped) == Held(SweepItems(st.sweep)) + multiset(st.reaped)
  }

  lemma DropBalanced(st: State, r: State)
    requires st.sweep.Draining? && st.sweep.todo != []
    requires r.sweep == Draining(st.sweep.start, st.sweep.todo[1..], st.sweep.kept)
    requires r.reaped == st.reaped + [st.sweep.todo[0].session]
    ensures SweepBalanced(st, r)
  {
    var (todo, kept) := (st.sweep.todo, st.sweep.kept);
    HeldSweep(st.sweep);
    HeldSweep(r.sweep);
    HeldHead(todo);
    Reap(Held(todo[1..]) + Held(kept), todo[0].session, st.reaped);
  }

  lemma ExpireBalanced(st: State, r: State)
    requires st.sweep.Draining? && st.sweep.todo != [] && r.reaped == st.reaped
    requires r.sweep == Closing(st.sweep.start, st.sweep.todo[0], st.sweep.todo[1..], st.sweep.kept)
    ensures SweepBalanced(st, r)
  {
    HeldSweep(st.sweep);
    HeldSweep(r.sweep);
    HeldHead(st.sweep.todo);
  }

  lemma KeepBalanced(st: State, r: State)
    requires st.sweep.Draining? && st.sweep.todo != [] && r.reaped == st.reaped
    requires r.sweep == Draining(st.sweep.start, st.sweep.todo[1..], st.sweep.kept + [st.sweep.todo[0]])
    ensures SweepBalanced(st, r)
  {
    var (todo, kept) := (st.sweep.todo, st.sweep.kept);
    HeldSweep(st.sweep);
    HeldSweep(r.sweep);
    HeldHead(todo);
    HeldAppend(kept, [todo[0]]);
    HeldOne(todo[0]);
  }

  lemma InspectBalanced(st: State)
    requires InspectStep(st).Some?
    ensures SweepBalanced(st, InspectStep(st).value)
  {
    var (r, item) := (InspectStep(st).value, st.sweep.todo[0]);
    if item.session in st.closed {
      DropBalanced(st, r);
    } else if st.now > item.expiry {
      ExpireBalanced(st, r);
    } else {
      KeepBalanced(st, r);
    }
  }

  lemma CloseBalanced(st: State, r: State)
    requires st.sweep.Closing? && r.sweep == Draining(st.sweep.start, st.sweep.todo, st.sweep.kept)
    requires r.reaped == st.reaped + [st.sweep.s.session]
    ensures SweepBalanced(st, r)
  {
    HeldSweep(st.sweep);
    HeldSweep(r.sweep);
    Reap(Held(st.sweep.todo) + Held(st.sweep.kept), st.sweep.s.session, st.reaped);
  }

  lemma Reap(rest: multiset<Id>, id: Id, reaped: seq<Id>)
    ensures rest + multiset(reaped + [id]) == (multiset{id} + rest) + multiset(reaped)
  {}

  lemma BalancedKeepsCustody(st: State, r: State)
    requires Custody(st) && SweepBalanced(st, r)
    requires r.expiry == st.expiry && r.pc == st.pc && r.channel == st.channel && r.list == st.list
    ensures Custody(r)
  {
    Regroup(Held(Hand(st.pc)) + Held(st.channel) + Held(st.list),
            Held(SweepItems(st.sweep)), multiset(st.reaped), Held(SweepItems(r.sweep)), multiset(r.reaped));
  }

  lemma Regroup(rest: multiset<Id>, a: multiset<Id>, b: multiset<Id>, c: multiset<Id>, d: multiset<Id>)
    requires a + b == c + d
    ensures rest + a + b == rest + c + d
  {
    assert rest + a + b == rest + (a + b);
    assert rest + c + d == rest + (c + d);
  }

  /** Moving the whole list into a sweep, or out of it, moves no session out of the scavenger's hands. */
  lemma ListMoves(st: State, r: State)
    requires Custody(st)
    requires r.expiry == st.expiry && r.pc == st.pc && r.channel == st.channel && r.reaped == st.reaped
    requires (r.list == [] && SweepItems(r.sweep) == st.list && SweepItems(st.sweep) == [])
             || (st.list == [] && SweepItems(st.sweep) == r.list && SweepItems(r.sweep) == [])
    ensures Custody(r)
  {
    var (rest, held) := (Held(Hand(st.pc)) + Held(st.channel), Held(st.list + SweepItems(st.sweep)));
    HeldNone();
    assert st.list + SweepItems(st.sweep) == if st.list == [] then SweepItems(st.sweep) else st.list;
    SwapEmpty(rest, held, multiset(st.reaped));
  }

  lemma HeldNone()
    ensures Held([]) == multiset{}
  {}

  lemma SwapEmpty(rest: multiset<Id>, held: multiset<Id>, reaped: multiset<Id>)
    ensures rest + held + multiset{} + reaped == rest + multiset{} + held + reaped
  {}

  lemma SweepEndsKeepCustody(cfg: Config, st: State, a: Action)
    requires cfg.Valid() && Shape(cfg, st) && Step(cfg, st, a).Some? && Custody(st)
    requires a.BeginSweep? || a.EndSweep?
    ensures Custody(Step(cfg, st, a).value)
  {
    var r := Step(cfg, st, a).value;
    assert if a.BeginSweep? then SweepItems(r.sweep) == st.list else SweepItems(st.sweep) == r.list;
    ListMoves(st, r);
  }

  lemma InspectKeepsCustody(st: State)
    requires InspectStep(st).Some? && Custody(st)
    ensures Custody(InspectStep(st).value)
  {
    InspectBalanced(st);
    BalancedKeepsCustody(st, InspectStep(st).value);
  }

  lemma CloseKeepsCustody(st: State)
    requires CloseStep(st).Some? && Custody(st)
    ensures Custody(CloseStep(st).value)
  {
    CloseBalanced(st, CloseStep(st).value);
    BalancedKeepsCustody(st, CloseStep(st).value);
  }

  lemma StepKeepsCustody(cfg: Config, st: State, a: Action)
    requires cfg.Valid() && Shape(cfg, st) && Step(cfg, st, a).Some? && cfg.autoExpire > 0 && Custody(st)
    ensures Custody(Step(cfg, st, a).value)
  {
    match a
    case Dial => DialKeepsCustody(cfg, st);
    case Send => SendKeepsCustody(st);
    case Receive => ReceiveKeepsCustody(cfg, st);
    case BeginSweep => SweepEndsKeepCustody(cfg, st, a);
    case EndSweep => SweepEndsKeepCustody(cfg, st, a);
    case Inspect => InspectKeepsCustody(st);
    case FinishClose => CloseKeepsCustody(st);
    case _ => QuietKeepsCustody(st, Step(cfg, st, a).value);
  }

  // ---------------------------------------------------------------------------------------
  // Without expiry
  // ---------------------------------------------------------------------------------------

  ghost predicate InSlot(st: State, id: Id) {
    exists j :: 0 <= j < |st.muxes| && st.muxes[j].Some? && st.muxes[j].value.session == id
  }

  /** Without expiry the scavenger sees nothing, and every open session is in a slot. */
  ghost predicate Pinned(st: State) {
    && Hand(st.pc) == [] && st.channel == [] && st.list == [] && SweepItems(st.sweep) == [] && st.reaped == []
    && forall id :: 0 <= id < |st.expiry| ==> id in st.closed || InSlot(st, id)
  }

  /** The slot about to be dialled into is empty, or holds a session that is stale for good. */
  ghost predicate DialReady(cfg: Config, st: State)
    requires cfg.Valid() && Shape(cfg, st)
  {
    st.pc.Dialling? && st.muxes[st.pc.idx].Some? ==> Stale(cfg, st, st.muxes[st.pc.idx].value)
  }

  lemma StepKeepsDialReady(cfg: Config, st: State, a: Action)
    requires cfg.Valid() && Shape(cfg, st) && Step(cfg, st, a).Some? && DialReady(cfg, st)
    ensures Shape(cfg, Step(cfg, st, a).value) && DialReady(cfg, Step(cfg, st, a).value)
  {
    StepKeepsShape(cfg, st, a);
  }

  lemma StepKeepsPinned(cfg: Config, st: State, a: Action)
    requires cfg.Valid() && Shape(cfg, st) && Step(cfg, st, a).Some? && DialReady(cfg, st)
    requires cfg.autoExpire <= 0 && Pinned(st)
    ensures Pinned(Step(cfg, st, a).value)
  {
    var r := Step(cfg, st, a).value;
    forall id | 0 <= id < |r.expiry| ensures id in r.closed || InSlot(r, id) {
      if id == |st.expiry| {
        assert r.muxes[st.pc.idx].value.session == id;
      } else if id !in st.closed {
        var j :| 0 <= j < |st.muxes| && st.muxes[j].Some? && st.muxes[j].value.session == id;
        assert id in r.closed || r.muxes[j] == st.muxes[j];
      }
    }
  }

  // ---------------------------------------------------------------------------------------
  // The sweep
  // ---------------------------------------------------------------------------------------

  /** What a sweep closes is past the scavenger's deadline, and what it keeps was not when the
      sweep began. */
  ghost predicate SweepOk(st: State) {
    match st.sweep
    case Idle => true
    case Draining(start, _, kept) =>
      start <= st.now && forall k :: 0 <= k < |kept| ==> kept[k].expiry >= start
    case Closing(start, s, _, kept) =>
      start <= st.now && st.now > s.expiry && forall k :: 0 <= k < |kept| ==> kept[k].expiry >= start
  }

  lemma StepKeepsSweepOk(cfg: Config, st: State, a: Action)
    requires cfg.Valid() && Shape(cfg, st) && Step(cfg, st, a).Some? && SweepOk(st)
    ensures SweepOk(Step(cfg, st, a).value)
  {}

  /** No session that was overdue when a sweep began is left in the list when it ends. */
  lemma SweepLeavesNoOverdue(cfg: Config, st: State, t: Timed)
    requires cfg.Valid() && Shape(cfg, st) && SweepOk(st) && Step(cfg, st, EndSweep).Some?
    requires t in Step(cfg, st, EndSweep).value.list
    ensures t.expiry >= st.sweep.start
  {
    var k :| 0 <= k < |st.sweep.kept| && st.sweep.kept[k] == t;
  }

  // ---------------------------------------------------------------------------------------
  // Runs
  // ---------------------------------------------------------------------------------------

  ghost predicate Inv(cfg: Config, st: State)
    requires cfg.Valid()
  {
    && Shape(cfg, st) && Stamped(cfg, st) && ReapedClosed(st) && SweepOk(st) && DialReady(cfg, st)
    && if cfg.autoExpire > 0 then Custody(st) else Pinned(st)
  }

  lemma InitInv(cfg: Config, now: int)
    requires cfg.Valid() && cfg.clock.Has(now)
    ensures Inv(cfg, Init(cfg, now))
  {
    assert Held([]) == multiset{} && Ids(0) == [];
  }

  lemma StepKeepsInv(cfg: Config, st: State, a: Action)
    requires cfg.Valid() && Inv(cfg, st) && Step(cfg, st, a).Some?
    ensures Inv(cfg, Step(cfg, st, a).value)
  {
    StepKeepsStamped(cfg, st, a);
    StepKeepsReapedClosed(cfg, st, a);
    StepKeepsSweepOk(cfg, st, a);
    StepKeepsDialReady(cfg, st, a);
    if cfg.autoExpire > 0 { StepKeepsCustody(cfg, st, a); } else { StepKeepsPinned(cfg, st, a); }
  }

  /** A run: the state after the given steps, if each is enabled in turn. */
  ghost function Run(cfg: Config, st: State, actions: seq<Action>): Option<State>
    requires cfg.Valid() && Shape(cfg, st)
    decreases |actions|
  {
    if actions == [] then Some(st)
    else if Step(cfg, st, actions[0]).None? then None
    else
      StepKeepsShape(cfg, st, actions[0]);
      Run(cfg, Step(cfg, st, actions[0]).value, actions[1..])
  }

  /** Neither time, nor deaths, nor dials go back. */
  predicate Forward(st: State, r: State) {
    st.now <= r.now && st.closed <= r.closed && st.expiry <= r.expiry
  }

  lemma StepForward(cfg: Config, st: State, a: Action)
    requires cfg.Valid() && Shape(cfg, st) && Step(cfg, st, a).Some?
    ensures Forward(st, Step(cfg, st, a).value)
  {}

  lemma {:induction false} RunForward(cfg: Config, st: State, actions: seq<Action>)
    requires cfg.Valid() && Shape(cfg, st) && Run(cfg, st, actions).Some?
    ensures Forward(st, Run(cfg, st, actions).value)
    decreases |actions|
  {
    if actions != [] {
      StepKeepsShape(cfg, st, actions[0]);
      StepForward(cfg, st, actions[0]);
      RunForward(cfg, Step(cfg, st, actions[0]).value, actions[1..]);
    }
  }

  /** Every run keeps the invariant. */
  lemma {:induction false} RunKeepsInv(cfg: Config, st: State, actions: seq<Action>)
    requires cfg.Valid() && Inv(cfg, st) && Run(cfg, st, actions).Some?
    ensures Inv(cfg, Run(cfg, st, actions).value)
    decreases |actions|
  {
    if actions != [] {
      StepKeepsInv(cfg, st, actions[0]);
      RunKeepsInv(cfg, Step(cfg, st, actions[0]).value, actions[1..]);
    }
  }

  ghost predicate Reachable(cfg: Config, st: State)
    requires cfg.Valid()
  {
    exists now, actions :: ReachedBy(cfg, now, actions, st)
  }

  ghost predicate ReachedBy(cfg: Config, now: int, actions: seq<Action>, st: State)
    requires cfg.Valid()
  {
    cfg.clock.Has(now) && (InitShape(cfg, now); Run(cfg, Init(cfg, now), actions) == Some(st))
  }

  lemma ReachableInv(cfg: Config, st: State)
    requires cfg.Valid() && Reachable(cfg, st)
    ensures Inv(cfg, st)
  {
    var now, actions :| ReachedBy(cfg, now, actions, st);
    InitInv(cfg, now);
    RunKeepsInv(cfg, Init(cfg, now), actions);
  }

  // ---------------------------------------------------------------------------------------
  // No deadlock
  // ---------------------------------------------------------------------------------------

  /** A step of one of the two tasks, as opposed to a session's death or passing time. */
  predicate OfATask(a: Action) { !a.Die? && !a.Advance? }

  /** By these steps of the two tasks alone the accept loop gets back to accepting. */
  ghost predicate LeadsToAccept(cfg: Config, st: State, actions: seq<Action>)
    requires cfg.Valid() && Shape(cfg, st)
  {
    && (forall k :: 0 <= k < |actions| ==> OfATask(actions[k]))
    && Run(cfg, st, actions).Some? && Run(cfg, st, actions).value.pc.Accepting?
  }

  ghost predicate CanAccept(cfg: Config, st: State)
    requires cfg.Valid() && Shape(cfg, st)
  {
    exists actions :: LeadsToAccept(cfg, st, actions)
  }

  lemma CanAfterStep(cfg: Config, st: State, a: Action)
    requires cfg.Valid() && Shape(cfg, st) && OfATask(a) && Step(cfg, st, a).Some?
    requires Shape(cfg, Step(cfg, st, a).value) && CanAccept(cfg, Step(cfg, st, a).value)
    ensures CanAccept(cfg, st)
  {
    var rest :| LeadsToAccept(cfg, Step(cfg, st, a).value, rest);
    assert ([a] + rest)[1..] == rest;
    assert LeadsToAccept(cfg, st, [a] + rest);
  }

  lemma CanFromServing(cfg: Config, st: State)
    requires cfg.Valid() && Shape(cfg, st) && (st.pc.Accepting? || st.pc.Serving?)
    ensures CanAccept(cfg, st)
  {
    if st.pc.Accepting? {
      assert LeadsToAccept(cfg, st, []);
    } else {
      StepKeepsShape(cfg, st, Serve);
      var next := Step(cfg, st, Serve).value;
      assert LeadsToAccept(cfg, next, []);
      CanAfterStep(cfg, st, Serve);
    }
  }

  lemma CanFromRoom(cfg: Config, st: State)
    requires cfg.Valid() && Shape(cfg, st) && st.pc.Sending? && |st.channel| < BACKLOG
    ensures CanAccept(cfg, st)
  {
    StepKeepsShape(cfg, st, Send);
    CanFromServing(cfg, Step(cfg, st, Send).value);
    CanAfterStep(cfg, st, Send);
  }

  /** How many steps the scavenger's sweep still takes. */
  function StepsLeft(s: Sweep): nat {
    match s
    case Idle => 0
    case Draining(_, todo, _) => 2 * |todo| + 1
    case Closing(_, _, todo, _) => 2 * |todo| + 2
  }

  /** What the scavenger does next while the accept loop waits for room in the channel. */
  function Unblocking(s: Sweep): Action {
    match s
    case Idle => Receive
    case Draining(_, todo, _) => if todo == [] then EndSweep else Inspect
    case Closing(_, _, _, _) => FinishClose
  }

  /** With a full channel the scavenger's next step is enabled, makes room or shortens its sweep. */
  lemma ScavengerUnblocks(cfg: Config, st: State)
    requires cfg.Valid() && Shape(cfg, st) && st.pc.Sending? && |st.channel| == BACKLOG
    ensures var a := Unblocking(st.sweep);
            && Step(cfg, st, a).Some? && OfATask(a) && Shape(cfg, Step(cfg, st, a).value)
            && Step(cfg, st, a).value.pc == st.pc
            && (|Step(cfg, st, a).value.channel| < BACKLOG || StepsLeft(Step(cfg, st, a).value.sweep) < StepsLeft(st.sweep))
  {
    StepKeepsShape(cfg, st, Unblocking(st.sweep));
  }

  /** A full channel is emptied by the scavenger, whatever its sweep still has to do. */
  lemma {:induction false} CanFromSending(cfg: Config, st: State)
    requires cfg.Valid() && Shape(cfg, st) && st.pc.Sending?
    ensures CanAccept(cfg, st)
    decreases StepsLeft(st.sweep)
  {
    if |st.channel| < BACKLOG {
      CanFromRoom(cfg, st);
    } else {
      var a := Unblocking(st.sweep);
      ScavengerUnblocks(cfg, st);
      var next := Step(cfg, st, a).value;
      if |next.channel| < BACKLOG { CanFromRoom(cfg, next); } else { CanFromSending(cfg, next); }
      CanAfterStep(cfg, st, a);
    }
  }

  lemma CanFromDialling(cfg: Config, st: State)
    requires cfg.Valid() && Shape(cfg, st) && st.pc.Dialling?
    ensures CanAccept(cfg, st)
  {
    StepKeepsShape(cfg, st, Dial);
    var next := Step(cfg, st, Dial).value;
    if next.pc.Sending? { CanFromSending(cfg, next); } else { CanFromServing(cfg, next); }
    CanAfterStep(cfg, st, Dial);
  }

  lemma CanFromTesting(cfg: Config, st: State)
    requires cfg.Valid() && Shape(cfg, st) && st.pc.Testing?
    ensures CanAccept(cfg, st)
  {
    StepKeepsShape(cfg, st, Test);
    var next := Step(cfg, st, Test).value;
    if next.pc.Dialling? { CanFromDialling(cfg, next); } else { CanFromServing(cfg, next); }
    CanAfterStep(cfg, st, Test);
  }

  lemma {:induction false} CanFromPurging(cfg: Config, st: State)
    requires cfg.Valid() && Shape(cfg, st) && st.pc.Purging?
    ensures CanAccept(cfg, st)
    decreases cfg.numconn - st.pc.slot
  {
    StepKeepsShape(cfg, st, PurgeSlot);
    var next := Step(cfg, st, PurgeSlot).value;
    if next.pc.Purging? { CanFromPurging(cfg, next); } else { CanFromTesting(cfg, next); }
    CanAfterStep(cfg, st, PurgeSlot);
  }

  /** The channel never holds more than its 128 places, and from every reachable state the two tasks
    * alone bring the accept loop back to accepting: a full channel never deadlocks them. */
  lemma NeverDeadlocks(cfg: Config, st: State)
    requires cfg.Valid() && Reachable(cfg, st)
    ensures Shape(cfg, st) && |st.channel| <= BACKLOG && CanAccept(cfg, st)
  {
    ReachableInv(cfg, st);
    match st.pc
    case Accepting => CanFromServing(cfg, st);
    case Purging(_, _) => CanFromPurging(cfg, st);
    case Testing(_) => CanFromTesting(cfg, st);
    case Dialling(_) => CanFromDialling(cfg, st);
    case Sending(_, _) => CanFromSending(cfg, st);
    case Serving(_) => CanFromServing(cfg, st);
  }

  lemma {:induction false} IdsCount(n: nat, id: Id)
    ensures multiset(Ids(n))[id] == if id < n then 1 else 0
  {
    if n > 0 {
      IdsCount(n - 1, id);
      assert Ids(n) == Ids(n - 1) + [n - 1];
    }
  }

  /** No session is orphaned, in any interleaving. With expiry on, every session ever dialled is
      in exactly one place: the accept loop's hand, the channel, the scavenger's hands, or reaped,
      and then it is closed. Without, every open session is in a slot. */
  lemma NoSessionOrphaned(cfg: Config, st: State, id: Id)
    requires cfg.Valid() && Reachable(cfg, st) && id < |st.expiry|
    ensures cfg.autoExpire > 0 ==> Places(st)[id] == 1 && (id in st.reaped ==> id in st.closed)
    ensures cfg.autoExpire <= 0 ==> id in st.closed || InSlot(st, id)
  {
    ReachableInv(cfg, st);
    IdsCount(|st.expiry|, id);
  }

  /** With a ttl that is not negative, the scavenger only ever closes sessions that the pool's own
      test refuses at that moment and at every later one, deadlines that saturate included. */
  lemma OnlyStaleSessionsClosed(cfg: Config, st: State, later: seq<Action>)
    requires cfg.Valid() && Reachable(cfg, st) && cfg.ttl >= 0 && st.sweep.Closing?
    requires Shape(cfg, st) && Run(cfg, st, later).Some?
    ensures var id := st.sweep.s.session;
            var r := Run(cfg, st, later).value;
            id < |st.expiry| <= |r.expiry| && Stale(cfg, r, Timed(id, r.expiry[id]))
  {
    ReachableInv(cfg, st);
    RunForward(cfg, st, later);
    var s := st.sweep.s;
    assert s == SweepItems(st.sweep)[0];
    DeadlineNotEarlier(cfg.clock, st.expiry[s.session], cfg.ttl);
  }

  /** There is a moment at which the scavenger would close a session the pool still hands out
      exactly for a negative ttl that can be subtracted from the session's deadline. */
  lemma EarlyCloseExactly(clock: Clock, expiry: int, ttl: i64)
    requires clock.Has(expiry)
    ensures (exists now :: ClosesEarly(clock, expiry, ttl, now)) <==> ttl < 0 && expiry - Span(ttl) >= clock.low
  {
    DeadlineNotEarlier(clock, expiry, ttl);
    if GoDeadline(clock, expiry, ttl) < expiry {
      assert ClosesEarly(clock, expiry, ttl, expiry);
    }
  }

  /** Past the scavenger's deadline, and not yet past the pool's. */
  predicate ClosesEarly(clock: Clock, expiry: int, ttl: i64, now: int)
    requires clock.Has(expiry)
  {
    GoDeadline(clock, expiry, ttl) < now <= expiry
  }

  /** The "unreachable" branch is unreachable: the slot of a connection about to be served is
      filled, so every connection served advances `rr`, and the loads are those of round robin. */
  lemma EveryServeAdvances(cfg: Config, st: State, i: nat, j: nat)
    requires cfg.Valid() && Reachable(cfg, st) && i < cfg.numconn && j < cfg.numconn
    ensures |st.muxes| == |st.loads| == cfg.numconn
    ensures st.pc.Serving? ==> st.pc.idx == RoundRobin.SlotOf(st.accepts, cfg.numconn) && st.muxes[st.pc.idx].Some?
    ensures st.loads[i] <= st.loads[j] + RoundRobin.Ceil(st.accepts)
    ensures 65536 % cfg.numconn == 0 ==> st.loads[i] <= st.loads[j] + 1
  {
    ReachableInv(cfg, st);
    RoundRobin.LoadsBalanced(st.accepts, cfg.numconn, i, j);
  }
}
