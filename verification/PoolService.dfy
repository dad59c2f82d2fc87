/** What the client's pool promises those it serves (crates/client/src/main.rs, serve): which session a
    connection gets, for how long a session is handed out, what a purge lets go of, and in which order
    sessions reach the scavenger. */
module PoolService {
  import opened Helpers
  import opened ClientPool

  // ---------------------------------------------------------------------------------------
  // Which session is handed out
  // ---------------------------------------------------------------------------------------

  /** The test sends a connection to the slot's own session if and only if that is open and not past its
      time, and to the dialler otherwise; it changes nothing else. */
  lemma TestExactly(cfg: Config, st: State)
    requires cfg.Valid() && Shape(cfg, st) && st.pc.Testing?
    ensures var idx := st.pc.idx;
            Step(cfg, st, Test) == Some(st.(pc := if Usable(cfg, st.muxes[idx], st.closed, st.now) then Serving(idx) else Dialling(idx)))
  {}

  /** From a dial at one moment to a test of that session at any later one, whatever happens in between:
      it is handed out if and only if it is still open and, with expiry on, no more than autoexpire seconds
      old; where the clock cannot tell that moment it expires at once. */
  lemma HandedOutExactly(cfg: Config, st: State, later: seq<Action>, r: State)
    requires cfg.Valid() && Reachable(cfg, st) && Shape(cfg, st) && Step(cfg, st, Dial).Some?
    requires Shape(cfg, Step(cfg, st, Dial).value) && Run(cfg, Step(cfg, st, Dial).value, later) == Some(r)
    requires r.pc.Testing? && r.pc.idx < |r.muxes| && r.muxes[r.pc.idx].Some?
    requires r.muxes[r.pc.idx].value.session == |st.expiry|
    ensures Shape(cfg, r)
    ensures var end := st.now + cfg.autoExpire * 1_000_000_000;
            Step(cfg, r, Test).value.pc.Serving? <==>
              && |st.expiry| !in r.closed
              && (cfg.autoExpire > 0 ==> r.now <= if end <= cfg.clock.high then end else st.now)
  {
    var dialled := Step(cfg, st, Dial).value;
    ReachableInv(cfg, st);
    StepKeepsInv(cfg, st, Dial);
    RunKeepsInv(cfg, dialled, later);
    RunForward(cfg, dialled, later);
    TestExactly(cfg, r);
    GoDeadlineExactly(cfg.clock, st.now, cfg.autoExpire);
    assert dialled.expiry[|st.expiry|] == r.expiry[|st.expiry|];
  }

  // ---------------------------------------------------------------------------------------
  // What a purge lets go of
  // ---------------------------------------------------------------------------------------

  /** None of the first n slots holds one of these sessions. */
  ghost predicate Clean(st: State, gone: set<Id>, n: nat) {
    forall j :: 0 <= j < n && j < |st.muxes| && st.muxes[j].Some? ==> st.muxes[j].value.session !in gone
  }

  /** A purge of these sessions is through, or has come as far as its slot. */
  ghost predicate Purged(cfg: Config, st: State, gone: set<Id>) {
    && gone <= st.closed && (forall id :: id in gone ==> id < |st.expiry|)
    && (Clean(st, gone, cfg.numconn) || (st.pc.Purging? && Clean(st, gone, st.pc.slot)))
  }

  lemma StepKeepsPurged(cfg: Config, st: State, a: Action, gone: set<Id>)
    requires cfg.Valid() && Shape(cfg, st) && Step(cfg, st, a).Some? && Purged(cfg, st, gone)
    ensures Purged(cfg, Step(cfg, st, a).value, gone)
  {
    match a
    case PurgeSlot => PurgeKeepsPurged(cfg, st, gone);
    case Dial => DialKeepsPurged(cfg, st, gone);
    case _ => assert Step(cfg, st, a).value.muxes == st.muxes;
  }

  lemma PurgeKeepsPurged(cfg: Config, st: State, gone: set<Id>)
    requires cfg.Valid() && Shape(cfg, st) && PurgeStep(cfg, st).Some? && Purged(cfg, st, gone)
    ensures Purged(cfg, PurgeStep(cfg, st).value, gone)
  {}

  lemma DialKeepsPurged(cfg: Config, st: State, gone: set<Id>)
    requires cfg.Valid() && Shape(cfg, st) && DialStep(cfg, st).Some? && Purged(cfg, st, gone)
    ensures Purged(cfg, DialStep(cfg, st).value, gone)
  {}

  lemma {:induction false} RunKeepsPurged(cfg: Config, st: State, actions: seq<Action>, gone: set<Id>)
    requires cfg.Valid() && Shape(cfg, st) && Run(cfg, st, actions).Some? && Purged(cfg, st, gone)
    ensures Purged(cfg, Run(cfg, st, actions).value, gone)
    decreases |actions|
  {
    if actions != [] {
      StepKeepsShape(cfg, st, actions[0]);
      StepKeepsPurged(cfg, st, actions[0], gone);
      RunKeepsPurged(cfg, Step(cfg, st, actions[0]).value, actions[1..], gone);
    }
  }

  /** Once the purge that begins now is over, and for ever after, no slot holds a session that had died by
      now, whatever else happens meanwhile. */
  lemma PurgeLetsGo(cfg: Config, st: State, actions: seq<Action>, j: nat)
    requires cfg.Valid() && Shape(cfg, st) && st.pc.Purging? && st.pc.slot == 0 && Run(cfg, st, actions).Some?
    ensures var r := Run(cfg, st, actions).value;
            !r.pc.Purging? && j < cfg.numconn && j < |r.muxes| && r.muxes[j].Some? ==>
              var id := r.muxes[j].value.session; id < |st.expiry| ==> id !in st.closed
  {
    RunKeepsPurged(cfg, st, actions, set id | id in st.closed && id < |st.expiry|);
  }

  // ---------------------------------------------------------------------------------------
  // The order in which sessions reach the scavenger
  // ---------------------------------------------------------------------------------------

  /** The scavenger's sessions, those of a sweep in the order in which it will have them back. */
  function Queue(s: Sweep): seq<Timed> {
    match s
    case Idle => []
    case Draining(_, todo, kept) => kept + todo
    case Closing(_, s, todo, kept) => kept + [s] + todo
  }

  /** All sessions on their way: with the scavenger, in the channel, in the accept loop's hand. */
  function Line(st: State): seq<Timed> { Queue(st.sweep) + st.list + st.channel + Hand(st.pc) }

  ghost predicate InDialOrder(ts: seq<Timed>, dialled: nat) {
    && (forall i, j :: 0 <= i < j < |ts| ==> ts[i].session < ts[j].session)
    && forall i :: 0 <= i < |ts| ==> ts[i].session < dialled
  }

  /** The line of another state: the same sessions, or all but the one at position k, or one new one. */
  predicate LineMoves(before: seq<Timed>, after: seq<Timed>, k: nat, dialled: nat) {
    || (|after| == |before| && forall i :: 0 <= i < |after| ==> after[i].session == before[i].session)
    || (k < |before| && after == before[..k] + before[k + 1..])
    || (|after| == |before| + 1 && after[..|before|] == before && after[|before|].session == dialled)
  }

  lemma MovesKeepOrder(before: seq<Timed>, after: seq<Timed>, k: nat, dialled: nat, now: nat)
    requires InDialOrder(before, dialled) && LineMoves(before, after, k, dialled)
    requires dialled <= now && (|after| > |before| ==> now > dialled)
    ensures InDialOrder(after, now)
  {
  }

  lemma DialMoves(cfg: Config, st: State)
    requires cfg.Valid() && Shape(cfg, st) && Step(cfg, st, Dial).Some?
    ensures LineMoves(Line(st), Line(Step(cfg, st, Dial).value), 0, |st.expiry|)
  {
    assert Hand(st.pc) == [];
  }

  lemma ReceiveMoves(cfg: Config, st: State)
    requires cfg.Valid() && Shape(cfg, st) && Step(cfg, st, Receive).Some?
    ensures LineMoves(Line(st), Line(Step(cfg, st, Receive).value), 0, |st.expiry|)
  {
  }

  lemma SendMoves(st: State)
    requires SendStep(st).Some?
    ensures Line(SendStep(st).value) == Line(st)
  {
    assert Hand(st.pc) == [st.pc.mux] && Hand(SendStep(st).value.pc) == [];
  }

  lemma BeginMoves(cfg: Config, st: State)
    requires cfg.Valid() && Shape(cfg, st) && Step(cfg, st, BeginSweep).Some?
    ensures Line(Step(cfg, st, BeginSweep).value) == Line(st)
  {
    assert Queue(Step(cfg, st, BeginSweep).value.sweep) == st.list && Queue(st.sweep) == [];
  }

  lemma EndMoves(cfg: Config, st: State)
    requires cfg.Valid() && Shape(cfg, st) && Step(cfg, st, EndSweep).Some?
    ensures Line(Step(cfg, st, EndSweep).value) == Line(st)
  {
    assert Queue(st.sweep) == st.sweep.kept && st.list == [];
  }

  /** A step of a sweep keeps the session it looks at in its place, or lets go of it. */
  lemma SweepMoves(st: State, r: State)
    requires r == st.(sweep := r.sweep, reaped := r.reaped, closed := r.closed) && !st.sweep.Idle? && !r.sweep.Idle?
    requires SweepsOn(st.sweep, r.sweep)
    ensures LineMoves(Line(st), Line(r), |st.sweep.kept|, |st.expiry|)
  {
    var rest := st.list + st.channel + Hand(st.pc);
    QueueMoves(st.sweep, r.sweep, rest);
    assert Line(st) == Queue(st.sweep) + rest && Line(r) == Queue(r.sweep) + rest;
  }

  predicate SweepsOn(s: Sweep, t: Sweep) {
    match s
    case Idle => false
    case Draining(_, todo, kept) => todo != [] && (
        || (t.Draining? && t.todo == todo[1..] && (t.kept == kept || t.kept == kept + [todo[0]]))
        || (t.Closing? && t.s == todo[0] && t.todo == todo[1..] && t.kept == kept))
    case Closing(_, _, todo, kept) => t.Draining? && t.todo == todo && t.kept == kept
  }

  lemma QueueMoves(s: Sweep, t: Sweep, rest: seq<Timed>)
    requires SweepsOn(s, t)
    ensures var (before, after, k) := (Queue(s), Queue(t), |s.kept|);
            after == before || (k < |before| && after + rest == (before + rest)[..k] + (before + rest)[k + 1..])
  {
    if s.Draining? { assert s.todo == [s.todo[0]] + s.todo[1..]; }
  }

  lemma StepMovesLine(cfg: Config, st: State, a: Action) returns (k: nat)
    requires cfg.Valid() && Shape(cfg, st) && Step(cfg, st, a).Some?
    ensures LineMoves(Line(st), Line(Step(cfg, st, a).value), k, |st.expiry|)
  {
    k := 0;
    match a
    case Dial => DialMoves(cfg, st);
    case Receive => ReceiveMoves(cfg, st);
    case Send => SendMoves(st);
    case BeginSweep => BeginMoves(cfg, st);
    case EndSweep => EndMoves(cfg, st);
    case Inspect =>
      SweepMoves(st, Step(cfg, st, a).value);
      k := |st.sweep.kept|;
    case FinishClose =>
      SweepMoves(st, Step(cfg, st, a).value);
      k := |st.sweep.kept|;
    case _ => assert Line(Step(cfg, st, a).value) == Line(st);
  }

  lemma OnlyDialsLengthen(cfg: Config, st: State, a: Action)
    requires cfg.Valid() && Shape(cfg, st) && Step(cfg, st, a).Some?
    ensures var r := Step(cfg, st, a).value;
            |r.expiry| >= |st.expiry| && (|Line(r)| > |Line(st)| ==> |r.expiry| > |st.expiry|)
  {
  }

  lemma {:induction false} RunKeepsOrder(cfg: Config, st: State, actions: seq<Action>)
    requires cfg.Valid() && Shape(cfg, st) && Run(cfg, st, actions).Some? && InDialOrder(Line(st), |st.expiry|)
    ensures var r := Run(cfg, st, actions).value; InDialOrder(Line(r), |r.expiry|)
    decreases |actions|
  {
    if actions != [] {
      var r := Step(cfg, st, actions[0]).value;
      StepKeepsShape(cfg, st, actions[0]);
      var k := StepMovesLine(cfg, st, actions[0]);
      OnlyDialsLengthen(cfg, st, actions[0]);
      MovesKeepOrder(Line(st), Line(r), k, |st.expiry|, |r.expiry|);
      RunKeepsOrder(cfg, r, actions[1..]);
    }
  }

  /** In every reachable state the sessions with the scavenger, then those in the channel, then the one in
      the accept loop's hand are in the order in which they were dialled: the channel overtakes nothing, and
      a sweep keeps the order of what it keeps. */
  lemma AlwaysInDialOrder(cfg: Config, st: State)
    requires cfg.Valid() && Reachable(cfg, st)
    ensures InDialOrder(Line(st), |st.expiry|)
  {
    var now, actions :| ReachedBy(cfg, now, actions, st);
    InitShape(cfg, now);
    RunKeepsOrder(cfg, Init(cfg, now), actions);
  }

  /** The accept loop hands a session over as soon as fewer than 128 are in the channel, and not before. */
  lemma SendsBelowBacklog(cfg: Config, st: State)
    requires cfg.Valid() && Shape(cfg, st) && st.pc.Sending?
    ensures Step(cfg, st, Send).Some? <==> |st.channel| < 128
    ensures |st.channel| < 128 ==> Step(cfg, st, Send).value.channel == st.channel + [st.pc.mux]
  {}
}
