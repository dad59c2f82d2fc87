/** The two loops of the client (crates/client/src/main.rs, serve and scavenger) as they are
    written, each passage with nothing in between, and the run of interleaved steps it stands
    for. */
module ClientLoops {
  import opened Helpers
  import opened ClientPool

  // ---------------------------------------------------------------------------------------
  // One connection
  // ---------------------------------------------------------------------------------------

  /** The slots from position k on let go of their dead sessions. */
  function Purged(muxes: seq<Option<Timed>>, closed: set<Id>, k: nat): (r: seq<Option<Timed>>)
    ensures |r| == |muxes|
  {
    seq(|muxes|, j requires 0 <= j < |muxes| =>
      if k <= j && muxes[j].Some? && muxes[j].value.session in closed then None else muxes[j])
  }

  /** What serving one connection does: the slots and `rr` afterwards, the session used, and what
      the scavenger is sent. */
  datatype Served = Served(muxes: seq<Option<Timed>>, rr: nat, session: Id, sent: Option<Timed>)

  predicate NeedsDial(cfg: Config, muxes: seq<Option<Timed>>, idx: nat, closed: set<Id>, now: int)
    requires idx < |muxes|
  {
    match muxes[idx]
    case None => true
    case Some(mux) => mux.session in closed || (cfg.autoExpire > 0 && now > mux.expiry)
  }

  /** With `next` the session a dial brings, should there be one. */
  function ServeOne(cfg: Config, muxes: seq<Option<Timed>>, rr: nat, closed: set<Id>, now: int, next: Id): Served
    requires cfg.Valid() && |muxes| == cfg.numconn && cfg.clock.Has(now)
  {
    var (idx, purged) := (rr % cfg.numconn, Purged(muxes, closed, 0));
    if NeedsDial(cfg, purged, idx, closed, now) then
      var mux := Timed(next, GoDeadline(cfg.clock, now, cfg.autoExpire));
      Served(purged[idx := Some(mux)], (rr + 1) % 65536, next, if cfg.autoExpire > 0 then Some(mux) else None)
    else Served(purged, (rr + 1) % 65536, purged[idx].value.session, None)
  }

  class AcceptLoop {
    var muxes: array<Option<Timed>>
    var rr: nat

    constructor (cfg: Config)
      requires cfg.Valid()
      ensures fresh(muxes) && muxes[..] == Init(cfg, 0).muxes && rr == 0
    {
      muxes := new Option<Timed>[cfg.numconn](_ => None);
      rr := 0;
      new;
      assert muxes[..] == Init(cfg, 0).muxes;
    }

    method Purge(closed: set<Id>)
      modifies muxes
      ensures muxes[..] == Purged(old(muxes[..]), closed, 0)
    {
      ghost var before := muxes[..];
      for j := 0 to muxes.Length
        invariant forall k :: 0 <= k < j ==> muxes[k] == Purged(before, closed, 0)[k]
        invariant forall k :: j <= k < muxes.Length ==> muxes[k] == before[k]
      {
        if muxes[j].Some? && muxes[j].value.session in closed { muxes[j] := None; }
      }
    }

    /** The body of the accept loop, on a host where nothing else happens meanwhile. */
    method Serve(cfg: Config, closed: set<Id>, now: int, next: Id) returns (session: Id, sent: Option<Timed>)
      requires cfg.Valid() && muxes.Length == cfg.numconn && cfg.clock.Has(now)
      modifies this`rr, muxes
      ensures Served(muxes[..], rr, session, sent) == ServeOne(cfg, old(muxes[..]), old(rr), closed, now, next)
      ensures var own := old(muxes[..])[old(rr) % cfg.numconn];
              && session == (if Usable(cfg, own, closed, now) then own.value.session else next)
              && (sent.Some? <==> !Usable(cfg, own, closed, now) && cfg.autoExpire > 0)
              && (sent.Some? ==> sent.value.session == next)
      ensures next !in closed ==>
                forall j :: 0 <= j < cfg.numconn && muxes[j].Some? ==> muxes[j].value.session !in closed
      ensures forall j :: 0 <= j < cfg.numconn && j != old(rr) % cfg.numconn ==>
                muxes[j] == old(muxes[j]) || (old(muxes[j]).Some? && old(muxes[j]).value.session in closed)
    {
      var idx := rr % cfg.numconn;
      Purge(closed);
      sent := None;
      var refresh := match muxes[idx]
        case None => true
        case Some(mux) => mux.session in closed || (cfg.autoExpire > 0 && now > mux.expiry);
      if refresh {
        var mux := Timed(next, GoDeadline(cfg.clock, now, cfg.autoExpire));
        muxes[idx] := Some(mux);
        if cfg.autoExpire > 0 { sent := Some(mux); }
      }
      session := muxes[idx].value.session;
      rr := (rr + 1) % 65536;
    }
  }

  lemma {:induction false} RunAppend(cfg: Config, st: State, a: seq<Action>, b: seq<Action>)
    requires cfg.Valid() && Shape(cfg, st) && Run(cfg, st, a).Some?
    ensures Shape(cfg, Run(cfg, st, a).value)
    ensures Run(cfg, st, a + b) == Run(cfg, Run(cfg, st, a).value, b)
    decreases |a|
  {
    if a == [] {
      assert a + b == b;
    } else {
      StepKeepsShape(cfg, st, a[0]);
      RunAppend(cfg, Step(cfg, st, a[0]).value, a[1..], b);
      assert (a + b)[1..] == a[1..] + b;
    }
  }

  lemma RunOne(cfg: Config, st: State, a: Action, rest: seq<Action>)
    requires cfg.Valid() && Shape(cfg, st) && Step(cfg, st, a).Some?
    ensures Shape(cfg, Step(cfg, st, a).value)
    ensures Run(cfg, st, [a] + rest) == Run(cfg, Step(cfg, st, a).value, rest)
  {
    StepKeepsShape(cfg, st, a);
    assert ([a] + rest)[1..] == rest;
  }

  function PurgeSteps(n: nat): seq<Action> { if n == 0 then [] else [PurgeSlot] + PurgeSteps(n - 1) }

  /** One slot of the purge. */
  lemma PurgeSlotEffect(cfg: Config, st: State, idx: nat, k: nat)
    requires cfg.Valid() && Shape(cfg, st) && st.pc == Purging(idx, k)
    ensures Step(cfg, st, PurgeSlot).Some?
    ensures var next := Step(cfg, st, PurgeSlot).value;
            && Shape(cfg, next) && next == st.(muxes := next.muxes, pc := next.pc)
            && next.pc == (if k < cfg.numconn then Purging(idx, k + 1) else Testing(idx))
            && Purged(next.muxes, st.closed, k + 1) == Purged(st.muxes, st.closed, k)
            && (k >= cfg.numconn ==> next.muxes == Purged(st.muxes, st.closed, k))
  {
    StepKeepsShape(cfg, st, PurgeSlot);
  }

  lemma PurgeStepsSplit(n: nat, rest: seq<Action>)
    ensures PurgeSteps(n + 1) + rest == [PurgeSlot] + (PurgeSteps(n) + rest) && PurgeSteps(0) + rest == rest
  {
    assert PurgeSteps(n + 1) == [PurgeSlot] + PurgeSteps(n);
  }

  lemma PurgeOnce(cfg: Config, st: State, k: nat, rest: seq<Action>)
    requires cfg.Valid() && Shape(cfg, st) && st.pc.Purging? && st.pc.slot == k && k <= cfg.numconn
    ensures Step(cfg, st, PurgeSlot).Some? && Shape(cfg, Step(cfg, st, PurgeSlot).value)
    ensures Run(cfg, st, PurgeSteps(cfg.numconn - k + 1) + rest)
         == Run(cfg, Step(cfg, st, PurgeSlot).value, PurgeSteps(cfg.numconn - k) + rest)
  {
    PurgeStepsSplit(cfg.numconn - k, rest);
    RunOne(cfg, st, PurgeSlot, PurgeSteps(cfg.numconn - k) + rest);
  }

  /** Purging slot by slot, then moving on. */
  lemma {:induction false} PurgeRun(cfg: Config, st: State, idx: nat, k: nat, rest: seq<Action>)
    requires cfg.Valid() && Shape(cfg, st) && st.pc == Purging(idx, k)
    ensures var r := st.(muxes := Purged(st.muxes, st.closed, k), pc := Testing(idx));
            && Shape(cfg, r)
            && Run(cfg, st, PurgeSteps(cfg.numconn - k + 1) + rest) == Run(cfg, r, rest)
    decreases cfg.numconn - k
  {
    PurgeSlotEffect(cfg, st, idx, k);
    PurgeOnce(cfg, st, k, rest);
    if k < cfg.numconn {
      PurgeRun(cfg, Step(cfg, st, PurgeSlot).value, idx, k + 1, rest);
    } else {
      PurgeStepsSplit(0, rest);
    }
  }

  /** The steps that serve one connection: up to the test, and after it. */
  function ServeSteps(cfg: Config, dial: bool): seq<Action> {
    [Accept] + (PurgeSteps(cfg.numconn + 1) + ([Test] + LastSteps(cfg, dial)))
  }

  /** The state after one connection was served with nothing in between. */
  function AfterServe(cfg: Config, st: State): State
    requires cfg.Valid() && |st.muxes| == |st.loads| == cfg.numconn && cfg.clock.Has(st.now)
  {
    var idx := st.rr % cfg.numconn;
    var served := ServeOne(cfg, st.muxes, st.rr, st.closed, st.now, |st.expiry|);
    var dial := NeedsDial(cfg, Purged(st.muxes, st.closed, 0), idx, st.closed, st.now);
    st.(muxes := served.muxes, rr := served.rr, accepts := st.accepts + 1,
        loads := st.loads[idx := st.loads[idx] + 1],
        expiry := if dial then st.expiry + [GoDeadline(cfg.clock, st.now, cfg.autoExpire)] else st.expiry,
        channel := if served.sent.Some? then st.channel + [served.sent.value] else st.channel)
  }

  function LastSteps(cfg: Config, dial: bool): seq<Action> {
    if !dial then [Serve] else if cfg.autoExpire > 0 then [Dial, Send, Serve] else [Dial, Serve]
  }

  lemma UpToTheTest(cfg: Config, st: State, last: seq<Action>)
    requires cfg.Valid() && Shape(cfg, st) && st.pc.Accepting?
    ensures var idx := st.rr % cfg.numconn;
            var r := st.(muxes := Purged(st.muxes, st.closed, 0), pc := Testing(idx));
            Shape(cfg, r) && Run(cfg, st, [Accept] + (PurgeSteps(cfg.numconn + 1) + last)) == Run(cfg, r, last)
  {
    var idx := st.rr % cfg.numconn;
    RunOne(cfg, st, Accept, PurgeSteps(cfg.numconn + 1) + last);
    PurgeRun(cfg, st.(pc := Purging(idx, 0)), idx, 0, last);
  }

  /** The test's outcome, and the rest of the steps from there. */
  lemma TestAndFinish(cfg: Config, st: State)
    requires cfg.Valid() && Shape(cfg, st) && st.pc.Testing? && |st.channel| < BACKLOG
    ensures var (idx, dial) := (st.pc.idx, NeedsDial(cfg, st.muxes, st.pc.idx, st.closed, st.now));
            var r := st.(pc := if dial then Dialling(idx) else Serving(idx));
            && Shape(cfg, r)
            && Run(cfg, st, [Test] + LastSteps(cfg, dial)) == Run(cfg, r, LastSteps(cfg, dial))
  {
    var dial := NeedsDial(cfg, st.muxes, st.pc.idx, st.closed, st.now);
    RunOne(cfg, st, Test, LastSteps(cfg, dial));
  }

  /** The state in which the refresh test has been made. */
  function Tested(cfg: Config, st: State): State
    requires cfg.Valid() && |st.muxes| == cfg.numconn
  {
    var (idx, purged) := (st.rr % cfg.numconn, Purged(st.muxes, st.closed, 0));
    st.(muxes := purged,
        pc := if NeedsDial(cfg, purged, idx, st.closed, st.now) then Dialling(idx) else Serving(idx))
  }

  lemma RunToTested(cfg: Config, st: State)
    requires cfg.Valid() && Shape(cfg, st) && st.pc.Accepting? && |st.channel| < BACKLOG
    ensures Shape(cfg, Tested(cfg, st))
    ensures var dial := Tested(cfg, st).pc.Dialling?;
            Run(cfg, st, ServeSteps(cfg, dial)) == Run(cfg, Tested(cfg, st), LastSteps(cfg, dial))
  {
    var idx := st.rr % cfg.numconn;
    var testing := st.(muxes := Purged(st.muxes, st.closed, 0), pc := Testing(idx));
    UpToTheTest(cfg, st, [Test] + LastSteps(cfg, Tested(cfg, st).pc.Dialling?));
    TestAndFinish(cfg, testing);
  }

  lemma FinishedIsServed(cfg: Config, st: State)
    requires cfg.Valid() && Shape(cfg, st) && st.pc.Accepting?
    ensures Finished(cfg, Tested(cfg, st)) == AfterServe(cfg, st)
  {}

  /** The loop body is a run of its steps: what it does with nothing in between, they do. */
  lemma UninterruptedServe(cfg: Config, st: State)
    requires cfg.Valid() && Shape(cfg, st) && st.pc.Accepting? && |st.channel| < BACKLOG
    ensures Run(cfg, st, ServeSteps(cfg, Tested(cfg, st).pc.Dialling?)) == Some(AfterServe(cfg, st))
  {
    RunToTested(cfg, st);
    FinishServe(cfg, Tested(cfg, st));
    FinishedIsServed(cfg, st);
  }

  /** The slot filled if need be, the session sent, and the connection counted. */
  function Finished(cfg: Config, st: State): State
    requires cfg.Valid() && |st.muxes| == |st.loads| == cfg.numconn && cfg.clock.Has(st.now)
    requires (st.pc.Dialling? || st.pc.Serving?) && st.pc.idx < cfg.numconn
  {
    var idx := st.pc.idx;
    var mux := Timed(|st.expiry|, GoDeadline(cfg.clock, st.now, cfg.autoExpire));
    var served := st.(rr := (st.rr + 1) % 65536, accepts := st.accepts + 1,
                      loads := st.loads[idx := st.loads[idx] + 1], pc := Accepting);
    if st.pc.Serving? then served
    else served.(expiry := st.expiry + [mux.expiry], muxes := st.muxes[idx := Some(mux)],
                 channel := if cfg.autoExpire > 0 then st.channel + [mux] else st.channel)
  }

  lemma FinishServe(cfg: Config, st: State)
    requires cfg.Valid() && Shape(cfg, st) && |st.channel| < BACKLOG
    requires st.pc.Dialling? || st.pc.Serving?
    ensures Run(cfg, st, LastSteps(cfg, st.pc.Dialling?)) == Some(Finished(cfg, st))
  {
    var (st', last) := (st, LastSteps(cfg, st.pc.Dialling?));
    if st.pc.Dialling? {
      assert last == [Dial] + last[1..];
      RunOne(cfg, st, Dial, last[1..]);
      st' := Step(cfg, st, Dial).value;
      if cfg.autoExpire > 0 {
        assert last[1..] == [Send] + [Serve];
        RunOne(cfg, st', Send, [Serve]);
        st' := Step(cfg, st', Send).value;
      }
    }
    assert [Serve] == [Serve] + [];
    RunOne(cfg, st', Serve, []);
  }

  // ---------------------------------------------------------------------------------------
  // One sweep
  // ---------------------------------------------------------------------------------------

  datatype Outcome = Outcome(kept: seq<Timed>, closed: set<Id>, reaped: seq<Id>)

  function Overdue(t: Timed, now: int): bool { now > t.expiry }

  /** What a sweep makes of the sessions still to look at. */
  function Swept(todo: seq<Timed>, o: Outcome, now: int): Outcome {
    if todo == [] then o
    else
      var t := todo[0];
      Swept(todo[1..],
        if t.session in o.closed then o.(reaped := o.reaped + [t.session])
        else if Overdue(t, now) then o.(closed := o.closed + {t.session}, reaped := o.reaped + [t.session])
        else o.(kept := o.kept + [t]),
        now)
  }

  predicate DistinctSessions(ts: seq<Timed>) { forall i, j :: 0 <= i < j < |ts| ==> ts[i].session != ts[j].session }

  /** A sweep keeps exactly the open sessions that are not overdue, closes exactly the open ones
      that are, and lets go of all it does not keep. */
  lemma {:induction false} SweptExact(todo: seq<Timed>, o: Outcome, now: int, t: Timed)
    requires DistinctSessions(todo)
    ensures var r := Swept(todo, o, now);
            && (t in r.kept <==> t in o.kept || (t in todo && t.session !in o.closed && !Overdue(t, now)))
            && o.closed <= r.closed
            && (t in todo && t !in r.kept ==> t.session in r.closed && t.session in r.reaped)
            && (t in todo && t.session !in o.closed ==> (t.session in r.closed <==> Overdue(t, now)))
            && (forall id :: id in r.closed ==> id in o.closed || exists k :: 0 <= k < |todo| && todo[k].session == id)
            && o.reaped <= r.reaped
  {
    if todo != [] {
      var head := todo[0];
      var next := if head.session in o.closed then o.(reaped := o.reaped + [head.session])
                  else if Overdue(head, now) then
                    o.(closed := o.closed + {head.session}, reaped := o.reaped + [head.session])
                  else o.(kept := o.kept + [head]);
      SweptExact(todo[1..], next, now, t);
      assert todo == [head] + todo[1..];
      var r := Swept(todo[1..], next, now);
      if next.reaped != o.reaped { assert r.reaped[|o.reaped|] == head.session; }
      forall id | id in r.closed ensures id in o.closed || exists k :: 0 <= k < |todo| && todo[k].session == id {
        if id !in next.closed {
          var k :| 0 <= k < |todo[1..]| && todo[1..][k].session == id;
          assert todo[k + 1].session == id;
        } else {
          assert id in o.closed || todo[0].session == id;
        }
      }
    }
  }

  class Scavenger {
    var list: seq<Timed>

    constructor ()
      ensures list == []
    {
      list := [];
    }

    method Receive(cfg: Config, item: Timed)
      requires cfg.clock.Has(item.expiry)
      modifies this
      ensures list == old(list) + [Timed(item.session, GoDeadline(cfg.clock, item.expiry, cfg.ttl))]
    {
      list := list + [Timed(item.session, GoDeadline(cfg.clock, item.expiry, cfg.ttl))];
    }

    /** The ticker's arm, on a host where nothing else happens meanwhile. */
    method Tick(now: int, before: set<Id>) returns (closed: set<Id>, reaped: seq<Id>)
      modifies this
      ensures Outcome(list, closed, reaped) == Swept(old(list), Outcome([], before, []), now)
    {
      var newList: seq<Timed> := [];
      closed, reaped := before, [];
      for k := 0 to |list|
        invariant list == old(list)
        invariant Swept(list[k..], Outcome(newList, closed, reaped), now)
               == Swept(list, Outcome([], before, []), now)
      {
        var s := list[k];
        assert list[k..][1..] == list[k + 1..];
        if s.session in closed {
          reaped := reaped + [s.session];
        } else if now > s.expiry {
          closed := closed + {s.session};
          reaped := reaped + [s.session];
        } else {
          newList := newList + [s];
        }
      }
      list := newList;
    }
  }

  /** The steps of a sweep. */
  function SweepSteps(todo: seq<Timed>, closed: set<Id>, now: int): seq<Action> {
    if todo == [] then [EndSweep]
    else if todo[0].session in closed then [Inspect] + SweepSteps(todo[1..], closed, now)
    else if Overdue(todo[0], now) then
      [Inspect] + ([FinishClose] + SweepSteps(todo[1..], closed + {todo[0].session}, now))
    else [Inspect] + SweepSteps(todo[1..], closed, now)
  }

  lemma {:induction false} DrainRun(cfg: Config, st: State)
    requires cfg.Valid() && Shape(cfg, st) && st.sweep.Draining?
    ensures var o := Swept(st.sweep.todo, Outcome(st.sweep.kept, st.closed, st.reaped), st.now);
            Run(cfg, st, SweepSteps(st.sweep.todo, st.closed, st.now))
              == Some(st.(list := o.kept, closed := o.closed, reaped := o.reaped, sweep := Idle))
    decreases |st.sweep.todo|
  {
    var todo := st.sweep.todo;
    if todo == [] {
      assert [EndSweep] + [] == [EndSweep];
      RunOne(cfg, st, EndSweep, []);
    } else if todo[0].session in st.closed || !Overdue(todo[0], st.now) {
      RunOne(cfg, st, Inspect, SweepSteps(todo[1..], st.closed, st.now));
      DrainRun(cfg, Step(cfg, st, Inspect).value);
    } else {
      var rest := SweepSteps(todo[1..], st.closed + {todo[0].session}, st.now);
      RunOne(cfg, st, Inspect, [FinishClose] + rest);
      RunOne(cfg, Step(cfg, st, Inspect).value, FinishClose, rest);
      DrainRun(cfg, Step(cfg, Step(cfg, st, Inspect).value, FinishClose).value);
    }
  }

  /** The ticker's arm is a run of its steps too. */
  lemma UninterruptedSweep(cfg: Config, st: State)
    requires cfg.Valid() && Shape(cfg, st) && st.sweep.Idle?
    ensures var o := Swept(st.list, Outcome([], st.closed, st.reaped), st.now);
            Run(cfg, st, [BeginSweep] + SweepSteps(st.list, st.closed, st.now))
              == Some(st.(list := o.kept, closed := o.closed, reaped := o.reaped))
  {
    RunOne(cfg, st, BeginSweep, SweepSteps(st.list, st.closed, st.now));
    DrainRun(cfg, Step(cfg, st, BeginSweep).value);
  }

  // ---------------------------------------------------------------------------------------
  // When a ttl is safe
  // ---------------------------------------------------------------------------------------

  /** A session about to be closed is one the pool refuses. */
  ghost predicate ClosesStaleOnly(cfg: Config, st: State)
    requires cfg.Valid()
  {
    Reachable(cfg, st) && st.sweep.Closing? ==>
      var id := st.sweep.s.session; id < |st.expiry| && Stale(cfg, st, Timed(id, st.expiry[id]))
  }

  /** The earliest moment, from `start` on, at which the scavenger takes the session dialled at
      `start` for overdue. */
  function FirstOverdue(cfg: Config, start: int): int
    requires cfg.Valid() && cfg.clock.Has(start)
  {
    Max(start, GoDeadline(cfg.clock, start, cfg.autoExpire) - Span(cfg.ttl) + 1)
  }

  /** A connection at `start` and a sweep as soon as that session is overdue: with a negative ttl that
      can be subtracted from its deadline, the pool would still hand it out. */
  lemma EarlyCloseRun(cfg: Config, start: int) returns (st: State)
    requires cfg.Valid() && cfg.autoExpire > 0 && cfg.clock.Has(start)
    requires cfg.ttl < 0 && GoDeadline(cfg.clock, start, cfg.autoExpire) - Span(cfg.ttl) >= cfg.clock.low
    ensures Reachable(cfg, st) && st.sweep.Closing? && st.now == FirstOverdue(cfg, start)
    ensures !ClosesStaleOnly(cfg, st)
  {
    var first := Init(cfg, start);
    InitShape(cfg, start);
    assert Purged(first.muxes, {}, 0) == first.muxes;
    var serve := ServeSteps(cfg, Tested(cfg, first).pc.Dialling?);
    UninterruptedServe(cfg, first);
    var served := AfterServe(cfg, first);
    var expiry := GoDeadline(cfg.clock, start, cfg.autoExpire);
    assert served.channel == [Timed(0, expiry)] && served.expiry == [expiry];
    var sweep: seq<Action>;
    st, sweep := SweepTooEarly(cfg, served, expiry, FirstOverdue(cfg, start));
    RunAppend(cfg, first, serve, sweep);
    assert ReachedBy(cfg, start, serve + sweep, st);
  }

  /** Time passes, then the scavenger receives the one session there is and sweeps. */
  lemma SweepTooEarly(cfg: Config, st: State, expiry: int, now: int) returns (r: State, actions: seq<Action>)
    requires cfg.Valid() && Shape(cfg, st) && cfg.ttl < 0 && st.now <= now <= expiry <= cfg.clock.high
    requires st.channel == [Timed(0, expiry)] && st.expiry == [expiry] && st.closed == {}
    requires st.sweep.Idle? && st.list == []
    requires cfg.clock.low <= expiry - Span(cfg.ttl) < now
    ensures Run(cfg, st, actions) == Some(r)
    ensures r.now == now && r.closed == {} && r.expiry == st.expiry && r.sweep.Closing? && r.sweep.s.session == 0
  {
    actions := [Advance(now)] + ([Receive] + ([BeginSweep] + ([Inspect] + [])));
    RunOne(cfg, st, Advance(now), [Receive] + ([BeginSweep] + ([Inspect] + [])));
    var waited := Step(cfg, st, Advance(now)).value;
    RunOne(cfg, waited, Receive, [BeginSweep] + ([Inspect] + []));
    var received := Step(cfg, waited, Receive).value;
    RunOne(cfg, received, BeginSweep, [Inspect] + []);
    var sweeping := Step(cfg, received, BeginSweep).value;
    r := Step(cfg, sweeping, Inspect).value;
    RunOne(cfg, sweeping, Inspect, []);
  }

  /** With expiry on, the scavenger closes only stale sessions in every run exactly when its ttl
      is not negative, or is longer than all the time the clock can tell. */
  lemma TtlSafeExactly(cfg: Config)
    requires cfg.Valid() && cfg.autoExpire > 0
    ensures (forall st :: ClosesStaleOnly(cfg, st)) <==> cfg.ttl >= 0 || cfg.clock.high - Span(cfg.ttl) < cfg.clock.low
  {
    if cfg.ttl >= 0 || cfg.clock.high - Span(cfg.ttl) < cfg.clock.low {
      forall st ensures ClosesStaleOnly(cfg, st) {
        if Reachable(cfg, st) && st.sweep.Closing? {
          ReachableInv(cfg, st);
          assert st.sweep.s == SweepItems(st.sweep)[0];
          DeadlineNotEarlier(cfg.clock, st.expiry[st.sweep.s.session], cfg.ttl);
        }
      }
    } else {
      var st := EarlyCloseRun(cfg, cfg.clock.high);
    }
  }
}
