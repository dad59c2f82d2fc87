/** The feed transformers of the FEC decoder scenarios (tools/govectors/fec.go). The random
    generator is any sequence of draws: `draws(k)` is the k-th, reduced to the range asked for. */
module FecFeed {
  import opened Helpers

  /** One decode call: a stream packet, perhaps cut short, or a crafted one. */
  datatype FeedTok = FeedTok(idx: int, cut: int, crafted: int)

  function Tok(i: nat): FeedTok { FeedTok(i, 0, 0) }

  type Draws = nat -> nat

  function IntN(draws: Draws, k: nat, n: nat): (r: nat)
    requires n > 0
    ensures r < n
  {
    if draws(k) < n then draws(k) else n - 1
  }

  // ---------------------------------------------------------------------------------------
  // reorder
  // ---------------------------------------------------------------------------------------

  /** The two positions one step of `reorder` exchanges. */
  function PickSwap(length: nat, window: nat, draws: Draws, k: nat): (r: (nat, nat))
    requires length >= 2 && window > 0
    ensures r.0 < r.1 < length && r.1 <= r.0 + window
  {
    var i := IntN(draws, k, length - 1);
    (i, Min(length - 1, i + 1 + IntN(draws, k + 1, window)))
  }

  function Reordered(f: seq<FeedTok>, swaps: nat, window: nat, draws: Draws, k: nat): (r: seq<FeedTok>)
    requires swaps > 0 ==> |f| >= 2 && window > 0
    ensures |r| == |f|
    decreases swaps
  {
    if swaps == 0 then f
    else
      var (i, j) := PickSwap(|f|, window, draws, k);
      Reordered(Exchange(f, i, j), swaps - 1, window, draws, k + 2)
  }

  /** Reordering loses nothing, repeats nothing and makes nothing up. */
  lemma {:induction false} ReorderedIsPermutation(f: seq<FeedTok>, swaps: nat, window: nat, draws: Draws, k: nat)
    requires swaps > 0 ==> |f| >= 2 && window > 0
    ensures multiset(Reordered(f, swaps, window, draws, k)) == multiset(f)
    decreases swaps
  {
    if swaps > 0 {
      var (i, j) := PickSwap(|f|, window, draws, k);
      ExchangeIsPermutation(f, i, j);
      ReorderedIsPermutation(Exchange(f, i, j), swaps - 1, window, draws, k + 2);
    }
  }

  /** One step exchanges the position drawn with one up to `window` later, also drawn, and leaves the rest. */
  lemma OneSwap(f: seq<FeedTok>, window: nat, draws: Draws, k: nat)
    requires |f| >= 2 && window > 0
    ensures var i := Min(draws(k), |f| - 2);
            var j := Min(|f| - 1, i + 1 + Min(draws(k + 1), window - 1));
            var r := Reordered(f, 1, window, draws, k);
            && i < j && r[i] == f[j] && r[j] == f[i]
            && forall p :: 0 <= p < |f| && p != i && p != j ==> r[p] == f[p]
  {
    var (i, j) := PickSwap(|f|, window, draws, k);
    assert Reordered(f, 1, window, draws, k) == Exchange(f, i, j);
  }

  /** n steps one after the other, on two draws each. */
  function Steps<T>(step: (T, nat) -> T, t: T, n: nat, k: nat): T
    decreases n
  {
    if n == 0 then t else Steps(step, step(t, k), n - 1, k + 2)
  }

  /** Exchanges are done one after the other. */
  lemma {:induction false} ReorderedIsSteps(f: seq<FeedTok>, n: nat, window: nat, draws: Draws, k: nat)
    requires |f| >= 2 && window > 0
    ensures Reordered(f, n, window, draws, k) == Steps((g: seq<FeedTok>, j: nat) =>
              if |g| >= 2 then Reordered(g, 1, window, draws, j) else g, f, n, k)
    decreases n
  {
    var step := (g: seq<FeedTok>, j: nat) => if |g| >= 2 then Reordered(g, 1, window, draws, j) else g;
    if n > 0 {
      var (i, j) := PickSwap(|f|, window, draws, k);
      assert step(f, k) == Exchange(f, i, j);
      ReorderedIsSteps(Exchange(f, i, j), n - 1, window, draws, k + 2);
    }
  }

  method Reorder(f: array<FeedTok>, swaps: nat, window: nat, draws: Draws)
    requires swaps > 0 ==> f.Length >= 2 && window > 0
    modifies f
    ensures f[..] == Reordered(old(f[..]), swaps, window, draws, 0)
  {
    ghost var goal := Reordered(f[..], swaps, window, draws, 0);
    var left: nat, k: nat := swaps, 0;
    while left > 0
      invariant left <= swaps && Reordered(f[..], left, window, draws, k) == goal
    {
      ghost var before := f[..];
      var (i, j) := PickSwap(f.Length, window, draws, k);
      f[i], f[j] := f[j], f[i];
      assert f[..] == Exchange(before, i, j);
      left, k := left - 1, k + 2;
    }
  }

  // ---------------------------------------------------------------------------------------
  // moveLate
  // ---------------------------------------------------------------------------------------

  function Delete<T>(f: seq<T>, i: nat): (r: seq<T>)
    requires i < |f|
    ensures |r| == |f| - 1
  {
    f[..i] + f[i + 1..]
  }

  function Insert<T>(f: seq<T>, j: nat, t: T): (r: seq<T>)
    requires j <= |f|
    ensures |r| == |f| + 1
  {
    f[..j] + [t] + f[j..]
  }

  /** The position one step of `moveLate` takes a token from, and the one it goes to. */
  function PickMove(length: nat, late: nat, draws: Draws, k: nat): (r: (nat, nat))
    requires length > late + 1
    ensures r.0 + late <= r.1 < length
  {
    var i := IntN(draws, k, length - late - 1);
    (i, Min(i + late + IntN(draws, k + 1, late / 2 + 1), length - 1))
  }

  function MoveOne(f: seq<FeedTok>, i: nat, j: nat): (r: seq<FeedTok>)
    requires i < |f| && j <= |f| - 1
    ensures |r| == |f|
  {
    Insert(Delete(f, i), j, f[i])
  }

  function MoveStep(f: seq<FeedTok>, late: nat, draws: Draws, k: nat): (r: seq<FeedTok>)
    requires |f| > late + 1
    ensures |r| == |f|
  {
    MoveOne(f, PickMove(|f|, late, draws, k).0, PickMove(|f|, late, draws, k).1)
  }

  function Moved(f: seq<FeedTok>, n: nat, late: nat, draws: Draws, k: nat): (r: seq<FeedTok>)
    ensures |r| == |f|
    decreases n
  {
    if n == 0 || |f| <= late + 1 then f else Moved(MoveStep(f, late, draws, k), n - 1, late, draws, k + 2)
  }

  /** One move takes a token at least `late` positions later and keeps the order of the others. */
  lemma MoveStepIsLate(f: seq<FeedTok>, late: nat, draws: Draws, k: nat)
    requires |f| > late + 1
    ensures var (i, j) := PickMove(|f|, late, draws, k);
            var r := MoveStep(f, late, draws, k);
            i + late <= j < |f| && r[j] == f[i] && Delete(r, j) == Delete(f, i)
    ensures multiset(MoveStep(f, late, draws, k)) == multiset(f)
  {
    var (i, j) := PickMove(|f|, late, draws, k);
    var r := MoveStep(f, late, draws, k);
    assert Delete(r, j) == Delete(f, i);
    DeleteOne(r, j);
    DeleteOne(f, i);
  }

  lemma PickedAsDrawn(length: nat, late: nat, draws: Draws, k: nat)
    requires length > late + 1
    ensures PickMove(length, late, draws, k)
         == (Min(draws(k), length - late - 2),
             Min(Min(draws(k), length - late - 2) + late + Min(draws(k + 1), late / 2), length - 1))
  {
  }

  /** The positions of one move, in the draws: the first picks the token, the second how much later. */
  lemma OneMove(f: seq<FeedTok>, late: nat, draws: Draws, k: nat)
    requires |f| > late + 1
    ensures var i := Min(draws(k), |f| - late - 2);
            var j := Min(i + late + Min(draws(k + 1), late / 2), |f| - 1);
            var r := Moved(f, 1, late, draws, k);
            r[j] == f[i] && Delete(r, j) == Delete(f, i)
  {
    PickedAsDrawn(|f|, late, draws, k);
    MoveStepIsLate(f, late, draws, k);
    assert Moved(MoveStep(f, late, draws, k), 0, late, draws, k + 2) == MoveStep(f, late, draws, k);
  }

  /** There is no move on a feed that is too short. */
  lemma TooShortToMove(f: seq<FeedTok>, n: nat, late: nat, draws: Draws, k: nat)
    requires |f| <= late + 1
    ensures Moved(f, n, late, draws, k) == f
  {
  }

  lemma DeleteOne<T>(f: seq<T>, i: nat)
    requires i < |f|
    ensures multiset(f) == multiset(Delete(f, i)) + multiset{f[i]}
  {
    assert f == f[..i] + [f[i]] + f[i + 1..];
  }

  lemma MoveStepPermutes(f: seq<FeedTok>, late: nat, draws: Draws, k: nat)
    requires |f| > late + 1
    ensures multiset(MoveStep(f, late, draws, k)) == multiset(f)
  {
    MoveStepIsLate(f, late, draws, k);
  }

  lemma {:induction false} MovedIsPermutation(f: seq<FeedTok>, n: nat, late: nat, draws: Draws, k: nat)
    ensures multiset(Moved(f, n, late, draws, k)) == multiset(f)
    decreases n
  {
    if n > 0 && |f| > late + 1 {
      var next := MoveStep(f, late, draws, k);
      MoveStepPermutes(f, late, draws, k);
      MovedIsPermutation(next, n - 1, late, draws, k + 2);
    }
  }

  ghost predicate MovesTo(f: seq<FeedTok>, n: nat, late: nat, draws: Draws, k: nat, end: seq<FeedTok>) {
    Moved(f, n, late, draws, k) == end
  }

  lemma MoveUnrolls(f: seq<FeedTok>, n: nat, late: nat, draws: Draws, k: nat, end: seq<FeedTok>)
    requires MovesTo(f, n, late, draws, k, end) && n > 0 && |f| > late + 1
    ensures MovesTo(MoveStep(f, late, draws, k), n - 1, late, draws, k + 2, end)
  {
  }

  /** Moves are done one after the other, on two draws each. */
  lemma {:induction false} MovedIsSteps(f: seq<FeedTok>, n: nat, late: nat, draws: Draws, k: nat)
    ensures Moved(f, n, late, draws, k) == Steps((g: seq<FeedTok>, j: nat) => Moved(g, 1, late, draws, j), f, n, k)
    decreases n
  {
    var step := (g: seq<FeedTok>, j: nat) => Moved(g, 1, late, draws, j);
    if n > 0 {
      var next := Moved(f, 1, late, draws, k);
      MovedIsSteps(next, n - 1, late, draws, k + 2);
      assert Steps(step, f, n, k) == Steps(step, next, n - 1, k + 2);
      if |f| > late + 1 { assert next == MoveStep(f, late, draws, k); } else { TooShortToMove(f, n - 1, late, draws, k + 2); }
    }
  }

  /** One move, done as a deletion and an insertion. */
  method MoveOneLate(f: seq<FeedTok>, late: nat, draws: Draws, k: nat) returns (r: seq<FeedTok>)
    requires |f| > late + 1
    ensures r == MoveStep(f, late, draws, k)
  {
    var (i, j) := PickMove(|f|, late, draws, k);
    var t := f[i];
    r := Delete(f, i);
    r := Insert(r, j, t);
  }

  method MoveLate(f: seq<FeedTok>, n: nat, late: nat, draws: Draws) returns (r: seq<FeedTok>)
    ensures r == Moved(f, n, late, draws, 0)
  {
    r := f;
    var left: nat, k: nat := n, 0;
    ghost var end := Moved(f, n, late, draws, 0);
    while left > 0 && |r| > late + 1
      invariant MovesTo(r, left, late, draws, k, end)
    {
      MoveUnrolls(r, left, late, draws, k, end);
      r := MoveOneLate(r, late, draws, k);
      left, k := left - 1, k + 2;
    }
  }

  // ---------------------------------------------------------------------------------------
  // duplicate
  // ---------------------------------------------------------------------------------------

  /** What `duplicate` emits: an input position, or its copy. */
  datatype Slot = Original(pos: nat) | Copy(pos: nat)

  /** The decision for one position: whether it is copied and how much later, and the next draw. */
  function Decide(draws: Draws, k: nat, den: nat, far: nat): (Option<nat>, nat)
    requires den > 0 && far > 0
  {
    if IntN(draws, k, den) != 0 then (None, k + 1)
    else if IntN(draws, k + 2, 4) == 0 then (Some(far + IntN(draws, k + 3, far)), k + 4)
    else (Some(IntN(draws, k + 1, 6)), k + 3)
  }

  /** The decisions for n positions, and the next draw. */
  function Decisions(n: nat, draws: Draws, den: nat, far: nat): (r: (seq<Option<nat>>, nat))
    requires den > 0 && far > 0
    ensures |r.0| == n
  {
    if n == 0 then ([], 0)
    else
      var (delays, k) := Decisions(n - 1, draws, den, far);
      var (delay, next) := Decide(draws, k, den, far);
      (delays + [delay], next)
  }

  /** How draw number k and the next ones decide about one position. Its first draw, reduced to den, is 0
      exactly if it is copied; then a second draw from 0 to 5 is the delay, unless a third, reduced to 4,
      is 0, and a fourth says how far from `far` to 2 * far - 1 it is instead. */
  predicate DrawnAs(draws: Draws, den: nat, far: nat, delay: Option<nat>, k: nat, next: nat)
    requires den > 0 && far > 0
  {
    match delay
    case None => Min(draws(k), den - 1) != 0 && next == k + 1
    case Some(d) =>
      && Min(draws(k), den - 1) == 0
      && if Min(draws(k + 2), 3) != 0 then d == Min(draws(k + 1), 5) && next == k + 3
         else far <= d == far + Min(draws(k + 3), far - 1) < 2 * far && next == k + 4
  }

  lemma DecidedAsDrawn(draws: Draws, k: nat, den: nat, far: nat)
    requires den > 0 && far > 0
    ensures DrawnAs(draws, den, far, Decide(draws, k, den, far).0, k, Decide(draws, k, den, far).1)
  {
  }

  /** The delays are those the draws decide, at[i] of them before position i. */
  ghost predicate DrawsDecide(draws: Draws, den: nat, far: nat, delays: seq<Option<nat>>, at: seq<nat>)
    requires den > 0 && far > 0
  {
    && |at| == |delays| + 1 && at[0] == 0
    && forall i :: 0 <= i < |delays| ==> DrawnAs(draws, den, far, delays[i], at[i], at[i + 1])
  }

  lemma DecidesOneMore(draws: Draws, den: nat, far: nat, delays: seq<Option<nat>>, at: seq<nat>, delay: Option<nat>, next: nat)
    requires den > 0 && far > 0 && DrawsDecide(draws, den, far, delays, at)
    requires DrawnAs(draws, den, far, delay, at[|delays|], next)
    ensures DrawsDecide(draws, den, far, delays + [delay], at + [next])
  {
  }

  lemma {:induction false} DecidedByDraws(n: nat, draws: Draws, den: nat, far: nat) returns (at: seq<nat>)
    requires den > 0 && far > 0
    ensures DrawsDecide(draws, den, far, Decisions(n, draws, den, far).0, at)
    ensures at[n] == Decisions(n, draws, den, far).1
  {
    if n == 0 {
      at := [0];
    } else {
      at := DecidedByDraws(n - 1, draws, den, far);
      var (delays, k) := Decisions(n - 1, draws, den, far);
      DecidedAsDrawn(draws, k, den, far);
      var (delay, next) := Decide(draws, k, den, far);
      DecidesOneMore(draws, den, far, delays, at, delay, next);
      at := at + [next];
    }
  }

  /** The iteration in which the delayed copy of position k is due. */
  predicate DueFrom(delays: seq<Option<nat>>, k: nat, from: nat) {
    k < |delays| && delays[k].Some? && delays[k].value > 0 && k + delays[k].value >= from
  }

  /** The positions below `below` whose delayed copy is due in iteration `from` or later. */
  function Waiting(delays: seq<Option<nat>>, below: nat, from: nat): seq<nat> {
    if below == 0 then []
    else if DueFrom(delays, below - 1, from) then Waiting(delays, below - 1, from) + [below - 1]
    else Waiting(delays, below - 1, from)
  }

  /** The positions below `below` whose delayed copy is due in iteration i exactly. */
  function DueIn(delays: seq<Option<nat>>, below: nat, i: nat): seq<nat> {
    if below == 0 then []
    else if DueFrom(delays, below - 1, i) && !DueFrom(delays, below - 1, i + 1) then
      DueIn(delays, below - 1, i) + [below - 1]
    else DueIn(delays, below - 1, i)
  }

  function Copies(at: seq<nat>): (r: seq<Slot>)
    ensures |r| == |at|
  {
    seq(|at|, j requires 0 <= j < |at| => Copy(at[j]))
  }

  /** Iteration i: the packet, the copies due, and its own copy if that is not delayed. */
  function Iteration(delays: seq<Option<nat>>, i: nat): seq<Slot>
    requires i < |delays|
  {
    [Original(i)] + Copies(DueIn(delays, i, i)) + if delays[i] == Some(0) then [Copy(i)] else []
  }

  /** What the first i iterations emit. */
  function Emitted(delays: seq<Option<nat>>, i: nat): seq<Slot>
    requires i <= |delays|
  {
    if i == 0 then [] else Emitted(delays, i - 1) + Iteration(delays, i - 1)
  }

  /** The whole output: every iteration, then the copies that were due after the last. */
  function Emission(delays: seq<Option<nat>>): seq<Slot> {
    Emitted(delays, |delays|) + Copies(Waiting(delays, |delays|, |delays|))
  }

  function Tokens(f: seq<FeedTok>, slots: seq<Slot>): (r: seq<FeedTok>)
    requires forall p :: 0 <= p < |slots| ==> slots[p].pos < |f|
    ensures |r| == |slots|
  {
    seq(|slots|, p requires 0 <= p < |slots| => f[slots[p].pos])
  }

  /** A position's slots: itself, and its copy if it has one. */
  function SlotsOf(i: nat, copied: bool): multiset<Slot> {
    multiset{Original(i)} + if copied then multiset{Copy(i)} else multiset{}
  }

  /** Every position once, and a copy of those that were chosen. */
  function AllSlots(delays: seq<Option<nat>>, i: nat): multiset<Slot>
    requires i <= |delays|
  {
    if i == 0 then multiset{} else AllSlots(delays, i - 1) + SlotsOf(i - 1, delays[i - 1].Some?)
  }

  lemma CopiesSnoc(at: seq<nat>, k: nat)
    ensures Copies(at + [k]) == Copies(at) + [Copy(k)]
  {}

  /** What waits for iteration i is emitted in it or waits for the next. */
  lemma {:induction false} WaitingSplits(delays: seq<Option<nat>>, below: nat, i: nat)
    ensures multiset(Copies(Waiting(delays, below, i)))
         == multiset(Copies(DueIn(delays, below, i))) + multiset(Copies(Waiting(delays, below, i + 1)))
  {
    if below > 0 {
      WaitingSplits(delays, below - 1, i);
      CopiesSnoc(Waiting(delays, below - 1, i), below - 1);
      CopiesSnoc(DueIn(delays, below - 1, i), below - 1);
      CopiesSnoc(Waiting(delays, below - 1, i + 1), below - 1);
    }
  }

  /** Position i's own contribution to the queue. */
  lemma WaitingGrows(delays: seq<Option<nat>>, i: nat)
    requires i < |delays|
    ensures multiset(Copies(Waiting(delays, i + 1, i + 1)))
         == multiset(Copies(Waiting(delays, i, i + 1)))
          + Queued(delays, i)
  {
    CopiesSnoc(Waiting(delays, i, i + 1), i);
  }

  lemma IterationSlots(delays: seq<Option<nat>>, i: nat)
    requires i < |delays|
    ensures multiset(Iteration(delays, i))
         == multiset{Original(i)} + multiset(Copies(DueIn(delays, i, i)))
          + Own(delays, i)
  {}

  lemma Balance(emitted: multiset<Slot>, waited: multiset<Slot>, due: multiset<Slot>, left: multiset<Slot>,
                original: multiset<Slot>, own: multiset<Slot>, queued: multiset<Slot>)
    requires waited == due + left
    ensures (emitted + (original + due + own)) + (left + queued) == (emitted + waited) + original + (own + queued)
  {}

  /** The copy position i makes in its own iteration, and the one it leaves in the queue. */
  function Own(delays: seq<Option<nat>>, i: nat): multiset<Slot>
    requires i < |delays|
  {
    if delays[i] == Some(0) then multiset{Copy(i)} else multiset{}
  }

  function Queued(delays: seq<Option<nat>>, i: nat): multiset<Slot>
    requires i < |delays|
  {
    if delays[i].Some? && delays[i].value > 0 then multiset{Copy(i)} else multiset{}
  }

  lemma OneIteration(delays: seq<Option<nat>>, i: nat)
    requires i < |delays|
    ensures multiset(Emitted(delays, i + 1)) + multiset(Copies(Waiting(delays, i + 1, i + 1)))
         == multiset(Emitted(delays, i)) + multiset(Copies(Waiting(delays, i, i)))
          + multiset{Original(i)} + (Own(delays, i) + Queued(delays, i))
  {
    WaitingSplits(delays, i, i);
    WaitingGrows(delays, i);
    IterationSlots(delays, i);
    var emitted := multiset(Emitted(delays, i));
    var waited := multiset(Copies(Waiting(delays, i, i)));
    var due := multiset(Copies(DueIn(delays, i, i)));
    var left := multiset(Copies(Waiting(delays, i, i + 1)));
    Balance(emitted, waited, due, left, multiset{Original(i)}, Own(delays, i), Queued(delays, i));
  }

  /** The slots emitted so far and those that still wait. */
  function Accounted(delays: seq<Option<nat>>, i: nat): multiset<Slot>
    requires i <= |delays|
  {
    multiset(Emitted(delays, i)) + multiset(Copies(Waiting(delays, i, i)))
  }

  /** No delayed copy is lost or repeated: what was emitted and what still waits is every
      position so far with its copies. */
  lemma {:induction false} EmittedConserves(delays: seq<Option<nat>>, i: nat)
    requires i <= |delays|
    ensures Accounted(delays, i) == AllSlots(delays, i)
  {
    assert Copies([]) == [];
    for j := 0 to i
      invariant Accounted(delays, j) == AllSlots(delays, j)
    {
      AccountedStep(delays, j);
    }
  }

  lemma OwnOrQueued(delays: seq<Option<nat>>, i: nat)
    requires i < |delays|
    ensures multiset{Original(i)} + (Own(delays, i) + Queued(delays, i)) == SlotsOf(i, delays[i].Some?)
  {
  }

  lemma AccountedStep(delays: seq<Option<nat>>, i: nat)
    requires i < |delays| && Accounted(delays, i) == AllSlots(delays, i)
    ensures Accounted(delays, i + 1) == AllSlots(delays, i + 1)
  {
    OneIteration(delays, i);
    OwnOrQueued(delays, i);
    var more := Own(delays, i) + Queued(delays, i);
    assert AllSlots(delays, i) + multiset{Original(i)} + more == AllSlots(delays, i) + (multiset{Original(i)} + more);
  }

  lemma EmissionConserves(delays: seq<Option<nat>>)
    ensures multiset(Emission(delays)) == AllSlots(delays, |delays|)
  {
    EmittedConserves(delays, |delays|);
  }

  /** The originals among the slots, in order. */
  function Originals(slots: seq<Slot>): seq<nat> {
    if slots == [] then []
    else
      var last := slots[|slots| - 1];
      Originals(slots[..|slots| - 1]) + if last.Original? then [last.pos] else []
  }

  lemma {:induction false} OriginalsAppend(a: seq<Slot>, b: seq<Slot>)
    ensures Originals(a + b) == Originals(a) + Originals(b)
  {
    if b == [] {
      assert a + b == a;
    } else {
      OriginalsAppend(a, b[..|b| - 1]);
      assert (a + b)[..|a + b| - 1] == a + b[..|b| - 1];
    }
  }

  lemma {:induction false} NoOriginalsInCopies(at: seq<nat>)
    ensures Originals(Copies(at)) == []
  {
    if at != [] {
      NoOriginalsInCopies(at[..|at| - 1]);
      assert Copies(at)[..|at| - 1] == Copies(at[..|at| - 1]);
    }
  }

  function Ids(n: nat): seq<nat> { seq(n, i => i) }

  lemma IterationOriginals(delays: seq<Option<nat>>, i: nat)
    requires i < |delays|
    ensures Originals(Iteration(delays, i)) == [i]
  {
    var (first, due) := ([Original(i)], Copies(DueIn(delays, i, i)));
    var own := if delays[i] == Some(0) then [Copy(i)] else [];
    NoOriginalsInCopies(DueIn(delays, i, i));
    OriginalsAppend(first + due, own);
    OriginalsAppend(first, due);
    assert first[..0] == [];
    assert own != [] ==> own[..0] == [];
  }

  lemma {:induction false} OriginalsInOrder(delays: seq<Option<nat>>, i: nat)
    requires i <= |delays|
    ensures Originals(Emitted(delays, i)) == Ids(i)
  {
    if i > 0 {
      OriginalsInOrder(delays, i - 1);
      IterationOriginals(delays, i - 1);
      OriginalsAppend(Emitted(delays, i - 1), Iteration(delays, i - 1));
    }
  }

  /** The output holds the input, in its order. */
  lemma EmissionKeepsOrder(delays: seq<Option<nat>>)
    ensures Originals(Emission(delays)) == Ids(|delays|)
  {
    OriginalsInOrder(delays, |delays|);
    NoOriginalsInCopies(Waiting(delays, |delays|, |delays|));
    OriginalsAppend(Emitted(delays, |delays|), Copies(Waiting(delays, |delays|, |delays|)));
  }

  /** Every copy comes after its original. */
  ghost predicate CopiesFollow(slots: seq<Slot>) {
    forall p :: 0 <= p < |slots| && slots[p].Copy? ==> Original(slots[p].pos) in slots[..p]
  }

  lemma CopiesFollowAppend(slots: seq<Slot>, more: seq<Slot>)
    requires CopiesFollow(slots)
    requires forall p :: 0 <= p < |more| && more[p].Copy? ==> Original(more[p].pos) in slots + more[..p]
    ensures CopiesFollow(slots + more)
  {
    var all := slots + more;
    forall p | 0 <= p < |all| && all[p].Copy? ensures Original(all[p].pos) in all[..p] {
      if p < |slots| {
        assert all[..p] == slots[..p];
      } else {
        assert all[..p] == slots + more[..p - |slots|];
      }
    }
  }

  /** A delayed copy is put out in the iteration `d` after its original's if there is one, and
      waits for the end otherwise. */
  lemma {:induction false} DueExactly(delays: seq<Option<nat>>, below: nat, i: nat)
    ensures forall k: nat :: k in Waiting(delays, below, i) <==> k < below && DueFrom(delays, k, i)
    ensures forall k: nat :: k in DueIn(delays, below, i) <==>
              k < below && k < |delays| && delays[k].Some? && delays[k].value > 0 && k + delays[k].value == i
  {
    if below > 0 { DueExactly(delays, below - 1, i); }
  }

  ghost predicate HasOriginals(slots: seq<Slot>, i: nat) { forall k: nat :: k < i ==> Original(k) in slots }

  ghost predicate AllBelow(slots: seq<Slot>, i: nat) { forall p :: 0 <= p < |slots| ==> slots[p].pos < i }

  /** What one iteration emits: its own original first, then copies of earlier positions. */
  lemma IterationFollows(delays: seq<Option<nat>>, i: nat, before: seq<Slot>)
    requires i < |delays| && HasOriginals(before, i)
    ensures var more := Iteration(delays, i);
            && more != [] && more[0] == Original(i) && AllBelow(more, i + 1)
            && forall p :: 0 <= p < |more| && more[p].Copy? ==> Original(more[p].pos) in before + more[..p]
  {
    DueExactly(delays, i, i);
    var (due, more) := (DueIn(delays, i, i), Iteration(delays, i));
    forall p | 0 <= p < |more|
      ensures more[p].pos <= i && (more[p].Copy? ==> Original(more[p].pos) in before + more[..p])
    {
      if 0 < p <= |due| { assert more[p] == Copy(due[p - 1]) && due[p - 1] in due; }
      if 0 < p { assert more[..p][0] == Original(i); }
    }
  }

  lemma BoundsAppend(before: seq<Slot>, more: seq<Slot>, i: nat)
    requires HasOriginals(before, i) && AllBelow(before, i) && AllBelow(more, i + 1)
    requires more != [] && more[0] == Original(i)
    ensures HasOriginals(before + more, i + 1) && AllBelow(before + more, i + 1)
  {
    assert (before + more)[|before|] == Original(i);
    assert forall slot :: slot in before ==> slot in before + more;
  }

  lemma {:induction false} EmittedFollows(delays: seq<Option<nat>>, i: nat)
    requires i <= |delays|
    ensures CopiesFollow(Emitted(delays, i))
    ensures HasOriginals(Emitted(delays, i), i) && AllBelow(Emitted(delays, i), i)
  {
    if i > 0 {
      var (before, more) := (Emitted(delays, i - 1), Iteration(delays, i - 1));
      EmittedFollows(delays, i - 1);
      IterationFollows(delays, i - 1, before);
      CopiesFollowAppend(before, more);
      BoundsAppend(before, more, i - 1);
    }
  }

  lemma EmissionFollows(delays: seq<Option<nat>>)
    ensures CopiesFollow(Emission(delays))
    ensures forall p :: 0 <= p < |Emission(delays)| ==> Emission(delays)[p].pos < |delays|
    ensures forall k: nat :: k < |delays| ==> Original(k) in Emission(delays)
  {
    var n := |delays|;
    var (before, more) := (Emitted(delays, n), Copies(Waiting(delays, n, n)));
    EmittedFollows(delays, n);
    DueExactly(delays, n, n);
    forall p | 0 <= p < |more| ensures more[p].pos < n && Original(more[p].pos) in before + more[..p] {
      assert Waiting(delays, n, n)[p] in Waiting(delays, n, n);
    }
    CopiesFollowAppend(before, more);
  }

  lemma SlotsOfCounts(i: nat, copied: bool, slot: Slot)
    ensures SlotsOf(i, copied)[slot] == if slot.pos == i && (slot.Original? || copied) then 1 else 0
  {
  }

  lemma CountsAdd(all: multiset<Slot>, more: multiset<Slot>, now: multiset<Slot>, slot: Slot)
    requires now == all + more
    ensures now[slot] == all[slot] + more[slot]
  {
  }

  /** Of the positions below i the slot is put out once, if it is an original or its position is copied. */
  ghost predicate OnceIfWanted(delays: seq<Option<nat>>, i: nat, slot: Slot)
    requires i <= |delays|
  {
    AllSlots(delays, i)[slot] == if slot.pos < i && (slot.Original? || delays[slot.pos].Some?) then 1 else 0
  }

  lemma OnceStep(delays: seq<Option<nat>>, i: nat, slot: Slot)
    requires i < |delays| && OnceIfWanted(delays, i, slot)
    ensures OnceIfWanted(delays, i + 1, slot)
  {
    SlotsOfCounts(i, delays[i].Some?, slot);
    CountsAdd(AllSlots(delays, i), SlotsOf(i, delays[i].Some?), AllSlots(delays, i + 1), slot);
  }

  /** How often a slot is put out: an original once, a copy once if its position is copied. */
  lemma {:induction false} AllSlotsCounts(delays: seq<Option<nat>>, i: nat, slot: Slot)
    requires i <= |delays|
    ensures OnceIfWanted(delays, i, slot)
  {
    if i > 0 {
      AllSlotsCounts(delays, i - 1, slot);
      OnceStep(delays, i - 1, slot);
    }
  }

  lemma CopyInIteration(delays: seq<Option<nat>>, i: nat, p: nat, k: nat)
    requires i < |delays| && p < |Iteration(delays, i)| && Iteration(delays, i)[p] == Copy(k)
    ensures p > 0 && k < |delays| && delays[k].Some? && k + delays[k].value == i
  {
    DueExactly(delays, i, i);
    var due := DueIn(delays, i, i);
    if p <= |due| { assert due[p - 1] == k && k in due; }
  }

  lemma {:induction false} EmittedCopy(delays: seq<Option<nat>>, i: nat, p: nat, k: nat)
    requires i <= |delays| && p < |Emitted(delays, i)| && Emitted(delays, i)[p] == Copy(k)
    ensures k < |delays| && delays[k].Some? && k + delays[k].value < i
    ensures Originals(Emitted(delays, i)[..p]) == Ids(k + delays[k].value + 1)
  {
    var (before, more) := (Emitted(delays, i - 1), Iteration(delays, i - 1));
    if p < |before| {
      EmittedCopy(delays, i - 1, p, k);
      assert Emitted(delays, i)[..p] == before[..p];
    } else {
      CopyInIteration(delays, i - 1, p - |before|, k);
      StartOfIteration(delays, i - 1, p - |before|);
      assert Emitted(delays, i)[..p] == before + more[..p - |before|];
    }
  }

  lemma StartOfIteration(delays: seq<Option<nat>>, i: nat, q: nat)
    requires i < |delays| && 0 < q <= |Iteration(delays, i)|
    ensures Originals(Emitted(delays, i) + Iteration(delays, i)[..q]) == Ids(i + 1)
  {
    OriginalsInOrder(delays, i);
    OriginalsAppend(Emitted(delays, i), Iteration(delays, i)[..q]);
    OriginalsOfStart(delays, i, q);
  }

  /** However far one iteration has come, its one original is out. */
  lemma OriginalsOfStart(delays: seq<Option<nat>>, i: nat, q: nat)
    requires i < |delays| && 0 < q <= |Iteration(delays, i)|
    ensures Originals(Iteration(delays, i)[..q]) == [i]
  {
    var more := Iteration(delays, i);
    var at := seq(q - 1, j requires 0 <= j < q - 1 => more[j + 1].pos);
    assert more[..q] == [Original(i)] + Copies(at);
    OriginalsAppend([Original(i)], Copies(at));
    NoOriginalsInCopies(at);
    assert [Original(i)][..0] == [];
  }

  /** How late: the copy of position k comes when its delay's worth of packets has followed the packet,
      or all that there are. */
  lemma CopyIsLate(delays: seq<Option<nat>>, p: nat, k: nat)
    requires p < |Emission(delays)| && Emission(delays)[p] == Copy(k)
    ensures k < |delays| && delays[k].Some?
    ensures Originals(Emission(delays)[..p]) == Ids(Min(k + delays[k].value + 1, |delays|))
  {
    var n := |delays|;
    var (before, at) := (Emitted(delays, n), Waiting(delays, n, n));
    if p < |before| {
      EmittedCopy(delays, n, p, k);
      assert Emission(delays)[..p] == before[..p];
    } else {
      var q := p - |before|;
      DueExactly(delays, n, n);
      assert at[q] == k && k in at;
      assert Copies(at)[..q] == Copies(at[..q]);
      assert Emission(delays)[..p] == before + Copies(at[..q]);
      OriginalsInOrder(delays, n);
      NoOriginalsInCopies(at[..q]);
      OriginalsAppend(before, Copies(at[..q]));
    }
  }

  /** Which positions are copied, and how late, in the draws: the copy of position k is put out exactly if
      its first draw is 0, once, and as late as its further draws say. */
  lemma CopiedAsDrawn(n: nat, draws: Draws, den: nat, far: nat, at: seq<nat>, k: nat)
    requires den > 0 && far > 0 && k < n
    requires DrawsDecide(draws, den, far, Decisions(n, draws, den, far).0, at)
    ensures var slots := Emission(Decisions(n, draws, den, far).0);
            && multiset(slots)[Original(k)] == 1
            && multiset(slots)[Copy(k)] == (if Min(draws(at[k]), den - 1) == 0 then 1 else 0)
            && forall p :: 0 <= p < |slots| && slots[p] == Copy(k) ==>
                 Originals(slots[..p]) == Ids(Min(n, k + 1 +
                   if Min(draws(at[k] + 2), 3) != 0 then Min(draws(at[k] + 1), 5)
                   else far + Min(draws(at[k] + 3), far - 1)))
  {
    var delays := Decisions(n, draws, den, far).0;
    EmissionConserves(delays);
    AllSlotsCounts(delays, n, Original(k));
    AllSlotsCounts(delays, n, Copy(k));
    assert DrawnAs(draws, den, far, delays[k], at[k], at[k + 1]);
    forall p | 0 <= p < |Emission(delays)| && Emission(delays)[p] == Copy(k)
      ensures Originals(Emission(delays)[..p]) == Ids(Min(k + delays[k].value + 1, n))
    {
      CopyIsLate(delays, p, k);
    }
  }

  /** A delayed token and the iteration it is due in. */
  datatype Later = Later(at: nat, t: FeedTok)

  function Queue(f: seq<FeedTok>, delays: seq<Option<nat>>, at: seq<nat>): (r: seq<Later>)
    requires forall j :: 0 <= j < |at| ==> at[j] < |f| && at[j] < |delays| && delays[at[j]].Some?
    ensures |r| == |at|
  {
    seq(|at|, j requires 0 <= j < |at| => Later(at[j] + delays[at[j]].value, f[at[j]]))
  }

  function Ripe(later: seq<Later>, i: nat): seq<FeedTok> {
    if later == [] then []
    else (if later[0].at <= i then [later[0].t] else []) + Ripe(later[1..], i)
  }

  function Unripe(later: seq<Later>, i: nat): seq<Later> {
    if later == [] then []
    else (if later[0].at <= i then [] else [later[0]]) + Unripe(later[1..], i)
  }

  /** The scan of the delay queue: what is due is appended and deleted in place. */
  method EmitDue(later: seq<Later>, i: nat, out: seq<FeedTok>) returns (rest: seq<Later>, after: seq<FeedTok>)
    ensures after == out + Ripe(later, i) && rest == Unripe(later, i)
  {
    rest, after := later, out;
    var k := 0;
    while k < |rest|
      invariant k <= |rest|
      invariant after + Ripe(rest[k..], i) == out + Ripe(later, i)
      invariant rest[..k] + Unripe(rest[k..], i) == Unripe(later, i)
      decreases |rest| - k
    {
      if rest[k].at <= i {
        after := after + [rest[k].t];
        assert Delete(rest, k)[k..] == rest[k..][1..];
        assert Delete(rest, k)[..k] == rest[..k];
        rest := Delete(rest, k);
      } else {
        assert rest[k..][1..] == rest[k + 1..];
        assert rest[..k + 1] == rest[..k] + [rest[k]];
        k := k + 1;
      }
    }
  }

  lemma {:induction false} RipeSnoc(later: seq<Later>, last: Later, i: nat)
    ensures Ripe(later + [last], i) == Ripe(later, i) + if last.at <= i then [last.t] else []
    ensures Unripe(later + [last], i) == Unripe(later, i) + if last.at <= i then [] else [last]
  {
    if later == [] {
      assert later + [last] == [last];
    } else {
      RipeSnoc(later[1..], last, i);
      assert (later + [last])[1..] == later[1..] + [last];
    }
  }

  /** The queue before iteration i, for the positions below `below`. */
  function Waiters(f: seq<FeedTok>, delays: seq<Option<nat>>, below: nat, i: nat): seq<Later>
    requires below <= |f| == |delays|
  {
    DueExactly(delays, below, i);
    assert forall j :: 0 <= j < |Waiting(delays, below, i)| ==> Waiting(delays, below, i)[j] in Waiting(delays, below, i);
    Queue(f, delays, Waiting(delays, below, i))
  }

  function DueTokens(f: seq<FeedTok>, delays: seq<Option<nat>>, below: nat, i: nat): seq<FeedTok>
    requires below <= |f| == |delays|
  {
    DueExactly(delays, below, i);
    assert forall j :: 0 <= j < |DueIn(delays, below, i)| ==> DueIn(delays, below, i)[j] in DueIn(delays, below, i);
    Tokens(f, Copies(DueIn(delays, below, i)))
  }

  lemma WaitersStep(f: seq<FeedTok>, delays: seq<Option<nat>>, b: nat, i: nat)
    requires b < |f| == |delays|
    ensures Waiters(f, delays, b + 1, i) == Waiters(f, delays, b, i)
              + if DueFrom(delays, b, i) then [Later(b + delays[b].value, f[b])] else []
    ensures DueTokens(f, delays, b + 1, i) == DueTokens(f, delays, b, i)
              + if DueFrom(delays, b, i) && !DueFrom(delays, b, i + 1) then [f[b]] else []
  {}

  /** Scanning that queue in iteration i emits what is due and leaves the next queue. */
  lemma {:induction false} ScanWaiters(f: seq<FeedTok>, delays: seq<Option<nat>>, below: nat, i: nat)
    requires below <= |f| == |delays|
    ensures Ripe(Waiters(f, delays, below, i), i) == DueTokens(f, delays, below, i)
    ensures Unripe(Waiters(f, delays, below, i), i) == Waiters(f, delays, below, i + 1)
  {
    if below > 0 {
      var b: nat := below - 1;
      ScanWaiters(f, delays, b, i);
      WaitersStep(f, delays, b, i);
      WaitersStep(f, delays, b, i + 1);
      if DueFrom(delays, b, i) {
        RipeSnoc(Waiters(f, delays, b, i), Later(b + delays[b].value, f[b]), i);
      }
    }
  }

  /** What the first i iterations put out. */
  function Output(f: seq<FeedTok>, delays: seq<Option<nat>>, i: nat): seq<FeedTok>
    requires i <= |f| == |delays|
  {
    EmittedFollows(delays, i);
    Tokens(f, Emitted(delays, i))
  }

  lemma OutputStep(f: seq<FeedTok>, delays: seq<Option<nat>>, i: nat)
    requires i < |f| == |delays|
    ensures Output(f, delays, i + 1)
         == Output(f, delays, i) + [f[i]] + DueTokens(f, delays, i, i) + if delays[i] == Some(0) then [f[i]] else []
  {
    var (emitted, first, due) := (Emitted(delays, i), [Original(i)], Copies(DueIn(delays, i, i)));
    var own := if delays[i] == Some(0) then [Copy(i)] else [];
    assert Emitted(delays, i + 1) == emitted + first + due + own;
  }

  /** The output of `duplicate` for the given decisions. */
  function Duplicated(f: seq<FeedTok>, delays: seq<Option<nat>>): seq<FeedTok>
    requires |f| == |delays|
  {
    EmissionFollows(delays);
    Tokens(f, Emission(delays))
  }

  lemma DuplicatedIsOutput(f: seq<FeedTok>, delays: seq<Option<nat>>)
    requires |f| == |delays|
    ensures var rest := Waiters(f, delays, |f|, |f|);
            Duplicated(f, delays) == Output(f, delays, |f|) + seq(|rest|, j requires 0 <= j < |rest| => rest[j].t)
  {}

  lemma {:induction false} DecisionsPrefix(m: nat, n: nat, draws: Draws, den: nat, far: nat)
    requires den > 0 && far > 0 && m <= n
    ensures Decisions(n, draws, den, far).0[..m] == Decisions(m, draws, den, far).0
  {
    if m < n { DecisionsPrefix(m, n - 1, draws, den, far); }
  }

  /** One iteration: the packet, what is due, and the packet's own copy, at once or later. */
  method DuplicateStep(f: seq<FeedTok>, i: nat, delay: Option<nat>, later: seq<Later>, out: seq<FeedTok>,
                       ghost delays: seq<Option<nat>>)
    returns (rest: seq<Later>, after: seq<FeedTok>)
    requires i < |f| == |delays| && delays[i] == delay
    requires out == Output(f, delays, i) && later == Waiters(f, delays, i, i)
    ensures after == Output(f, delays, i + 1) && rest == Waiters(f, delays, i + 1, i + 1)
  {
    ScanWaiters(f, delays, i, i);
    rest, after := EmitDue(later, i, out + [f[i]]);
    OutputStep(f, delays, i);
    WaitersStep(f, delays, i, i + 1);
    if delay.Some? {
      if delay.value == 0 {
        after := after + [f[i]];
      } else {
        rest := rest + [Later(i + delay.value, f[i])];
      }
    }
  }

  method Duplicate(f: seq<FeedTok>, den: nat, far: nat, draws: Draws) returns (out: seq<FeedTok>)
    requires den > 0 && far > 0
    ensures out == Duplicated(f, Decisions(|f|, draws, den, far).0)
    ensures exists at :: DrawsDecide(draws, den, far, Decisions(|f|, draws, den, far).0, at)
  {
    ghost var at := DecidedByDraws(|f|, draws, den, far);
    ghost var delays := Decisions(|f|, draws, den, far).0;
    out := [];
    var later: seq<Later> := [];
    var k: nat := 0;
    for i := 0 to |f|
      invariant k == Decisions(i, draws, den, far).1
      invariant out == Output(f, delays, i) && later == Waiters(f, delays, i, i)
    {
      var (delay, next) := Decide(draws, k, den, far);
      k := next;
      DecisionAt(i, |f|, draws, den, far);
      later, out := DuplicateStep(f, i, delay, later, out, delays);
    }
    DuplicatedIsOutput(f, delays);
    out := out + seq(|later|, j requires 0 <= j < |later| => later[j].t);
  }

  lemma DecisionAt(i: nat, n: nat, draws: Draws, den: nat, far: nat)
    requires den > 0 && far > 0 && i < n
    ensures Decisions(n, draws, den, far).0[i] == Decide(draws, Decisions(i, draws, den, far).1, den, far).0
  {
    DecisionsPrefix(i + 1, n, draws, den, far);
    assert Decisions(n, draws, den, far).0[i] == Decisions(n, draws, den, far).0[..i + 1][i];
  }
}
