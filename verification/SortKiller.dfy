/** McIlroy's adversary (tools/govectors/autotune.go, sortKiller): a comparator that invents the
    order of its elements while a sort is running.

    A deterministic comparison sort of a slice is a finite decision tree whose nodes compare or
    exchange two positions, which are the only two things `sort.Slice` can do to its slice. */
module SortKiller {
  import opened Helpers

  datatype Sorter =
    | Less(i: nat, j: nat, ifTrue: Sorter, ifFalse: Sorter)
    | Swap(i: nat, j: nat, next: Sorter)
    | Done
  {
    /** Every position the tree can touch lies in a slice of length n. */
    predicate InRange(n: nat) {
      match this
      case Less(i, j, a, b) => i < n && j < n && a.InRange(n) && b.InRange(n)
      case Swap(i, j, next) => i < n && j < n && next.InRange(n)
      case Done => true
    }
  }

  /** What a run leaves behind: the slice and the answers it was given, in order. */
  datatype Run<T> = Run(data: seq<T>, answers: seq<bool>)

  /** The sort on a slice of numbers, ascending. */
  function PlainRun(t: Sorter, data: seq<nat>): (r: Run<nat>)
    requires t.InRange(|data|)
    ensures |r.data| == |data|
  {
    match t
    case Done => Run(data, [])
    case Swap(i, j, next) => PlainRun(next, Exchange(data, i, j))
    case Less(i, j, a, b) =>
      var answer := data[i] < data[j];
      var rest := PlainRun(if answer then a else b, data);
      Run(rest.data, [answer] + rest.answers)
  }

  // ---------------------------------------------------------------------------------------
  // The adversary
  // ---------------------------------------------------------------------------------------

  /** The comparator's variables. An element whose value is |val| is still "gas". */
  datatype State = State(val: seq<nat>, nsolid: nat, candidate: nat) {
    predicate Gas(x: nat) requires x < |val| { val[x] == |val| }

    /** nsolid counts the frozen elements, whose values are distinct and below nsolid. */
    ghost predicate Valid() {
      && nsolid == CountSolid(val, |val|) <= |val|
      && (forall x :: 0 <= x < |val| && !Gas(x) ==> val[x] < nsolid)
      && (forall x, y :: 0 <= x < y < |val| && !Gas(x) && !Gas(y) ==> val[x] != val[y])
    }
  }

  /** The number of elements whose value is not the gas value. */
  function CountSolid(val: seq<nat>, gas: nat): nat {
    if val == [] then 0
    else CountSolid(val[..|val| - 1], gas) + if val[|val| - 1] == gas then 0 else 1
  }

  function Init(n: nat): State { State(seq(n, _ => n), 0, 0) }

  function Frozen(s: State, x: nat): (r: State)
    requires x < |s.val|
  {
    s.(val := s.val[x := s.nsolid], nsolid := s.nsolid + 1)
  }

  /** Of two gas elements, one is frozen: the candidate if it is the first of them. */
  function Settle(s: State, x: nat, y: nat): (r: State)
    requires x < |s.val| && y < |s.val|
    ensures |r.val| == |s.val|
  {
    if s.Gas(x) && s.Gas(y) then Frozen(s, if x == s.candidate then x else y) else s
  }

  /** The state after the comparator has been asked about elements x and y. */
  function Compare(s: State, x: nat, y: nat): (r: State)
    requires x < |s.val| && y < |s.val|
    ensures |r.val| == |s.val|
  {
    var f := Settle(s, x, y);
    if f.Gas(x) then f.(candidate := x)
    else if f.Gas(y) then f.(candidate := y)
    else f
  }

  /** The sort, run on the element ids against the adversary. */
  function AdaptiveRun(t: Sorter, ids: seq<nat>, s: State): (r: (State, Run<nat>))
    requires t.InRange(|ids|) && (forall k :: 0 <= k < |ids| ==> ids[k] < |s.val|)
    ensures |r.0.val| == |s.val| && |r.1.data| == |ids|
    ensures forall k :: 0 <= k < |ids| ==> r.1.data[k] < |s.val|
  {
    match t
    case Done => (s, Run(ids, []))
    case Swap(i, j, next) => AdaptiveRun(next, Exchange(ids, i, j), s)
    case Less(i, j, a, b) =>
      var s' := Compare(s, ids[i], ids[j]);
      var answer := s'.val[ids[i]] < s'.val[ids[j]];
      var (end, rest) := AdaptiveRun(if answer then a else b, ids, s');
      (end, Run(rest.data, [answer] + rest.answers))
  }

  /** Freezes what is left from position i on, in position order. */
  function FreezeRest(s: State, i: nat): (r: State)
    requires i <= |s.val|
    ensures |r.val| == |s.val|
    decreases |s.val| - i
  {
    if i == |s.val| then s
    else FreezeRest(if s.Gas(i) then Frozen(s, i) else s, i + 1)
  }

  function Ids(n: nat): seq<nat> { seq(n, i => i) }

  /** The permutation the adversary returns against sort t. */
  function Killed(n: nat, t: Sorter): (val: seq<nat>)
    requires t.InRange(n)
    ensures |val| == n
  {
    FreezeRest(AdaptiveRun(t, Ids(n), Init(n)).0, 0).val
  }

  // ---------------------------------------------------------------------------------------
  // What every comparison keeps
  // ---------------------------------------------------------------------------------------

  lemma {:induction false} CountNone(val: seq<nat>, gas: nat)
    requires forall x :: 0 <= x < |val| ==> val[x] == gas
    ensures CountSolid(val, gas) == 0
  {
    if val != [] { CountNone(val[..|val| - 1], gas); }
  }

  lemma {:induction false} CountFreeze(val: seq<nat>, gas: nat, x: nat, v: nat)
    requires x < |val| && val[x] == gas && v != gas
    ensures CountSolid(val[x := v], gas) == CountSolid(val, gas) + 1
  {
    var rest := val[..|val| - 1];
    if x < |val| - 1 {
      CountFreeze(rest, gas, x, v);
      assert val[x := v][..|val| - 1] == rest[x := v];
    } else {
      assert val[x := v][..|val| - 1] == rest;
    }
  }

  /** Every element is frozen exactly when the count says so. */
  lemma {:induction false} CountAll(val: seq<nat>, gas: nat)
    ensures CountSolid(val, gas) <= |val|
    ensures CountSolid(val, gas) == |val| <==> forall x :: 0 <= x < |val| ==> val[x] != gas
  {
    if val != [] {
      CountAll(val[..|val| - 1], gas);
      if CountSolid(val, gas) == |val| {
        forall x | 0 <= x < |val| ensures val[x] != gas {
          if x < |val| - 1 { assert val[..|val| - 1][x] != gas; }
        }
      }
    }
  }

  /** Two elements short of the full count, two elements are gas. */
  lemma {:induction false} CountTwoShort(val: seq<nat>, gas: nat) returns (x: nat, y: nat)
    requires CountSolid(val, gas) + 1 < |val|
    ensures x < |val| && y < |val| && x != y && val[x] == gas && val[y] == gas
  {
    var rest := val[..|val| - 1];
    if CountSolid(rest, gas) + 1 < |rest| {
      x, y := CountTwoShort(rest, gas);
    } else {
      y := |val| - 1;
      CountAll(rest, gas);
      x :| 0 <= x < |rest| && rest[x] == gas;
    }
  }

  lemma InitValid(n: nat)
    ensures Init(n).Valid()
  {
    CountNone(Init(n).val, n);
  }

  lemma FreezeKeepsValid(s: State, x: nat)
    requires s.Valid() && x < |s.val| && s.Gas(x)
    ensures s.nsolid < |s.val| && Frozen(s, x).Valid()
  {
    CountAll(s.val, |s.val|);
    CountFreeze(s.val, |s.val|, x, s.nsolid);
  }

  lemma SettleKeepsValid(s: State, x: nat, y: nat)
    requires s.Valid() && x < |s.val| && y < |s.val|
    ensures var r := Settle(s, x, y);
            && r.Valid()
            && s.nsolid <= r.nsolid <= s.nsolid + 1
            && (forall k :: 0 <= k < |s.val| && !s.Gas(k) ==> r.val[k] == s.val[k])
            && (x != y ==> !r.Gas(x) || !r.Gas(y))
  {
    if s.Gas(x) && s.Gas(y) {
      FreezeKeepsValid(s, if x == s.candidate then x else y);
    }
  }

  /** One comparison, of any two elements and of an element with itself, keeps the invariant,
      never changes a frozen value and freezes at most one element. When the candidate (the sort's
      likely pivot) meets other gas, it is the candidate that freezes and the other takes over. */
  lemma CompareKeepsValid(s: State, x: nat, y: nat)
    requires s.Valid() && x < |s.val| && y < |s.val|
    ensures Compare(s, x, y).Valid()
    ensures s.nsolid <= Compare(s, x, y).nsolid <= s.nsolid + 1
    ensures forall k :: 0 <= k < |s.val| && !s.Gas(k) ==> Compare(s, x, y).val[k] == s.val[k]
    ensures x != y ==> !Compare(s, x, y).Gas(x) || !Compare(s, x, y).Gas(y)
    ensures x != y && s.Gas(x) && s.Gas(y) && s.candidate in {x, y} ==>
              && Compare(s, x, y).val[s.candidate] == s.nsolid
              && Compare(s, x, y).candidate in {x, y} - {s.candidate}
  {
    SettleKeepsValid(s, x, y);
    assert Compare(s, x, y).val == Settle(s, x, y).val;
    assert Compare(s, x, y).nsolid == Settle(s, x, y).nsolid;
  }

  /** Exactly what one question does: two gas elements cost one of them its freedom, the first if it is
      the candidate and the second otherwise, also when neither is; and the new candidate is the one
      that is gas afterwards, the first before the second, or the old one if neither is. */
  lemma CompareExactly(s: State, x: nat, y: nat)
    requires s.Valid() && x < |s.val| && y < |s.val|
    ensures var r := Compare(s, x, y);
            && (s.Gas(x) && s.Gas(y) && x == s.candidate ==> r.val[x] == s.nsolid && (x != y ==> r.Gas(y)))
            && (s.Gas(x) && s.Gas(y) && x != s.candidate ==> r.val[y] == s.nsolid && (x != y ==> r.Gas(x)))
            && (!s.Gas(x) || !s.Gas(y) ==> r.val == s.val && r.nsolid == s.nsolid)
            && (forall k :: 0 <= k < |s.val| && k != x && k != y ==> r.val[k] == s.val[k])
            && r.candidate == if r.Gas(x) then x else if r.Gas(y) then y else s.candidate
  {
    CountAll(s.val, |s.val|);
  }

  /** One question: the elements it was about and the state it left. */
  datatype Question = Question(x: nat, y: nat, after: State)

  /** The questions of a run. */
  function Questions(t: Sorter, ids: seq<nat>, s: State): (r: seq<Question>)
    requires t.InRange(|ids|) && (forall k :: 0 <= k < |ids| ==> ids[k] < |s.val|)
    ensures forall q :: q in r ==> q.x < |q.after.val| && q.y < |q.after.val|
  {
    match t
    case Done => []
    case Swap(i, j, next) => Questions(next, Exchange(ids, i, j), s)
    case Less(i, j, a, b) =>
      var s' := Compare(s, ids[i], ids[j]);
      [Question(ids[i], ids[j], s')]
      + Questions(if s'.val[ids[i]] < s'.val[ids[j]] then a else b, ids, s')
  }

  /** The last element that was still gas after being asked about, if there is one. */
  function LastGas(asked: seq<Question>, none: nat): nat
    requires forall q :: q in asked ==> q.x < |q.after.val| && q.y < |q.after.val|
  {
    if asked == [] then none
    else
      var q := asked[0];
      LastGas(asked[1..], if q.after.Gas(q.x) then q.x else if q.after.Gas(q.y) then q.y else none)
  }

  /** Over a whole run the candidate is the last gas element asked about. */
  lemma {:induction false} CandidateIsLastGas(t: Sorter, ids: seq<nat>, s: State)
    requires s.Valid()
    requires t.InRange(|ids|) && (forall k :: 0 <= k < |ids| ==> ids[k] < |s.val|)
    ensures AdaptiveRun(t, ids, s).0.candidate == LastGas(Questions(t, ids, s), s.candidate)
  {
    match t
    case Done =>
    case Swap(i, j, next) => CandidateIsLastGas(next, Exchange(ids, i, j), s);
    case Less(i, j, a, b) =>
      var s' := Compare(s, ids[i], ids[j]);
      CompareKeepsValid(s, ids[i], ids[j]);
      CompareExactly(s, ids[i], ids[j]);
      var next := if s'.val[ids[i]] < s'.val[ids[j]] then a else b;
      CandidateIsLastGas(next, ids, s');
      var asked := Questions(t, ids, s);
      assert asked[0] == Question(ids[i], ids[j], s') && asked[1..] == Questions(next, ids, s');
  }

  /** Against any sort: the last gas element asked about, or the first element before there is one. */
  lemma CandidateOfRun(n: nat, t: Sorter)
    requires t.InRange(n)
    ensures AdaptiveRun(t, Ids(n), Init(n)).0.candidate == LastGas(Questions(t, Ids(n), Init(n)), 0)
  {
    InitValid(n);
    CandidateIsLastGas(t, Ids(n), Init(n));
  }

  /** A whole run keeps it too, and freezes at most one element per question asked. */
  lemma {:induction false} AdaptiveRunKeepsValid(t: Sorter, ids: seq<nat>, s: State)
    requires s.Valid()
    requires t.InRange(|ids|) && (forall k :: 0 <= k < |ids| ==> ids[k] < |s.val|)
    ensures var (end, run) := AdaptiveRun(t, ids, s);
            end.Valid() && s.nsolid <= end.nsolid <= s.nsolid + |run.answers|
  {
    match t
    case Done =>
    case Swap(i, j, next) => AdaptiveRunKeepsValid(next, Exchange(ids, i, j), s);
    case Less(i, j, a, b) =>
      var s' := Compare(s, ids[i], ids[j]);
      CompareKeepsValid(s, ids[i], ids[j]);
      AdaptiveRunKeepsValid(if s'.val[ids[i]] < s'.val[ids[j]] then a else b, ids, s');
  }

  // ---------------------------------------------------------------------------------------
  // Replay
  // ---------------------------------------------------------------------------------------

  /** Values that agree with s on what is frozen and put everything else above it. */
  ghost predicate Extends(f: seq<nat>, s: State) {
    && |f| == |s.val|
    && forall x :: 0 <= x < |f| ==> if s.Gas(x) then f[x] >= s.nsolid else f[x] == s.val[x]
  }

  function Map(f: seq<nat>, ids: seq<nat>): (r: seq<nat>)
    requires forall k :: 0 <= k < |ids| ==> ids[k] < |f|
    ensures |r| == |ids|
  {
    seq(|ids|, k requires 0 <= k < |ids| => f[ids[k]])
  }

  lemma ExtendsBackwards(f: seq<nat>, s: State, x: nat, y: nat)
    requires s.Valid() && x < |s.val| && y < |s.val|
    requires Extends(f, Compare(s, x, y))
    ensures Extends(f, s)
    ensures f[x] < f[y] <==> Compare(s, x, y).val[x] < Compare(s, x, y).val[y]
  {
    CompareKeepsValid(s, x, y);
    var r := Compare(s, x, y);
    forall k | 0 <= k < |f| ensures if s.Gas(k) then f[k] >= s.nsolid else f[k] == s.val[k] {
      if s.Gas(k) && !r.Gas(k) {
        assert r.val[k] == s.nsolid;
      }
    }
  }

  /** The answers the adversary gives are those of any values that extend the state it ends in:
      the sort asks the same questions of them, is told the same, and moves the same elements. */
  lemma {:induction false} ReplayFrom(t: Sorter, ids: seq<nat>, s: State, f: seq<nat>)
    requires s.Valid()
    requires t.InRange(|ids|) && (forall k :: 0 <= k < |ids| ==> ids[k] < |s.val|)
    requires Extends(f, AdaptiveRun(t, ids, s).0)
    ensures Extends(f, s)
    ensures var run := AdaptiveRun(t, ids, s).1;
            PlainRun(t, Map(f, ids)) == Run(Map(f, run.data), run.answers)
  {
    match t
    case Done =>
    case Swap(i, j, next) =>
      ReplayFrom(next, Exchange(ids, i, j), s, f);
      assert Map(f, Exchange(ids, i, j)) == Exchange(Map(f, ids), i, j);
    case Less(i, j, a, b) =>
      var s' := Compare(s, ids[i], ids[j]);
      CompareKeepsValid(s, ids[i], ids[j]);
      ReplayFrom(if s'.val[ids[i]] < s'.val[ids[j]] then a else b, ids, s', f);
      ExtendsBackwards(f, s, ids[i], ids[j]);
  }

  /** What extends a state with one more element frozen extends the state. */
  lemma ExtendsBack(f: seq<nat>, s: State, i: nat)
    requires s.Valid() && i < |s.val| && s.Gas(i) && Extends(f, Frozen(s, i))
    ensures Extends(f, s)
  {
    forall k | 0 <= k < |f| ensures if s.Gas(k) then f[k] >= s.nsolid else f[k] == s.val[k] {
      assert k != i ==> Frozen(s, i).val[k] == s.val[k];
    }
  }

  lemma {:induction false} FreezeRestExtends(s: State, i: nat)
    requires s.Valid() && i <= |s.val| && (forall k :: 0 <= k < i ==> !s.Gas(k))
    ensures var r := FreezeRest(s, i);
            r.Valid() && r.nsolid == |s.val| && Extends(r.val, s) && (forall k :: 0 <= k < |r.val| ==> !r.Gas(k))
    decreases |s.val| - i
  {
    if i == |s.val| {
      CountAll(s.val, |s.val|);
    } else if s.Gas(i) {
      FreezeKeepsValid(s, i);
      FreezeRestExtends(Frozen(s, i), i + 1);
      ExtendsBack(FreezeRest(Frozen(s, i), i + 1).val, s, i);
    } else {
      FreezeRestExtends(s, i + 1);
    }
  }

  /** What is left at the end gets the largest values, in position order. */
  lemma {:induction false} FreezeRestInOrder(s: State, i: nat, x: nat, y: nat)
    requires s.Valid() && i <= |s.val| && i <= x < y < |s.val| && s.Gas(x) && s.Gas(y)
    ensures s.nsolid <= FreezeRest(s, i).val[x] < FreezeRest(s, i).val[y]
    decreases |s.val| - i
  {
    if i == x {
      var f := Frozen(s, i);
      FreezeKeepsValid(s, i);
      FreezeRestLater(f, i + 1, y);
      FreezeRestKeeps(f, i + 1, x);
    } else {
      if s.Gas(i) { FreezeKeepsValid(s, i); }
      FreezeRestInOrder(if s.Gas(i) then Frozen(s, i) else s, i + 1, x, y);
    }
  }

  lemma {:induction false} FreezeRestLater(s: State, i: nat, y: nat)
    requires s.Valid() && i <= y < |s.val| && s.Gas(y)
    ensures FreezeRest(s, i).val[y] >= s.nsolid
    decreases |s.val| - i
  {
    if i == y {
      FreezeKeepsValid(s, i);
      FreezeRestKeeps(Frozen(s, i), i + 1, y);
    } else {
      if s.Gas(i) { FreezeKeepsValid(s, i); }
      FreezeRestLater(if s.Gas(i) then Frozen(s, i) else s, i + 1, y);
    }
  }

  lemma {:induction false} FreezeRestKeeps(s: State, i: nat, x: nat)
    requires i <= |s.val| && x < |s.val| && (x < i || !s.Gas(x))
    ensures FreezeRest(s, i).val[x] == s.val[x]
    decreases |s.val| - i
  {
    if i < |s.val| { FreezeRestKeeps(if s.Gas(i) then Frozen(s, i) else s, i + 1, x); }
  }

  /** In the returned permutation the elements the sort never froze come last, in position order. */
  lemma UnfrozenInPositionOrder(n: nat, t: Sorter, x: nat, y: nat)
    requires t.InRange(n) && x < y < n
    requires AdaptiveRun(t, Ids(n), Init(n)).0.Gas(x) && AdaptiveRun(t, Ids(n), Init(n)).0.Gas(y)
    ensures AdaptiveRun(t, Ids(n), Init(n)).0.nsolid <= Killed(n, t)[x] < Killed(n, t)[y]
  {
    EndState(n, t);
    FreezeRestInOrder(AdaptiveRun(t, Ids(n), Init(n)).0, 0, x, y);
  }

  /** A permutation of 0..n-1. */
  ghost predicate IsPermutation(val: seq<nat>) {
    && (forall x :: 0 <= x < |val| ==> val[x] < |val|)
    && (forall x, y :: 0 <= x < y < |val| ==> val[x] != val[y])
  }

  lemma EndState(n: nat, t: Sorter)
    requires t.InRange(n)
    ensures Init(n).Valid() && AdaptiveRun(t, Ids(n), Init(n)).0.Valid()
    ensures Extends(Killed(n, t), AdaptiveRun(t, Ids(n), Init(n)).0)
  {
    InitValid(n);
    AdaptiveRunKeepsValid(t, Ids(n), Init(n));
    FreezeRestExtends(AdaptiveRun(t, Ids(n), Init(n)).0, 0);
  }

  /** What the adversary returns is always a permutation of 0..n-1. */
  lemma KilledIsPermutation(n: nat, t: Sorter)
    requires t.InRange(n)
    ensures IsPermutation(Killed(n, t))
  {
    InitValid(n);
    AdaptiveRunKeepsValid(t, Ids(n), Init(n));
    FreezeRestExtends(AdaptiveRun(t, Ids(n), Init(n)).0, 0);
  }

  /** Sorting the returned permutation replays the adaptive run: same questions, same answers,
      and the sort ends with the same elements in the same places. */
  lemma Replay(n: nat, t: Sorter)
    requires t.InRange(n)
    ensures var (_, run) := AdaptiveRun(t, Ids(n), Init(n));
            PlainRun(t, Killed(n, t)) == Run(Map(Killed(n, t), run.data), run.answers)
  {
    EndState(n, t);
    ReplayFrom(t, Ids(n), Init(n), Killed(n, t));
    assert Map(Killed(n, t), Ids(n)) == Killed(n, t);
  }

  ghost predicate Sorted(data: seq<nat>) {
    forall i, j :: 0 <= i < j < |data| ==> data[i] <= data[j]
  }

  /** Values for every element: the frozen ones as they are, then x, then the rest of the gas. */
  function Spread(s: State, x: nat): (f: seq<nat>)
    ensures |f| == |s.val|
  {
    var n := |s.val|;
    seq(n, k requires 0 <= k < n => if s.Gas(k) then (if k == x then n else n + 1) else s.val[k])
  }

  lemma SpreadReplays(n: nat, t: Sorter, x: nat)
    requires t.InRange(n)
    ensures var (end, run) := AdaptiveRun(t, Ids(n), Init(n));
            PlainRun(t, Spread(end, x)).data == Map(Spread(end, x), run.data)
  {
    InitValid(n);
    AdaptiveRunKeepsValid(t, Ids(n), Init(n));
    var f := Spread(AdaptiveRun(t, Ids(n), Init(n)).0, x);
    ReplayFrom(t, Ids(n), Init(n), f);
    assert Map(f, Ids(n)) == f;
  }

  lemma TwoGasElements(n: nat, t: Sorter, x: nat, y: nat) returns (data: seq<nat>)
    requires t.InRange(n) && x < n && y < n && x != y
    requires AdaptiveRun(t, Ids(n), Init(n)).0.Gas(x) && AdaptiveRun(t, Ids(n), Init(n)).0.Gas(y)
    ensures |data| == n && !Sorted(PlainRun(t, data).data)
  {
    var end := AdaptiveRun(t, Ids(n), Init(n)).0;
    var ids := AdaptiveRun(t, Ids(n), Init(n)).1.data;
    var i := EndsAt(n, t, x);
    var j := EndsAt(n, t, y);
    var lower := if i < j then y else x;
    SpreadReplays(n, t, lower);
    data := Spread(end, lower);
    assert Map(data, ids)[i] == data[x] && Map(data, ids)[j] == data[y];
  }

  /** Where element x ends up. */
  lemma EndsAt(n: nat, t: Sorter, x: nat) returns (i: nat)
    requires t.InRange(n) && x < n
    ensures var ids := AdaptiveRun(t, Ids(n), Init(n)).1.data; i < |ids| && |ids| == n && ids[i] == x
  {
    assert Ids(n)[x] == x;
    IdsStay(t, Ids(n), Init(n), x);
    i :| 0 <= i < n && AdaptiveRun(t, Ids(n), Init(n)).1.data[i] == x;
  }

  /** A correct sort freezes all but one element, and so asks at least n - 1 questions: one that
      leaves two unfrozen fails on some slice, because exchanging their values goes unnoticed. */
  lemma FooledUnlessAllButOneFrozen(n: nat, t: Sorter) returns (data: seq<nat>)
    requires t.InRange(n)
    requires AdaptiveRun(t, Ids(n), Init(n)).0.nsolid + 1 < n || |AdaptiveRun(t, Ids(n), Init(n)).1.answers| + 1 < n
    ensures |data| == n && !Sorted(PlainRun(t, data).data)
  {
    var end := AdaptiveRun(t, Ids(n), Init(n)).0;
    InitValid(n);
    AdaptiveRunKeepsValid(t, Ids(n), Init(n));
    var x, y := CountTwoShort(end.val, n);
    data := TwoGasElements(n, t, x, y);
  }

  /** The sort only moves elements around: none is lost. */
  lemma {:induction false} IdsStay(t: Sorter, ids: seq<nat>, s: State, x: nat)
    requires t.InRange(|ids|) && (forall k :: 0 <= k < |ids| ==> ids[k] < |s.val|)
    requires x in ids
    ensures x in AdaptiveRun(t, ids, s).1.data
  {
    match t
    case Done =>
    case Swap(i, j, next) =>
      var k :| 0 <= k < |ids| && ids[k] == x;
      var swapped := Exchange(ids, i, j);
      assert x == swapped[if k == i then j else if k == j then i else k];
      IdsStay(next, swapped, s, x);
    case Less(i, j, a, b) =>
      var s' := Compare(s, ids[i], ids[j]);
      IdsStay(if s'.val[ids[i]] < s'.val[ids[j]] then a else b, ids, s', x);
  }

  // ---------------------------------------------------------------------------------------
  // The program
  // ---------------------------------------------------------------------------------------

  class Adversary {
    var val: array<nat>
    var nsolid: nat
    var candidate: nat

    function View(): State
      reads this, val
    {
      State(val[..], nsolid, candidate)
    }

    constructor (n: nat)
      ensures fresh(val) && View() == Init(n)
    {
      val := new nat[n](_ => n);
      nsolid, candidate := 0, 0;
      new;
      assert val[..] == seq(n, _ => n);
    }

    method Freeze(x: nat)
      requires x < val.Length
      modifies this`nsolid, val
      ensures View() == Frozen(old(View()), x)
    {
      val[x] := nsolid;
      nsolid := nsolid + 1;
    }

    /** The comparator `sort.Slice` is given, on the two elements it was asked about. */
    method Less(x: nat, y: nat) returns (less: bool)
      requires x < val.Length && y < val.Length
      modifies this`nsolid, this`candidate, val
      ensures View() == Compare(old(View()), x, y)
      ensures less == (View().val[x] < View().val[y])
    {
      var gas := val.Length;
      if val[x] == gas && val[y] == gas {
        if x == candidate { Freeze(x); } else { Freeze(y); }
      }
      if val[x] == gas {
        candidate := x;
      } else if val[y] == gas {
        candidate := y;
      }
      return val[x] < val[y];
    }
  }

  /** `sort.Slice(ids, less)`: the sort itself, driven by the answers it gets. */
  method SortIds(t: Sorter, ids: array<nat>, adversary: Adversary)
    requires t.InRange(ids.Length) && (forall k :: 0 <= k < ids.Length ==> ids[k] < adversary.val.Length)
    requires ids != adversary.val
    modifies ids, adversary`nsolid, adversary`candidate, adversary.val
    ensures adversary.View() == AdaptiveRun(t, old(ids[..]), old(adversary.View())).0
    ensures ids[..] == AdaptiveRun(t, old(ids[..]), old(adversary.View())).1.data
  {
    var rest := t;
    while !rest.Done?
      invariant rest.InRange(ids.Length) && (forall k :: 0 <= k < ids.Length ==> ids[k] < adversary.val.Length)
      invariant AdaptiveRun(rest, ids[..], adversary.View()).0 == AdaptiveRun(t, old(ids[..]), old(adversary.View())).0
      invariant AdaptiveRun(rest, ids[..], adversary.View()).1.data
             == AdaptiveRun(t, old(ids[..]), old(adversary.View())).1.data
      decreases rest
    {
      match rest
      case Less(i, j, a, b) =>
        var answer := adversary.Less(ids[i], ids[j]);
        rest := if answer then a else b;
      case Swap(i, j, next) =>
        ghost var before := ids[..];
        ids[i], ids[j] := ids[j], ids[i];
        assert ids[..] == Exchange(before, i, j);
        rest := next;
    }
  }

  /** sortKiller, against any comparison sort. */
  method Kill(n: nat, t: Sorter) returns (val: seq<nat>)
    requires t.InRange(n)
    ensures val == Killed(n, t)
    ensures IsPermutation(val)
  {
    var adversary := new Adversary(n);
    var ids := new nat[n](i => i);
    assert ids[..] == Ids(n);
    SortIds(t, ids, adversary);
    FreezeRemaining(adversary);
    val := adversary.val[..];
    KilledIsPermutation(n, t);
  }

  method FreezeRemaining(adversary: Adversary)
    modifies adversary`nsolid, adversary.val
    ensures adversary.View() == FreezeRest(old(adversary.View()), 0)
  {
    for i := 0 to adversary.val.Length
      invariant FreezeRest(adversary.View(), i) == FreezeRest(old(adversary.View()), 0)
    {
      if adversary.val[i] == adversary.val.Length { adversary.Freeze(i); }
    }
  }
}
