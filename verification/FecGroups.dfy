/** Groups of FEC packets and what is left of them in a decoder's feed (tools/govectors/fec.go,
    groupsOf and dropPerGroup). */
module FecGroups {
  import opened Helpers
  import opened FecFeed

  const DATA_FLAG := 0xf1

  datatype Pkt = Pkt(seqid: nat, flag: nat, oob: bool)

  datatype Stream = Stream(ds: nat, ps: nat, pkts: seq<Pkt>) {
    predicate Valid() { ds + ps > 0 }
  }

  /** The group a sequence id belongs to, by the sender's shard size. */
  function Key(s: Stream, i: nat): nat
    requires s.Valid() && i < |s.pkts|
  {
    s.pkts[i].seqid / (s.ds + s.ps)
  }

  predicate InGroup(s: Stream, i: nat, key: nat)
    requires s.Valid()
  {
    i < |s.pkts| && !s.pkts[i].oob && Key(s, i) == key
  }

  // ---------------------------------------------------------------------------------------
  // groupsOf
  // ---------------------------------------------------------------------------------------

  /** The groups of the first n packets, in the order in which they appear. */
  function Keys(s: Stream, n: nat): seq<nat>
    requires s.Valid() && n <= |s.pkts|
  {
    if n == 0 then []
    else if s.pkts[n - 1].oob || Key(s, n - 1) in Keys(s, n - 1) then Keys(s, n - 1)
    else Keys(s, n - 1) + [Key(s, n - 1)]
  }

  /** The positions below n of one group's packets, in stream order. */
  function Members(s: Stream, n: nat, key: nat): seq<nat>
    requires s.Valid() && n <= |s.pkts|
  {
    if n == 0 then []
    else if InGroup(s, n - 1, key) then Members(s, n - 1, key) + [n - 1]
    else Members(s, n - 1, key)
  }

  predicate Distinct<T(==)>(a: seq<T>) { forall i, j :: 0 <= i < j < |a| ==> a[i] != a[j] }

  /** The groups are those that occur, each once. */
  lemma {:induction false} KeysExact(s: Stream, n: nat)
    requires s.Valid() && n <= |s.pkts|
    ensures Distinct(Keys(s, n))
    ensures forall i: nat :: i < n && !s.pkts[i].oob ==> Key(s, i) in Keys(s, n)
    ensures forall key :: key in Keys(s, n) ==> exists i :: 0 <= i < n && InGroup(s, i, key)
  {
    if n > 0 {
      KeysExact(s, n - 1);
      if !s.pkts[n - 1].oob { assert InGroup(s, n - 1, Key(s, n - 1)); }
    }
  }

  lemma {:induction false} MembersExact(s: Stream, n: nat, key: nat)
    requires s.Valid() && n <= |s.pkts|
    ensures Distinct(Members(s, n, key))
    ensures forall i: nat :: i in Members(s, n, key) <==> i < n && InGroup(s, i, key)
  {
    if n > 0 { MembersExact(s, n - 1, key); }
  }

  /** Position i is of group g, and no position up to it is of group h. */
  ghost predicate ComesFirst(s: Stream, i: nat, g: nat, h: nat)
    requires s.Valid()
  {
    InGroup(s, i, g) && forall j: nat :: j <= i ==> !InGroup(s, j, h)
  }

  /** Groups are listed in the order of their first packets. */
  lemma {:induction false} KeysInOrder(s: Stream, n: nat, a: nat, b: nat) returns (i: nat)
    requires s.Valid() && n <= |s.pkts| && a < b < |Keys(s, n)|
    ensures i < n && ComesFirst(s, i, Keys(s, n)[a], Keys(s, n)[b])
  {
    KeysExact(s, n - 1);
    if b < |Keys(s, n - 1)| {
      i := KeysInOrder(s, n - 1, a, b);
    } else {
      var key := Keys(s, n - 1)[a];
      assert key in Keys(s, n - 1);
      i :| 0 <= i < n - 1 && InGroup(s, i, key);
      forall j: nat | j <= i ensures !InGroup(s, j, Keys(s, n)[b]) {}
    }
  }

  /** A group's positions are listed in stream order. */
  lemma {:induction false} MembersInOrder(s: Stream, n: nat, key: nat)
    requires s.Valid() && n <= |s.pkts|
    ensures forall a, b :: 0 <= a < b < |Members(s, n, key)| ==> Members(s, n, key)[a] < Members(s, n, key)[b]
    ensures forall a :: 0 <= a < |Members(s, n, key)| ==> Members(s, n, key)[a] < n
  {
    if n > 0 { MembersInOrder(s, n - 1, key); }
  }

  lemma {:induction false} NoMembersYet(s: Stream, n: nat, key: nat)
    requires s.Valid() && n <= |s.pkts| && key !in Keys(s, n)
    ensures Members(s, n, key) == []
  {
    if n > 0 { NoMembersYet(s, n - 1, key); }
  }

  /** Every group's packets, group by group. */
  method GroupsOf(s: Stream) returns (out: seq<seq<nat>>)
    requires s.Valid()
    ensures |out| == |Keys(s, |s.pkts|)|
    ensures forall k :: 0 <= k < |out| ==> out[k] == Members(s, |s.pkts|, Keys(s, |s.pkts|)[k])
  {
    out := [];
    var pos: map<nat, nat> := map[];
    for i := 0 to |s.pkts|
      invariant |out| == |Keys(s, i)|
      invariant forall k :: 0 <= k < |out| ==> out[k] == Members(s, i, Keys(s, i)[k])
      invariant forall key :: key in pos <==> key in Keys(s, i)
      invariant forall key :: key in pos ==> pos[key] < |out| && Keys(s, i)[pos[key]] == key
    {
      KeysExact(s, i);
      if s.pkts[i].oob {
        continue;
      }
      var g := Key(s, i);
      if g !in pos {
        NoMembersYet(s, i, g);
        pos := pos[g := |out|];
        out := out + [[]];
      }
      var k := pos[g];
      out := out[k := out[k] + [i]];
    }
  }

  // ---------------------------------------------------------------------------------------
  // dropPerGroup
  // ---------------------------------------------------------------------------------------

  /** Fisher and Yates, as Go's Shuffle does it: position i - 1 is exchanged with one up to it, drawn,
      for i from the length down to 2. */
  function Shuffled(a: seq<nat>, i: nat, draws: Draws, k: nat): (r: seq<nat>)
    requires i <= |a|
    ensures |r| == |a|
    decreases i
  {
    if i <= 1 then a else Shuffled(Exchange(a, i - 1, IntN(draws, k, i)), i - 1, draws, k + 1)
  }

  lemma {:induction false} ShuffledIsPermutation(a: seq<nat>, i: nat, draws: Draws, k: nat)
    requires i <= |a|
    ensures multiset(Shuffled(a, i, draws, k)) == multiset(a)
    decreases i
  {
    if i > 1 {
      ExchangeIsPermutation(a, i - 1, IntN(draws, k, i));
      ShuffledIsPermutation(Exchange(a, i - 1, IntN(draws, k, i)), i - 1, draws, k + 1);
    }
  }

  ghost predicate ShufflesTo(a: seq<nat>, i: nat, draws: Draws, k: nat, end: seq<nat>)
    requires i <= |a|
  {
    Shuffled(a, i, draws, k) == end
  }

  lemma ShuffleUnrolls(a: seq<nat>, i: nat, draws: Draws, k: nat, end: seq<nat>)
    requires 1 < i <= |a|
    ensures ShufflesTo(a, i, draws, k, end) <==> ShufflesTo(Exchange(a, i - 1, IntN(draws, k, i)), i - 1, draws, k + 1, end)
  {
  }

  /** These draws, wherever they stand among the others, are the next ones. */
  ghost predicate NextDraws(draws: Draws, k: nat, d: seq<nat>) { forall x :: 0 <= x < |d| ==> draws(k + x) == d[x] }

  lemma Unplaced(a: seq<nat>, b: seq<nat>, i: nat) returns (j: nat)
    requires 0 < i <= |a| == |b| && a[i..] == b[i..] && multiset(a) == multiset(b)
    ensures j < i && a[j] == b[i - 1]
  {
    assert a == a[..i] + a[i..] && b == b[..i] + b[i..];
    assert multiset(a[..i]) == multiset(a) - multiset(a[i..]);
    assert multiset(b[..i]) == multiset(b) - multiset(b[i..]);
    assert b[..i][i - 1] in multiset(b[..i]);
    assert b[i - 1] in a[..i];
    j :| 0 <= j < i && a[..i][j] == b[i - 1];
  }

  /** Shuffled with these draws next, wherever they stand among the others, a becomes b. */
  ghost predicate Yields(a: seq<nat>, i: nat, d: seq<nat>, b: seq<nat>)
    requires i <= |a|
  {
    forall draws: Draws, k: nat {:trigger ShufflesTo(a, i, draws, k, b)} ::
      NextDraws(draws, k, d) ==> ShufflesTo(a, i, draws, k, b)
  }

  lemma YieldsOneMore(a: seq<nat>, i: nat, j: nat, rest: seq<nat>, b: seq<nat>)
    requires 1 < i <= |a| && j < i && Yields(Exchange(a, i - 1, j), i - 1, rest, b)
    ensures Yields(a, i, [j] + rest, b)
  {
    forall draws: Draws, k: nat | NextDraws(draws, k, [j] + rest) ensures ShufflesTo(a, i, draws, k, b) {
      FirstDraw(draws, k, j, rest);
      ShuffleUnrolls(a, i, draws, k, b);
      assert ShufflesTo(Exchange(a, i - 1, j), i - 1, draws, k + 1, b);
    }
  }

  lemma FirstDraw(draws: Draws, k: nat, j: nat, rest: seq<nat>)
    requires NextDraws(draws, k, [j] + rest)
    ensures draws(k) == j && NextDraws(draws, k + 1, rest)
  {
    assert draws(k + 0) == ([j] + rest)[0];
    forall x | 0 <= x < |rest| ensures draws(k + 1 + x) == rest[x] {
      assert draws(k + (1 + x)) == ([j] + rest)[1 + x];
    }
  }

  lemma PlacedOneMore(a: seq<nat>, b: seq<nat>, i: nat, j: nat)
    requires 0 < i <= |a| == |b| && a[i..] == b[i..] && multiset(a) == multiset(b)
    requires j < i && a[j] == b[i - 1]
    ensures var next := Exchange(a, i - 1, j); next[i - 1..] == b[i - 1..] && multiset(next) == multiset(b)
  {
    var next := Exchange(a, i - 1, j);
    ExchangeIsPermutation(a, i - 1, j);
    forall x | i - 1 <= x < |a| ensures next[x] == b[x] {
      if x >= i { assert a[x] == a[i..][x - i] && b[x] == b[i..][x - i]; }
    }
  }

  /** Any order of the same positions comes out for some draws, one for each position but the first, in range. */
  lemma {:induction false} EveryOrderIsDrawn(a: seq<nat>, b: seq<nat>, i: nat) returns (d: seq<nat>)
    requires i <= |a| == |b| && a[i..] == b[i..] && multiset(a) == multiset(b)
    ensures |d| == (if i == 0 then 0 else i - 1) && forall x :: 0 <= x < |d| ==> d[x] < i - x
    ensures Yields(a, i, d, b)
    decreases i
  {
    if i <= 1 {
      d := [];
      if i == 1 {
        var j := Unplaced(a, b, 1);
        PlacedOneMore(a, b, 1, j);
      }
      assert a == b;
    } else {
      var j := Unplaced(a, b, i);
      PlacedOneMore(a, b, i, j);
      var rest := EveryOrderIsDrawn(Exchange(a, i - 1, j), b, i - 1);
      YieldsOneMore(a, i, j, rest, b);
      d := [j] + rest;
    }
  }

  function DrawsOf(d: seq<nat>): Draws { (x: nat) => if x < |d| then d[x] else 0 }

  /** The shuffle can bring the positions into every order. */
  lemma EveryOrder(a: seq<nat>, b: seq<nat>)
    requires multiset(a) == multiset(b)
    ensures exists draws: Draws :: Shuffled(a, |a|, draws, 0) == b
  {
    assert |a| == |multiset(a)| && |b| == |multiset(b)|;
    var d := EveryOrderIsDrawn(a, b, |a|);
    assert NextDraws(DrawsOf(d), 0, d);
    assert ShufflesTo(a, |a|, DrawsOf(d), 0, b);
  }

  method Shuffle(a: array<nat>, draws: Draws, first: nat) returns (next: nat)
    modifies a
    ensures a[..] == Shuffled(old(a[..]), a.Length, draws, first)
    ensures next == first + if a.Length == 0 then 0 else a.Length - 1
  {
    next := first;
    ghost var end := Shuffled(a[..], a.Length, draws, first);
    var i: nat := a.Length;
    while i > 1
      invariant i <= a.Length && (i == 0 <==> a.Length == 0) && next == first + (a.Length - i)
      invariant ShufflesTo(a[..], i, draws, next, end)
    {
      ShuffleUnrolls(a[..], i, draws, next, end);
      SwapPositions(a, i - 1, IntN(draws, next, i));
      next := next + 1;
      i := i - 1;
    }
  }

  method SwapPositions(a: array<nat>, i: nat, j: nat)
    requires i < a.Length && j < a.Length
    modifies a
    ensures a[..] == Exchange(old(a[..]), i, j)
  {
    a[i], a[j] := a[j], a[i];
  }

  predicate Droppable(s: Stream, i: nat, dataOnly: bool)
    requires i < |s.pkts|
  {
    !dataOnly || s.pkts[i].flag == DATA_FLAG
  }

  /** The packets of a group that may be dropped. */
  function Candidates(s: Stream, g: seq<nat>, dataOnly: bool): seq<nat>
    requires forall k :: 0 <= k < |g| ==> g[k] < |s.pkts|
  {
    if g == [] then []
    else if Droppable(s, g[|g| - 1], dataOnly) then Candidates(s, g[..|g| - 1], dataOnly) + [g[|g| - 1]]
    else Candidates(s, g[..|g| - 1], dataOnly)
  }

  lemma {:induction false} CandidatesExact(s: Stream, g: seq<nat>, dataOnly: bool)
    requires Distinct(g) && (forall k :: 0 <= k < |g| ==> g[k] < |s.pkts|)
    ensures Distinct(Candidates(s, g, dataOnly))
    ensures forall i :: i in Candidates(s, g, dataOnly) <==> i in g && Droppable(s, i, dataOnly)
  {
    if g != [] {
      var head := g[..|g| - 1];
      CandidatesExact(s, head, dataOnly);
      assert g == head + [g[|g| - 1]];
      assert g[|g| - 1] !in head;
    }
  }

  /** A group's candidates, from the stream itself. */
  function GroupCandidates(s: Stream, key: nat, dataOnly: bool): seq<nat>
    requires s.Valid()
  {
    MembersExact(s, |s.pkts|, key);
    assert forall k :: 0 <= k < |Members(s, |s.pkts|, key)| ==>
             Members(s, |s.pkts|, key)[k] in Members(s, |s.pkts|, key);
    Candidates(s, Members(s, |s.pkts|, key), dataOnly)
  }

  /** The dropped packets of one group. */
  ghost function DroppedIn(s: Stream, drop: set<nat>, key: nat): set<nat>
    requires s.Valid()
  {
    set i | i in drop && InGroup(s, i, key)
  }

  /** Exactly n packets are dropped from every group, or all candidates of a smaller one, and
      nothing but candidates. */
  ghost predicate DropsPerGroup(s: Stream, keys: seq<nat>, drop: set<nat>, n: nat, dataOnly: bool)
    requires s.Valid()
  {
    && (forall i :: i in drop ==> i < |s.pkts| && !s.pkts[i].oob && Key(s, i) in keys && Droppable(s, i, dataOnly))
    && (forall key :: key in keys ==> |DroppedIn(s, drop, key)| == Min(n, |GroupCandidates(s, key, dataOnly)|))
  }

  function SetOf<T>(a: seq<T>): set<T> { set t | t in a }

  lemma {:induction false} DistinctCardinality<T>(a: seq<T>)
    requires Distinct(a)
    ensures |SetOf(a)| == |a|
  {
    if a != [] {
      var head := a[..|a| - 1];
      DistinctCardinality(head);
      assert a == head + [a[|a| - 1]];
      assert SetOf(a) == SetOf(head) + {a[|a| - 1]};
    }
  }

  lemma {:induction false} DistinctCounts<T>(a: seq<T>)
    requires Distinct(a)
    ensures forall t :: t in a ==> multiset(a)[t] == 1
  {
    if a != [] {
      var (head, last) := (a[..|a| - 1], a[|a| - 1]);
      DistinctCounts(head);
      assert a == head + [last] && last !in head;
    }
  }

  lemma CountsDistinct<T>(a: seq<T>)
    requires forall t :: t in a ==> multiset(a)[t] == 1
    ensures Distinct(a)
  {
    forall i, j | 0 <= i < j < |a| ensures a[i] != a[j] {
      assert a == a[..j] + [a[j]] + a[j + 1..];
      assert multiset(a) == multiset(a[..j]) + multiset{a[j]} + multiset(a[j + 1..]);
      assert a[..j][i] == a[i];
      assert a[i] in multiset(a[..j]);
      assert a[i] == a[j] ==> multiset(a)[a[i]] >= 2;
      assert a[i] in a;
    }
  }

  lemma PermutationStaysDistinct<T>(a: seq<T>, b: seq<T>)
    requires Distinct(a) && multiset(a) == multiset(b)
    ensures Distinct(b) && SetOf(a) == SetOf(b) && |a| == |b|
  {
    DistinctCounts(a);
    assert forall t :: t in a <==> t in multiset(a);
    assert forall t :: t in b <==> t in multiset(b);
    CountsDistinct(b);
    assert |a| == |multiset(a)| && |b| == |multiset(b)|;
  }

  /** The feed of what was kept. */
  function Kept(s: Stream, drop: set<nat>, n: nat): seq<FeedTok>
    requires n <= |s.pkts|
  {
    if n == 0 then []
    else if s.pkts[n - 1].oob || n - 1 in drop then Kept(s, drop, n - 1)
    else Kept(s, drop, n - 1) + [Tok(n - 1)]
  }

  lemma {:induction false} KeptExact(s: Stream, drop: set<nat>, n: nat)
    requires n <= |s.pkts|
    ensures forall t :: t in Kept(s, drop, n) <==>
              exists i: nat :: i < n && !s.pkts[i].oob && i !in drop && t == Tok(i)
    ensures forall a, b :: 0 <= a < b < |Kept(s, drop, n)| ==> Kept(s, drop, n)[a].idx < Kept(s, drop, n)[b].idx
    ensures forall a :: 0 <= a < |Kept(s, drop, n)| ==> Kept(s, drop, n)[a].idx < n
  {
    if n > 0 {
      KeptExact(s, drop, n - 1);
    }
  }

  /** What is drawn from one group's candidates lies in that group, and in no other. */
  lemma DropsStayInGroup(s: Stream, key: nat, drop: set<nat>, more: set<nat>, dataOnly: bool)
    requires s.Valid()
    requires forall i :: i in more ==> i in GroupCandidates(s, key, dataOnly)
    requires forall i :: i in drop ==> i < |s.pkts| && !s.pkts[i].oob && Key(s, i) != key
    ensures forall i :: i in more ==> i < |s.pkts| && !s.pkts[i].oob && Key(s, i) == key && Droppable(s, i, dataOnly)
    ensures DroppedIn(s, drop + more, key) == more
    ensures forall other :: other != key ==> DroppedIn(s, drop + more, other) == DroppedIn(s, drop, other)
  {
    var members := Members(s, |s.pkts|, key);
    MembersExact(s, |s.pkts|, key);
    assert forall k :: 0 <= k < |members| ==> members[k] in members;
    CandidatesExact(s, members, dataOnly);
  }

  /** One more group's drops leave the other groups' alone. */
  lemma DropGroup(s: Stream, keys: seq<nat>, key: nat, drop: set<nat>, more: set<nat>, n: nat, dataOnly: bool)
    requires s.Valid() && key !in keys && DropsPerGroup(s, keys, drop, n, dataOnly)
    requires forall i :: i in more ==> i in GroupCandidates(s, key, dataOnly)
    requires |more| == Min(n, |GroupCandidates(s, key, dataOnly)|)
    ensures DropsPerGroup(s, keys + [key], drop + more, n, dataOnly)
  {
    DropsStayInGroup(s, key, drop, more, dataOnly);
  }

  method ListCandidates(s: Stream, g: seq<nat>, dataOnly: bool) returns (list: seq<nat>)
    requires forall k :: 0 <= k < |g| ==> g[k] < |s.pkts|
    ensures list == Candidates(s, g, dataOnly)
  {
    list := [];
    for k := 0 to |g|
      invariant list == Candidates(s, g[..k], dataOnly)
    {
      assert g[..k + 1][..k] == g[..k];
      if Droppable(s, g[k], dataOnly) { list := list + [g[k]]; }
    }
    assert g[..|g|] == g;
  }

  /** The first n of some positions, once shuffled. */
  lemma TakenFrom(list: seq<nat>, shuffled: seq<nat>, n: nat)
    requires Distinct(list) && multiset(shuffled) == multiset(list) && n <= |list|
    ensures |shuffled| == |list| && |SetOf(shuffled[..n])| == n && forall i :: i in SetOf(shuffled[..n]) ==> i in list
  {
    PermutationStaysDistinct(list, shuffled);
    DistinctCardinality(shuffled[..n]);
    forall i | i in SetOf(shuffled[..n]) ensures i in list {
      assert i in SetOf(shuffled);
      assert i in SetOf(list);
    }
  }

  /** The packets drawn from one group: the first ones of its shuffled candidates. */
  method DropFrom(s: Stream, g: seq<nat>, n: nat, dataOnly: bool, draws: Draws, first: nat)
    returns (more: set<nat>, next: nat)
    requires Distinct(g) && (forall k :: 0 <= k < |g| ==> g[k] < |s.pkts|)
    ensures var cand := Candidates(s, g, dataOnly);
            && |more| == Min(n, |cand|) && (forall i :: i in more ==> i in cand)
            && more == SetOf(Shuffled(cand, |cand|, draws, first)[..|more|])
  {
    var list := ListCandidates(s, g, dataOnly);
    var cand := new nat[|list|](k requires 0 <= k < |list| => list[k]);
    assert cand[..] == list;
    next := Shuffle(cand, draws, first);
    CandidatesExact(s, g, dataOnly);
    ShuffledIsPermutation(list, |list|, draws, first);
    TakenFrom(list, cand[..], Min(n, |list|));
    more := SetOf(cand[..Min(n, |list|)]);
  }

  /** One turn of the first loop: one group's drops join the others. */
  method DropOneGroup(s: Stream, group: seq<nat>, ghost keys: seq<nat>, ghost key: nat, dropped: set<nat>,
                      n: nat, dataOnly: bool, draws: Draws, k: nat)
    returns (after: set<nat>, next: nat)
    requires s.Valid() && key !in keys && group == Members(s, |s.pkts|, key)
    requires DropsPerGroup(s, keys, dropped, n, dataOnly)
    ensures DropsPerGroup(s, keys + [key], after, n, dataOnly)
  {
    MembersExact(s, |s.pkts|, key);
    assert forall j :: 0 <= j < |group| ==> group[j] in group;
    var more: set<nat>;
    more, next := DropFrom(s, group, n, dataOnly, draws, k);
    DropGroup(s, keys, key, dropped, more, n, dataOnly);
    after := dropped + more;
  }

  /** The first half of dropPerGroup: which positions go, group by group. */
  method ChooseDrops(s: Stream, n: nat, dataOnly: bool, draws: Draws) returns (dropped: set<nat>)
    requires s.Valid()
    ensures DropsPerGroup(s, Keys(s, |s.pkts|), dropped, n, dataOnly)
  {
    var groups := GroupsOf(s);
    ghost var keys := Keys(s, |s.pkts|);
    KeysExact(s, |s.pkts|);
    dropped := {};
    var k := 0;
    for g := 0 to |groups|
      invariant DropsPerGroup(s, keys[..g], dropped, n, dataOnly)
    {
      dropped, k := DropOneGroup(s, groups[g], keys[..g], keys[g], dropped, n, dataOnly, draws, k);
      assert keys[..g + 1] == keys[..g] + [keys[g]];
    }
    assert keys[..|groups|] == keys;
  }

  /** The stream's packets in order, without n of every group or all candidates of a smaller one. */
  ghost predicate KeepsAllBut(s: Stream, n: nat, dataOnly: bool, kept: seq<FeedTok>)
    requires s.Valid()
  {
    exists drop :: DropsPerGroup(s, Keys(s, |s.pkts|), drop, n, dataOnly) && kept == Kept(s, drop, |s.pkts|)
  }

  /** Of the packets that are not out of band, only those of the groups' candidates can be missing: when only
      data may go, every packet without the data flag 0xf1 is kept. */
  lemma OnlyDataGoes(s: Stream, n: nat, kept: seq<FeedTok>, i: nat)
    requires s.Valid() && KeepsAllBut(s, n, true, kept)
    requires i < |s.pkts| && !s.pkts[i].oob && s.pkts[i].flag != 0xf1
    ensures Tok(i) in kept
  {
    var drop :| DropsPerGroup(s, Keys(s, |s.pkts|), drop, n, true) && kept == Kept(s, drop, |s.pkts|);
    KeptExact(s, drop, |s.pkts|);
  }

  /** As many of a group go as may, counted without the functions that choose them: n, or all its packets,
      of the data kind if only those may go. */
  lemma DropsAreCounted(s: Stream, n: nat, dataOnly: bool, drop: set<nat>, g: nat)
    requires s.Valid() && DropsPerGroup(s, Keys(s, |s.pkts|), drop, n, dataOnly) && g in Keys(s, |s.pkts|)
    ensures var may := set i: nat | i < |s.pkts| && !s.pkts[i].oob && s.pkts[i].seqid / (s.ds + s.ps) == g
                                    && (dataOnly ==> s.pkts[i].flag == 0xf1);
            |DroppedIn(s, drop, g)| == Min(n, |may|)
  {
    var may := set i: nat | i < |s.pkts| && !s.pkts[i].oob && s.pkts[i].seqid / (s.ds + s.ps) == g
                            && (dataOnly ==> s.pkts[i].flag == 0xf1);
    var members := Members(s, |s.pkts|, g);
    MembersExact(s, |s.pkts|, g);
    assert forall k :: 0 <= k < |members| ==> members[k] in members;
    CandidatesExact(s, members, dataOnly);
    DistinctCardinality(GroupCandidates(s, g, dataOnly));
    assert SetOf(GroupCandidates(s, g, dataOnly)) == may;
  }

  method DropPerGroup(s: Stream, n: nat, dataOnly: bool, draws: Draws) returns (out: seq<FeedTok>)
    requires s.Valid()
    ensures KeepsAllBut(s, n, dataOnly, out)
  {
    var dropped := ChooseDrops(s, n, dataOnly, draws);
    out := [];
    for i := 0 to |s.pkts|
      invariant out == Kept(s, dropped, i)
    {
      if !s.pkts[i].oob && i !in dropped { out := out + [Tok(i)]; }
    }
  }

  // ---------------------------------------------------------------------------------------
  // What the decoder can still recover
  // ---------------------------------------------------------------------------------------

  /** The transformers that may follow. */
  datatype Op =
    | Reordering(swaps: nat, window: nat, draws: Draws)
    | Moving(n: nat, late: nat, draws: Draws)
    | Duplicating(den: nat, far: nat, draws: Draws)

  /** The feed after one of them; None where Go's generator panics on an empty range. */
  function Apply(op: Op, f: seq<FeedTok>): Option<seq<FeedTok>> {
    match op
    case Reordering(swaps, window, draws) =>
      if swaps > 0 && (|f| < 2 || window == 0) then None else Some(Reordered(f, swaps, window, draws, 0))
    case Moving(n, late, draws) => Some(Moved(f, n, late, draws, 0))
    case Duplicating(den, far, draws) =>
      if den == 0 || far == 0 then None else Some(Duplicated(f, Decisions(|f|, draws, den, far).0))
  }

  function ApplyAll(ops: seq<Op>, f: seq<FeedTok>): Option<seq<FeedTok>> {
    if ops == [] then Some(f)
    else
      match Apply(ops[0], f)
      case None => None
      case Some(g) => ApplyAll(ops[1..], g)
  }

  ghost predicate SameTokens(f: seq<FeedTok>, g: seq<FeedTok>) { forall t :: t in f <==> t in g }

  lemma PermutationSameTokens(f: seq<FeedTok>, g: seq<FeedTok>)
    requires multiset(f) == multiset(g)
    ensures SameTokens(f, g)
  {
    assert forall t :: t in f <==> t in multiset(f);
    assert forall t :: t in g <==> t in multiset(g);
  }

  lemma DuplicatedSameTokens(f: seq<FeedTok>, delays: seq<Option<nat>>)
    requires |f| == |delays|
    ensures SameTokens(f, Duplicated(f, delays))
  {
    var (slots, g) := (Emission(delays), Duplicated(f, delays));
    EmissionFollows(delays);
    forall t ensures t in f <==> t in g {
      if k :| 0 <= k < |f| && f[k] == t {
        assert Original(k) in slots;
        var p :| 0 <= p < |slots| && slots[p] == Original(k);
        assert g[p] == t;
      }
      if p :| 0 <= p < |g| && g[p] == t {
        assert f[slots[p].pos] == t;
      }
    }
  }

  lemma ApplySameTokens(op: Op, f: seq<FeedTok>)
    requires Apply(op, f).Some?
    ensures SameTokens(f, Apply(op, f).value)
  {
    match op
    case Reordering(swaps, window, draws) =>
      ReorderedIsPermutation(f, swaps, window, draws, 0);
      PermutationSameTokens(f, Apply(op, f).value);
    case Moving(n, late, draws) =>
      MovedIsPermutation(f, n, late, draws, 0);
      PermutationSameTokens(f, Apply(op, f).value);
    case Duplicating(den, far, draws) =>
      DuplicatedSameTokens(f, Decisions(|f|, draws, den, far).0);
  }

  lemma {:induction false} ApplyAllSameTokens(ops: seq<Op>, f: seq<FeedTok>)
    requires ApplyAll(ops, f).Some?
    ensures SameTokens(f, ApplyAll(ops, f).value)
  {
    if ops != [] {
      ApplySameTokens(ops[0], f);
      ApplyAllSameTokens(ops[1..], Apply(ops[0], f).value);
    }
  }

  /** Every packet with a group position of its own: no two share a sequence id. */
  ghost predicate DistinctSeqids(s: Stream) {
    forall i, j :: 0 <= i < j < |s.pkts| && !s.pkts[i].oob && !s.pkts[j].oob ==> s.pkts[i].seqid != s.pkts[j].seqid
  }

  /** Sequence id q belongs to a packet of the stream, whole and not out of band: the one at position i. */
  predicate Carries(s: Stream, i: nat, q: nat) { i < |s.pkts| && !s.pkts[i].oob && s.pkts[i].seqid == q }

  /** The shards of group g are numbered by ds + ps consecutive sequence ids. */
  predicate OfGroup(s: Stream, g: nat, q: nat) { g * (s.ds + s.ps) <= q < g * (s.ds + s.ps) + s.ds + s.ps }

  /** Every one of them is in the stream. */
  ghost predicate Complete(s: Stream, g: nat) {
    forall q :: OfGroup(s, g, q) ==> exists i: nat :: Carries(s, i, q)
  }

  lemma GroupOfId(s: Stream, i: nat, g: nat)
    requires s.Valid() && i < |s.pkts| && !s.pkts[i].oob
    ensures InGroup(s, i, g) <==> OfGroup(s, g, s.pkts[i].seqid)
  {
    var q, size := s.pkts[i].seqid, s.ds + s.ps;
    assert q == q / size * size + q % size;
    if OfGroup(s, g, q) { DivModUnique(q, size, g, q - g * size); }
  }

  /** One of these positions carries the id. */
  ghost predicate Covered(s: Stream, at: set<nat>, q: nat) { exists i: nat :: i in at && Carries(s, i, q) }

  /** n consecutive ids, each the id of one of these positions, are no more than the positions. */
  lemma {:induction false} IdsNeedPositions(s: Stream, at: set<nat>, from: nat, n: nat)
    requires forall q: nat :: from <= q < from + n ==> Covered(s, at, q)
    ensures |at| >= n
  {
    if n > 0 {
      assert Covered(s, at, from + n - 1);
      var i: nat :| i in at && Carries(s, i, from + n - 1);
      forall q: nat | from <= q < from + n - 1 ensures Covered(s, at - {i}, q) {
        assert Covered(s, at, q);
        var j: nat :| j in at && Carries(s, j, q);
        assert j in at - {i};
      }
      IdsNeedPositions(s, at - {i}, from, n - 1);
    }
  }

  /** A complete group has at least ds + ps packets. */
  lemma CompleteIsFull(s: Stream, g: nat)
    requires s.Valid() && Complete(s, g)
    ensures |Members(s, |s.pkts|, g)| >= s.ds + s.ps
  {
    var members := Members(s, |s.pkts|, g);
    MembersExact(s, |s.pkts|, g);
    DistinctCardinality(members);
    var from := g * (s.ds + s.ps);
    forall q: nat | from <= q < from + (s.ds + s.ps) ensures Covered(s, SetOf(members), q) {
      assert OfGroup(s, g, q);
      var i: nat :| Carries(s, i, q);
      GroupOfId(s, i, g);
      assert i in SetOf(members);
    }
    IdsNeedPositions(s, SetOf(members), from, s.ds + s.ps);
  }

  /** A whole packet of the feed carries the id. */
  ghost predicate Survives(s: Stream, f: seq<FeedTok>, q: nat) { exists i: nat :: Carries(s, i, q) && Tok(i) in f }

  /** The shards of a group that whole packets of the feed carry. */
  ghost function Survivors(s: Stream, f: seq<FeedTok>, g: nat): set<nat>
    requires s.Valid()
  {
    set q: nat | g * (s.ds + s.ps) <= q < g * (s.ds + s.ps) + s.ds + s.ps && Survives(s, f, q)
  }

  lemma SeqidsOfPositions(s: Stream, at: set<nat>, seqids: set<nat>)
    requires DistinctSeqids(s)
    requires forall i :: i in at ==> i < |s.pkts| && !s.pkts[i].oob
    requires forall i :: i in at ==> s.pkts[i].seqid in seqids
    ensures |at| <= |seqids|
  {
    if at != {} {
      var i :| i in at;
      SeqidsOfPositions(s, at - {i}, seqids - {s.pkts[i].seqid});
    }
  }

  /** At least ds positions of a complete group are kept. */
  lemma PositionsKept(s: Stream, n: nat, dataOnly: bool, drop: set<nat>, key: nat) returns (left: set<nat>)
    requires s.Valid() && n <= s.ps && 0 < s.ds + s.ps <= |Members(s, |s.pkts|, key)|
    requires DropsPerGroup(s, Keys(s, |s.pkts|), drop, n, dataOnly)
    ensures |left| >= s.ds
    ensures forall i :: i in left ==> i < |s.pkts| && InGroup(s, i, key) && Tok(i) in Kept(s, drop, |s.pkts|)
  {
    var members := Members(s, |s.pkts|, key);
    var lost := DroppedIn(s, drop, key);
    KeptExact(s, drop, |s.pkts|);
    MembersExact(s, |s.pkts|, key);
    KeysExact(s, |s.pkts|);
    DistinctCardinality(members);
    assert |lost| <= n by {
      assert members[0] in members;
      assert key in Keys(s, |s.pkts|);
    }
    assert lost <= SetOf(members);
    left := SetOf(members) - lost;
    assert |left| == |members| - |lost|;
  }

  /** After dropping at most ps packets of every group, whatever is then reordered, delayed and
      duplicated, every group that was complete keeps at least ds distinct shards, and no packet
      comes in from outside the stream or back from the dropped ones. */
  lemma ShardsSurvive(s: Stream, n: nat, dataOnly: bool, kept: seq<FeedTok>, ops: seq<Op>, key: nat)
    requires s.Valid() && DistinctSeqids(s) && n <= s.ps
    requires KeepsAllBut(s, n, dataOnly, kept) && ApplyAll(ops, kept).Some? && Complete(s, key)
    ensures |Survivors(s, ApplyAll(ops, kept).value, key)| >= s.ds
    ensures forall t :: t in ApplyAll(ops, kept).value ==>
              t in kept && exists i: nat :: i < |s.pkts| && !s.pkts[i].oob && t == Tok(i)
  {
    var drop :| DropsPerGroup(s, Keys(s, |s.pkts|), drop, n, dataOnly) && kept == Kept(s, drop, |s.pkts|);
    var feed := ApplyAll(ops, kept).value;
    ApplyAllSameTokens(ops, kept);
    KeptExact(s, drop, |s.pkts|);
    CompleteIsFull(s, key);
    var left := PositionsKept(s, n, dataOnly, drop, key);
    forall i | i in left ensures s.pkts[i].seqid in Survivors(s, feed, key) {
      GroupOfId(s, i, key);
      assert Carries(s, i, s.pkts[i].seqid) && Tok(i) in feed;
    }
    SeqidsOfPositions(s, left, Survivors(s, feed, key));
  }
}
