/**
 * The delivery queue of the trace simulator: container/heap over a slice of deliveries, ordered
 * by due time and then by sequence number. Sequence numbers are not unique, so the order is total
 * only up to ties. The slice is a sequence; the sift loops are proved against two recursive
 * functions, and the heap, permutation and minimum properties are proved about those.
 */
module DeliveryHeap {
  import opened Helpers

  newtype byte = x: int | 0 <= x < 256

  type Packet = seq<byte>

  datatype Side = A | B {
    function Peer(): Side { if this == A then B else A }
  }

  /** Where a queued packet comes from: output number `out` of the sender's op `op`, cut or whole,
    * or made up by the simulator. */
  datatype Origin = Sent(op: nat, out: nat, cut: Option<nat>) | Crafted

  datatype Delivery = Delivery(at: nat, num: nat, to: Side, origin: Origin, data: Packet, fec: bool)

  predicate Less(x: Delivery, y: Delivery) { if x.at != y.at then x.at < y.at else x.num < y.num }

  function Parent(j: nat): nat
    requires j > 0
  {
    (j - 1) / 2
  }

  /** No entry of the first `n` is before its parent. */
  ghost predicate HeapTo(q: seq<Delivery>, n: nat)
    requires n <= |q|
  {
    forall j :: 0 < j < n ==> !Less(q[j], q[Parent(j)])
  }

  ghost predicate IsHeap(q: seq<Delivery>) { HeapTo(q, |q|) }

  /** x is an entry that no entry is before. */
  ghost predicate IsLeast(x: Delivery, q: seq<Delivery>) { forall d :: d in q ==> !Less(d, x) }

  function Swap(q: seq<Delivery>, i: nat, j: nat): (r: seq<Delivery>)
    requires i < |q| && j < |q|
    ensures |r| == |q| && multiset(r) == multiset(q)
    ensures r[i] == q[j] && r[j] == q[i] && forall k :: 0 <= k < |q| && k != i && k != j ==> r[k] == q[k]
  {
    q[i := q[j]][j := q[i]]
  }

  function SiftUp(q: seq<Delivery>, j: nat): (r: seq<Delivery>)
    requires j < |q|
    ensures |r| == |q| && multiset(r) == multiset(q)
    decreases j
  {
    if j == 0 || !Less(q[j], q[Parent(j)]) then q else SiftUp(Swap(q, Parent(j), j), Parent(j))
  }

  /** The child that heap.down compares with: the left one unless the right one is before it. */
  function Child(q: seq<Delivery>, i: nat, n: nat): (j: nat)
    requires n <= |q| && 2 * i + 1 < n
    ensures i < j < n && Parent(j) == i
    ensures forall k :: 0 < k < n && Parent(k) == i ==> !Less(q[k], q[j])
  {
    if 2 * i + 2 < n && Less(q[2 * i + 2], q[2 * i + 1]) then 2 * i + 2 else 2 * i + 1
  }

  function SiftDown(q: seq<Delivery>, i: nat, n: nat): (r: seq<Delivery>)
    requires n <= |q|
    ensures |r| == |q| && multiset(r) == multiset(q) && r[n..] == q[n..]
    decreases n - i
  {
    if 2 * i + 1 >= n || !Less(q[Child(q, i, n)], q[i]) then q
    else
      var j := Child(q, i, n);
      SiftDown(Swap(q, i, j), j, n)
  }

  function Pushed(q: seq<Delivery>, d: Delivery): (r: seq<Delivery>)
    ensures multiset(r) == multiset(q) + multiset{d} && |r| == |q| + 1
  {
    SiftUp(q + [d], |q|)
  }

  function Popped(q: seq<Delivery>): (r: seq<Delivery>)
    requires q != []
    ensures |r| == |q| - 1
  {
    SiftDown(Swap(q, 0, |q| - 1), 0, |q| - 1)[..|q| - 1]
  }

  lemma {:induction false} RootIsLeast(q: seq<Delivery>)
    requires IsHeap(q) && q != []
    ensures IsLeast(q[0], q)
  {
    for k := 0 to |q|
      invariant forall i :: 0 <= i < k ==> !Less(q[i], q[0])
    {
      if k > 0 { assert Parent(k) < k; }
    }
  }

  /** So the root is due first, and of those due with it has the smallest number. */
  lemma RootComesFirst(q: seq<Delivery>)
    requires IsHeap(q) && q != []
    ensures forall d :: d in q ==> q[0].at < d.at || (q[0].at == d.at && q[0].num <= d.num)
  {
    RootIsLeast(q);
  }

  lemma {:induction false} SiftUpMakesHeap(q: seq<Delivery>, j: nat)
    requires j < |q|
    requires forall k :: 0 < k < |q| && k != j ==> !Less(q[k], q[Parent(k)])
    requires forall k :: 0 < k < |q| && Parent(k) == j && j > 0 ==> !Less(q[k], q[Parent(j)])
    ensures IsHeap(SiftUp(q, j))
    decreases j
  {
    if j > 0 && Less(q[j], q[Parent(j)]) {
      SiftUpMakesHeap(Swap(q, Parent(j), j), Parent(j));
    }
  }

  lemma {:induction false} SiftDownMakesHeap(q: seq<Delivery>, i: nat, n: nat)
    requires n <= |q|
    requires forall k :: 0 < k < n && Parent(k) != i ==> !Less(q[k], q[Parent(k)])
    requires forall k :: 0 < k < n && Parent(k) == i && i > 0 ==> !Less(q[k], q[Parent(i)])
    ensures HeapTo(SiftDown(q, i, n), n)
    decreases n - i
  {
    if 2 * i + 1 < n && Less(q[Child(q, i, n)], q[i]) {
      var j := Child(q, i, n);
      var r := Swap(q, i, j);
      SiftDownMakesHeap(r, j, n);
    }
  }

  /** heap.Push keeps the heap and adds exactly the one delivery. */
  lemma PushKeepsHeap(q: seq<Delivery>, d: Delivery)
    requires IsHeap(q)
    ensures IsHeap(Pushed(q, d))
    ensures forall x :: x in Pushed(q, d) <==> x in q || x == d
  {
    SiftUpMakesHeap(q + [d], |q|);
    var r := Pushed(q, d);
    forall x ensures x in r <==> x in q || x == d {
      assert x in r <==> x in multiset(r);
      assert x in q <==> x in multiset(q);
    }
  }

  lemma DropLast<T>(r: seq<T>)
    requires r != []
    ensures r == r[..|r| - 1] + [r[|r| - 1]]
    ensures multiset(r) == multiset(r[..|r| - 1]) + multiset{r[|r| - 1]}
  {
    assert r == r[..|r| - 1] + [r[|r| - 1]];
  }

  lemma PopSplits(q: seq<Delivery>)
    requires q != []
    ensures SiftDown(Swap(q, 0, |q| - 1), 0, |q| - 1) == Popped(q) + [q[0]]
    ensures multiset(Popped(q)) + multiset{q[0]} == multiset(q)
  {
    var n := |q| - 1;
    var top := Swap(q, 0, n);
    LastStays(top, n);
    DropLast(SiftDown(top, 0, n));
  }

  lemma LastStays(q: seq<Delivery>, n: nat)
    requires n + 1 == |q|
    ensures SiftDown(q, 0, n)[n] == q[n]
  {
    assert SiftDown(q, 0, n)[n] == SiftDown(q, 0, n)[n..][0] == q[n..][0];
  }

  /** heap.Pop takes an entry that no other is before, keeps the heap, and loses nothing else. */
  lemma PopKeepsHeap(q: seq<Delivery>)
    requires IsHeap(q) && q != []
    ensures IsHeap(Popped(q)) && IsLeast(q[0], q)
    ensures multiset(Popped(q)) + multiset{q[0]} == multiset(q)
    ensures forall x :: x in Popped(q) ==> x in q
  {
    RootIsLeast(q);
    PopSplits(q);
    PoppedIsHeap(q);
    forall x | x in Popped(q) ensures x in q {
      assert x in multiset(Popped(q));
      assert x in multiset(q);
    }
  }

  lemma PrefixIsHeap(r: seq<Delivery>, n: nat)
    requires n <= |r| && HeapTo(r, n)
    ensures IsHeap(r[..n])
  {
    forall j | 0 < j < n ensures !Less(r[..n][j], r[..n][Parent(j)]) {
      assert r[..n][j] == r[j] && r[..n][Parent(j)] == r[Parent(j)];
    }
  }

  lemma PoppedIsHeap(q: seq<Delivery>)
    requires IsHeap(q) && q != []
    ensures IsHeap(Popped(q))
  {
    var n := |q| - 1;
    var top := Swap(q, 0, n);
    forall k | 0 < k < n && Parent(k) != 0 ensures !Less(top[k], top[Parent(k)]) {
      assert top[k] == q[k] && top[Parent(k)] == q[Parent(k)];
    }
    SiftDownMakesHeap(top, 0, n);
    PrefixIsHeap(SiftDown(top, 0, n), n);
  }

  /** heap.Push: append, then the loop of heap.up. */
  method Push(q: seq<Delivery>, d: Delivery) returns (r: seq<Delivery>)
    ensures r == Pushed(q, d)
  {
    r := q + [d];
    var j: nat := |q|;
    while true
      invariant |r| == |q| + 1 && j < |r| && SiftUp(r, j) == Pushed(q, d)
      decreases j
    {
      if j == 0 || !Less(r[j], r[Parent(j)]) { break; }
      r := Swap(r, Parent(j), j);
      j := Parent(j);
    }
  }

  /** heap.Pop: swap the root to the end, run the loop of heap.down, drop the end. */
  method Pop(q: seq<Delivery>) returns (d: Delivery, r: seq<Delivery>)
    requires q != []
    ensures d == q[0] && r == Popped(q)
  {
    PopSplits(q);
    var n: nat := |q| - 1;
    r := Down(Swap(q, 0, n), n);
    d, r := r[n], r[..n];
  }

  method Down(q: seq<Delivery>, n: nat) returns (r: seq<Delivery>)
    requires n <= |q|
    ensures r == SiftDown(q, 0, n)
  {
    r := q;
    var i: nat := 0;
    while true
      invariant |r| == |q| && SiftDown(r, i, n) == SiftDown(q, 0, n)
      decreases n - i
    {
      var j: nat := 2 * i + 1;
      if j >= n { break; }
      if j + 1 < n && Less(r[j + 1], r[j]) { j := j + 1; }
      assert j == Child(r, i, n);
      if !Less(r[j], r[i]) { break; }
      r := Swap(r, i, j);
      i := j;
    }
  }
}
