/** The undisturbed FEC stream of the auto-tune vectors (tools/govectors/autotune.go,
    periodicSeqs): sequence ids that wrap at paws, the largest multiple of the group size that
    a uint32 can hold. */
module PeriodicSeqs {
  import opened Helpers

  newtype uint32 = x: int | 0 <= x < 0x1_0000_0000

  datatype PulseSample = PulseSample(seqid: uint32, bit: bool)

  /** The shard counts a case draws. */
  predicate Shards(ds: uint32, ps: uint32) { 1 <= ds <= 16 && 1 <= ps <= 8 }

  const MAX_SAMPLES: uint32 := 258

  function Paws(size: uint32): (paws: uint32)
    requires 0 < size <= 24
    ensures paws as int % size as int == 0
    ensures 0xffffffff - size as int < paws as int <= 0xffffffff
  {
    MultipleBelow(0xffffffff, size as int);
    (0xffffffff / size as int * size as int) as uint32
  }

  /** The kind of start the case draws: near zero, anywhere, or close to the wrap. */
  datatype Start = NearZero(draw: uint32) | Anywhere(draw: uint32) | NearWrap(draw: uint32)

  /** The draws a start can be built from. */
  predicate InDrawRange(start: Start, size: uint32)
    requires 0 < size <= 24
  {
    match start
    case NearZero(d) => d < 3 * size
    case Anywhere(d) => true
    case NearWrap(d) => d < 2 * MAX_SAMPLES
  }

  function StartSeq(start: Start, size: uint32): (seqid: uint32)
    requires 0 < size <= 24 && InDrawRange(start, size)
    ensures seqid < Paws(size)
  {
    match start
    case NearZero(d) => d
    case Anywhere(d) => d % Paws(size)
    case NearWrap(d) => Paws(size) - 1 - d
  }

  /** Where a stream starts: in its first three groups, anywhere, or so close to the wrap that the
      sample d + 1 positions on is the first with id 0. */
  lemma StartsAsDrawn(start: Start, size: uint32)
    requires 0 < size <= 24 && InDrawRange(start, size)
    ensures start.NearZero? ==> StartSeq(start, size) == start.draw && start.draw as int < 3 * size as int
    ensures start.Anywhere? ==> (start.draw as int - StartSeq(start, size) as int) % Paws(size) as int == 0
    ensures start.NearWrap? ==> StartSeq(start, size) as int + start.draw as int + 1 == Paws(size) as int
    ensures start.NearWrap? ==> start.draw as int < 2 * 258
  {
    if start.Anywhere? { MultipleBelow(start.draw as nat, Paws(size) as int); }
  }

  /** Position i of the stream, counted from a group boundary without wrapping. */
  ghost predicate IsDataPosition(i: nat, ds: nat, size: nat)
    requires 0 < size
  {
    i % size < ds
  }

  /** The sample at stream position i: its id wraps at paws, its bit never notices. */
  ghost predicate IsSample(p: PulseSample, i: nat, ds: uint32, ps: uint32)
    requires Shards(ds, ps)
  {
    && p.seqid as int == i % Paws(ds + ps) as int
    && (p.bit <==> IsDataPosition(i, ds as nat, (ds + ps) as nat))
  }

  lemma NextSample(seqid: uint32, i: nat, ds: uint32, ps: uint32)
    requires Shards(ds, ps) && seqid as int == i % Paws(ds + ps) as int
    ensures IsSample(PulseSample(seqid, seqid % (ds + ps) < ds), i, ds, ps)
    ensures (seqid as int + 1) % Paws(ds + ps) as int == (i + 1) % Paws(ds + ps) as int
  {
    ModOfMultiple(i, Paws(ds + ps) as int, (ds + ps) as int);
    ModSuccessor(i, Paws(ds + ps) as int);
  }

  method PeriodicSeqs(n: nat, ds: uint32, ps: uint32, start: Start) returns (out: seq<PulseSample>)
    requires Shards(ds, ps) && InDrawRange(start, ds + ps)
    ensures |out| == n
    ensures forall i :: 0 <= i < n ==> IsSample(out[i], StartSeq(start, ds + ps) as nat + i, ds, ps)
    ensures forall from: nat {:trigger WindowBalanced(out, from, ds, ps)} ::
              from + (ds + ps) as nat <= n ==> WindowBalanced(out, from, ds, ps)
  {
    var samples := new PulseSample[n](_ => PulseSample(0, false));
    var paws := Paws(ds + ps);
    var seqid := StartSeq(start, ds + ps);
    ghost var first := seqid as nat;
    DivModUnique(first, paws as int, 0, first);
    for i := 0 to n
      invariant seqid as int == (first + i) % paws as int
      invariant forall k :: 0 <= k < i ==> IsSample(samples[k], first + k, ds, ps)
    {
      NextSample(seqid, first + i, ds, ps);
      samples[i] := PulseSample(seqid, seqid % (ds + ps) < ds);
      seqid := (seqid + 1) % paws;
    }
    out := samples[..];
    forall from: nat | from + (ds + ps) as nat <= n
      ensures WindowBalanced(out, from, ds, ps)
    {
      DataBitsPerWindow(out, first, from, ds, ps);
    }
  }

  lemma MultipleBelow(x: nat, m: int)
    requires m > 0
    ensures x / m * m == x - x % m
    ensures (x / m * m) % m == 0
  {
    DivModUnique(x / m * m, m, x / m, 0);
  }

  lemma ModOfMultiple(x: nat, paws: int, size: int)
    requires size > 0 && paws > 0 && paws % size == 0
    ensures (x % paws) % size == x % size
  {
    var k, j, r := paws / size, x / paws, x % paws;
    assert x == (j * k) * size + r by { assert j * paws == (j * k) * size; }
    assert x == (j * k + r / size) * size + r % size;
    DivModUnique(x, size, j * k + r / size, r % size);
  }

  lemma ModSuccessor(x: nat, m: int)
    requires m > 1
    ensures (x + 1) % m == (x % m + 1) % m
  {
    Successor(x, m);
    Successor(x % m, m);
    DivModUnique(x % m, m, 0, x % m);
  }

  /** The number of data positions among positions from, ..., from + count - 1. */
  ghost function DataPositions(from: nat, count: nat, ds: nat, size: nat): nat
    requires 0 < size
  {
    if count == 0 then 0
    else DataPositions(from, count - 1, ds, size) + if IsDataPosition(from + count - 1, ds, size) then 1 else 0
  }

  /** The first `count` positions from a group boundary: data first. */
  lemma {:induction false} DataFromBoundary(count: nat, ds: nat, size: nat)
    requires 0 < size && ds <= size && count <= size
    ensures DataPositions(0, count, ds, size) == if count <= ds then count else ds
  {
    if count > 0 {
      DataFromBoundary(count - 1, ds, size);
      DivModUnique(count - 1, size, 0, count - 1);
    }
  }

  /** Sliding the window by one lets go of one position and takes in one of the same kind. */
  lemma {:induction false} DataShift(from: nat, count: nat, ds: nat, size: nat)
    requires 0 < size && count > 0
    ensures DataPositions(from, count, ds, size)
         == DataPositions(from + 1, count - 1, ds, size) + if IsDataPosition(from, ds, size) then 1 else 0
  {
    if count > 1 { DataShift(from, count - 1, ds, size); }
  }

  lemma {:induction false} DataPerWindow(from: nat, ds: nat, size: nat)
    requires 0 < size && ds <= size
    ensures DataPositions(from, size, ds, size) == ds
  {
    if from == 0 {
      DataFromBoundary(size, ds, size);
    } else {
      DataPerWindow(from - 1, ds, size);
      DataShift(from - 1, size, ds, size);
      DivModUnique(from - 1 + size, size, (from - 1) / size + 1, (from - 1) % size);
    }
  }

  /** The number of data bits among samples from, ..., from + count - 1. */
  ghost function DataBits(out: seq<PulseSample>, from: nat, count: nat): nat
    requires from + count <= |out|
  {
    if count == 0 then 0 else DataBits(out, from, count - 1) + if out[from + count - 1].bit then 1 else 0
  }

  lemma {:induction false} DataBitsArePositions(out: seq<PulseSample>, first: nat, from: nat, count: nat, ds: nat, size: nat)
    requires 0 < size && from + count <= |out|
    requires forall i :: 0 <= i < |out| ==> (out[i].bit <==> IsDataPosition(first + i, ds, size))
    ensures DataBits(out, from, count) == DataPositions(first + from, count, ds, size)
  {
    if count > 0 { DataBitsArePositions(out, first, from, count - 1, ds, size); }
  }

  /** The group-size window that starts at sample `from` holds exactly ds data bits. */
  ghost predicate WindowBalanced(out: seq<PulseSample>, from: nat, ds: uint32, ps: uint32)
    requires Shards(ds, ps) && from + (ds + ps) as nat <= |out|
  {
    DataBits(out, from, (ds + ps) as nat) == ds as nat
  }

  /** A stream that starts close to the wrap counts up to paws - 1 in d samples and goes on from 0. */
  lemma NearWrapCrosses(out: seq<PulseSample>, d: uint32, i: nat, ds: uint32, ps: uint32)
    requires Shards(ds, ps) && InDrawRange(NearWrap(d), ds + ps) && i < |out| && i <= d as nat + 1
    requires forall k :: 0 <= k < |out| ==> IsSample(out[k], StartSeq(NearWrap(d), ds + ps) as nat + k, ds, ps)
    ensures out[i].seqid as int == if i <= d as nat then Paws(ds + ps) as int - 1 - (d as int - i) else 0
  {
    var paws, first := Paws(ds + ps) as int, StartSeq(NearWrap(d), ds + ps) as nat;
    StartsAsDrawn(NearWrap(d), ds + ps);
    if i <= d as nat { DivModUnique(first + i, paws, 0, first + i); } else { DivModUnique(first + i, paws, 1, 0); }
  }

  /** Any ds + ps consecutive samples hold exactly ds data bits, across the wrap as elsewhere. */
  lemma DataBitsPerWindow(out: seq<PulseSample>, first: nat, from: nat, ds: uint32, ps: uint32)
    requires Shards(ds, ps) && from + (ds + ps) as nat <= |out|
    requires forall i :: 0 <= i < |out| ==> IsSample(out[i], first + i, ds, ps)
    ensures WindowBalanced(out, from, ds, ps)
  {
    DataBitsArePositions(out, first, from, (ds + ps) as nat, ds as nat, (ds + ps) as nat);
    DataPerWindow(first + from, ds as nat, (ds + ps) as nat);
  }
}
