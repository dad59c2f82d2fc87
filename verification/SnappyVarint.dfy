/** The padded length varint of the snappy vectors (tools/govectors/snappy.go, snappyPadVarint),
    against the reader Go's encoding/binary gives it (Uvarint). Bytes and uint64 values are
    numbers: `v & 0x7f` is v % 128, `b | 0x80` on seven bits is b + 128, `v >>= 7` is v / 128 and
    `byte(v)` is v % 256. */
module SnappyVarint {

  newtype byte = x: int | 0 <= x < 256

  const MAX_VARINT_LEN := 10

  datatype Varint = Value(v: nat, used: nat) | Truncated | Overflow

  /** Reads the varint at the head of buf, of which i bytes have been read before. */
  function Uvarint(buf: seq<byte>, i: nat): (r: Varint)
    ensures r.Value? ==> 1 <= r.used <= |buf| && i + r.used <= MAX_VARINT_LEN
  {
    if buf == [] then Truncated
    else if i >= MAX_VARINT_LEN then Overflow
    else if buf[0] < 128 then
      if i == MAX_VARINT_LEN - 1 && buf[0] > 1 then Overflow else Value(buf[0] as nat, 1)
    else
      match Uvarint(buf[1..], i + 1)
      case Value(v, used) => Value((buf[0] - 128) as nat + 128 * v, used + 1)
      case bad => bad
  }

  function Pow2(n: nat): (p: nat)
    ensures p >= 1
  {
    if n == 0 then 1 else 2 * Pow2(n - 1)
  }

  /** Seven more bits. */
  lemma Pow2Step(n: nat)
    ensures Pow2(n + 7) == 128 * Pow2(n)
  {
    assert Pow2(n + 7) == 2 * Pow2(n + 6) == 4 * Pow2(n + 5) == 8 * Pow2(n + 4);
    assert Pow2(n + 4) == 2 * Pow2(n + 3) == 4 * Pow2(n + 2) == 8 * Pow2(n + 1);
  }

  /** What is read fits in the bits that were read, and in the 64 bits of the result. */
  lemma {:induction false} ValueFits(buf: seq<byte>, i: nat)
    requires Uvarint(buf, i).Value?
    ensures Uvarint(buf, i).v < Pow2(7 * Uvarint(buf, i).used)
    ensures Uvarint(buf, i).v < Pow2(64 - 7 * i)
  {
    if buf[0] < 128 {
      Pow2Step(0);
      if i == MAX_VARINT_LEN - 1 { assert Pow2(1) == 2 * Pow2(0); } else { Pow2AtLeast128(64 - 7 * i); }
    } else {
      ValueFits(buf[1..], i + 1);
      Pow2Step(7 * Uvarint(buf[1..], i + 1).used);
      Pow2Step(64 - 7 * (i + 1));
    }
  }

  lemma Pow2AtLeast128(n: nat)
    requires n >= 7
    ensures Pow2(n) >= 128
  {
    Pow2Step(n - 7);
  }

  lemma {:induction false} Pow2Monotonic(m: nat, n: nat)
    requires m <= n
    ensures Pow2(m) <= Pow2(n)
  {
    if m < n { Pow2Monotonic(m, n - 1); }
  }

  /** The n bytes the padding loop writes for v. */
  function Padded(v: nat, n: nat): (out: seq<byte>)
    requires n >= 1
    ensures |out| == n
  {
    if n == 1 then [(v % 256) as byte] else [(v % 128 + 128) as byte] + Padded(v / 128, n - 1)
  }

  /** Seven bits less leave a value that fits in seven bits less. */
  lemma HighPartFits(v: nat, n: nat, i: nat)
    requires n >= 2 && i + n <= MAX_VARINT_LEN && v < Pow2(7 * n) && v < Pow2(64 - 7 * i)
    ensures v / 128 < Pow2(7 * (n - 1)) && v / 128 < Pow2(64 - 7 * (i + 1))
  {
    Pow2Step(7 * (n - 1));
    Pow2Step(64 - 7 * (i + 1));
    Shift(v, Pow2(7 * (n - 1)));
    Shift(v, Pow2(64 - 7 * (i + 1)));
  }

  /** Reading one byte of padding off the front. */
  lemma ReadsOneMore(v: nat, n: nat, i: nat, tail: seq<byte>)
    requires n >= 2 && i < MAX_VARINT_LEN
    requires Uvarint(Padded(v / 128, n - 1) + tail, i + 1) == Value(v / 128, n - 1)
    ensures Uvarint(Padded(v, n) + tail, i) == Value(v, n)
  {
    var buf := Padded(v, n) + tail;
    assert buf[1..] == Padded(v / 128, n - 1) + tail;
    assert buf[0] as nat == v % 128 + 128;
  }

  /** Those n bytes read back as v, whatever follows them. */
  lemma {:induction false} PaddedReads(v: nat, n: nat, i: nat, tail: seq<byte>)
    requires n >= 1 && i + n <= MAX_VARINT_LEN && v < Pow2(7 * n) && v < Pow2(64 - 7 * i)
    ensures Uvarint(Padded(v, n) + tail, i) == Value(v, n)
  {
    if n == 1 {
      LastByte(v, i);
      assert (Padded(v, n) + tail)[0] as nat == v;
    } else {
      HighPartFits(v, n, i);
      PaddedReads(v / 128, n - 1, i + 1, tail);
      ReadsOneMore(v, n, i, tail);
    }
  }

  lemma LastByte(v: nat, i: nat)
    requires i < MAX_VARINT_LEN && v < Pow2(7) && v < Pow2(64 - 7 * i)
    ensures v < 128 && (i == MAX_VARINT_LEN - 1 ==> v <= 1)
  {
    Pow2Step(0);
    assert Pow2(1) == 2 * Pow2(0);
  }

  lemma Shift(v: nat, p: nat)
    requires v < 128 * p
    ensures v / 128 < p && v == 128 * (v / 128) + v % 128
  {}

  /** They are the only n bytes that do: a varint is determined by its length and value. */
  lemma {:induction false} PaddedIsUnique(buf: seq<byte>, i: nat)
    requires Uvarint(buf, i).Value?
    ensures buf[..Uvarint(buf, i).used] == Padded(Uvarint(buf, i).v, Uvarint(buf, i).used)
  {
    var (v, used) := (Uvarint(buf, i).v, Uvarint(buf, i).used);
    if buf[0] >= 128 {
      PaddedIsUnique(buf[1..], i + 1);
      assert buf[..used] == [buf[0]] + buf[1..][..used - 1];
    }
  }

  datatype Result = Ok(out: seq<byte>) | Panic

  /** Whether the block and the length are ones snappyPadVarint accepts. */
  predicate GoodInput(block: seq<byte>, n: int) {
    Uvarint(block, 0).Value? && Uvarint(block, 0).used <= n <= MAX_VARINT_LEN
  }

  /** An n-byte varint of the same value, then the rest of the block. */
  ghost predicate IsPadding(block: seq<byte>, n: nat, out: seq<byte>)
    requires GoodInput(block, n)
  {
    && |out| == |block| - Uvarint(block, 0).used + n
    && Uvarint(out, 0) == Value(Uvarint(block, 0).v, n)
    && out[n..] == block[Uvarint(block, 0).used..]
  }

  /** The loop: seven bits at a time, the last byte without the continuation bit. */
  method WritePadded(value: nat, n: nat) returns (out: seq<byte>)
    requires n >= 1
    ensures out == Padded(value, n)
  {
    var v := value;
    out := [];
    for i := 0 to n - 1
      invariant |out| == i && out + Padded(v, n - i) == Padded(value, n)
    {
      out := out + [(v % 128 + 128) as byte];
      v := v / 128;
    }
    out := out + [(v % 256) as byte];
  }

  lemma PaddingIsGood(block: seq<byte>, n: nat)
    requires GoodInput(block, n)
    ensures IsPadding(block, n, Padded(Uvarint(block, 0).v, n) + block[Uvarint(block, 0).used..])
  {
    ValueFits(block, 0);
    Pow2Monotonic(7 * Uvarint(block, 0).used, 7 * n);
    PaddedReads(Uvarint(block, 0).v, n, 0, block[Uvarint(block, 0).used..]);
  }

  method PadVarint(block: seq<byte>, n: int) returns (r: Result)
    ensures r.Ok? <==> GoodInput(block, n)
    ensures r.Ok? ==> IsPadding(block, n, r.out)
  {
    var varint := Uvarint(block, 0);
    if !varint.Value? || n < varint.used || n > MAX_VARINT_LEN {
      return Panic;
    }
    var out := WritePadded(varint.v, n);
    PaddingIsGood(block, n);
    r := Ok(out + block[varint.used..]);
  }

  /** Padding in two steps is padding once: only the last length matters. */
  lemma PadTwice(once: seq<byte>, twice: seq<byte>, direct: seq<byte>, block: seq<byte>, m: nat, n: nat)
    requires GoodInput(block, m) && m <= n <= MAX_VARINT_LEN
    requires IsPadding(block, m, once) && IsPadding(once, n, twice) && IsPadding(block, n, direct)
    ensures twice == direct
  {
    PaddedIsUnique(twice, 0);
    PaddedIsUnique(direct, 0);
    assert twice == twice[..n] + twice[n..] && direct == direct[..n] + direct[n..];
  }
}
