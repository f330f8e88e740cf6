/** internal/nonrandom_reader.go: the deterministic byte source that stands in for
    randomness in tests. */
module Generator {
  newtype byte = x: int | 0 <= x < 256

  /** Byte addition, which wraps around. */
  function Next(b: byte): byte {
    if b == 255 then 0 else b + 1
  }

  /** The `i`-th byte of the sequence that starts with `start`. */
  function At(start: byte, i: nat): byte {
    ((start as int + i + i / 256) % 256) as byte
  }

  function Bytes(start: byte, from: nat, count: nat): (s: seq<byte>)
    ensures |s| == count && forall j :: 0 <= j < count ==> s[j] == At(start, from + j)
  {
    seq(count, j requires 0 <= j < count => At(start, from + j))
  }

  /** The quotient and the remainder by 256 are what a decomposition says they are. */
  lemma DivModIs(a: int, q: int, r: int)
    requires a == 256 * q + r && 0 <= r < 256
    ensures a / 256 == q && a % 256 == r
  {
  }

  lemma Div16Is(a: int, q: int, r: int)
    requires a == 16 * q + r && 0 <= r < 16
    ensures a / 16 == q && a % 16 == r
  {
  }

  lemma CongruentIs(a: int, b: int)
    ensures a % 256 == b % 256 <==> (a - b) % 256 == 0
  {
    if (a - b) % 256 == 0 {
      DivModIs(a, b / 256 + (a - b) / 256, b % 256);
    }
  }

  /** What one turn of the loop does to the two counters. */
  function Step(nextVal: byte, counter: byte): (byte, byte) {
    var c := Next(counter);
    (if c == 0 then Next(Next(nextVal)) else Next(nextVal), c)
  }

  function Counters(start: byte, i: nat): (byte, byte) {
    (At(start, i), (i % 256) as byte)
  }

  lemma CountersStep(start: byte, i: nat)
    ensures Counters(start, i + 1) == Step(At(start, i), (i % 256) as byte)
  {
    var v := start as int + i + i / 256;
    if (i + 1) % 256 == 0 {
      DivModIs(i + 1, i / 256 + 1, 0);
      NextIs(v);
      NextIs(v + 1);
    } else {
      DivModIs(i + 1, i / 256, i % 256 + 1);
      NextIs(v);
    }
  }

  lemma NextIs(v: nat)
    ensures Next((v % 256) as byte) as int == (v + 1) % 256
  {
    if v % 256 == 255 { DivModIs(v + 1, v / 256 + 1, 0); } else { DivModIs(v + 1, v / 256, v % 256 + 1); }
  }

  lemma BytesStep(start: byte, from: nat, count: nat)
    ensures Bytes(start, from, count + 1) == Bytes(start, from, count) + [At(start, from + count)]
  {
  }

  lemma BytesConcat(start: byte, from: nat, m: nat, n: nat)
    ensures Bytes(start, from, m + n) == Bytes(start, from, m) + Bytes(start, from + m, n)
  {
    var whole, rest := Bytes(start, from, m + n), Bytes(start, from + m, n);
    assert forall j :: 0 <= j < n ==> rest[j] == At(start, from + (m + j));
    assert forall j :: m <= j < m + n ==> whole[j] == rest[j - m];
  }

  function Total(bufs: seq<array<byte>>): nat {
    if bufs == [] then 0 else Total(bufs[..|bufs| - 1]) + bufs[|bufs| - 1].Length
  }

  /** `produced` counts the bytes read so far. */
  class NonRandomReader {
    const start: byte
    var nextVal: byte
    var counter: byte
    ghost var produced: nat

    ghost predicate Valid()
      reads this
    {
      (nextVal, counter) == Counters(start, produced)
    }

    constructor (startVal: byte)
      ensures Valid() && start == startVal && produced == 0
    {
      start, nextVal, counter, produced := startVal, startVal, 0, 0;
    }

    method Read(buf: array<byte>) returns (count: nat)
      requires Valid()
      modifies this`nextVal, this`counter, this`produced, buf
      ensures Valid() && count == buf.Length && produced == old(produced) + count
      ensures buf[..] == Bytes(start, old(produced), count)
    {
      count := buf.Length;
      for i := 0 to count
        invariant Valid() && produced == old(produced) + i
        invariant buf[..i] == Bytes(start, old(produced), i)
      {
        CountersStep(start, produced);
        BytesStep(start, old(produced), i);
        buf[i] := nextVal;
        nextVal := Next(nextVal);
        counter := Next(counter);
        if counter == 0 {
          nextVal := Next(nextVal);
        }
        produced := produced + 1;
        assert buf[..i + 1] == buf[..i] + [buf[i]];
      }
      assert buf[..] == buf[..count];
    }

    /** Successive reads into buffers of any lengths, the same one or different ones, deliver
        together what one read into a buffer of the total length delivers. */
    method ReadInPieces(bufs: seq<array<byte>>) returns (all: seq<byte>)
      requires Valid()
      modifies this`nextVal, this`counter, this`produced, bufs
      ensures Valid() && produced == old(produced) + Total(bufs)
      ensures all == Bytes(start, old(produced), Total(bufs))
    {
      all := [];
      for i := 0 to |bufs|
        invariant Valid() && produced == old(produced) + Total(bufs[..i])
        invariant all == Bytes(start, old(produced), Total(bufs[..i]))
      {
        BytesConcat(start, old(produced), Total(bufs[..i]), bufs[i].Length);
        assert bufs[..i + 1][..i] == bufs[..i];
        var count := Read(bufs[i]);
        all := all + bufs[i][..count];
      }
      assert bufs[..|bufs|] == bufs;
    }
  }

  /** The sequence, set by set: byte `j` of set `m`, counting both from 0, is the start value
      plus `m` plus `j`, modulo 256. */
  lemma SetsOfBytes(start: byte, m: nat, j: nat)
    requires j < 256
    ensures At(start, 256 * m + j) as int == (start as int + m + j) % 256
    ensures At(start, 0) == start && At(start, 256) == Next(start)
  {
    DivModIs(256 * m + j, m, j);
    var v := start as int + m + j;
    DivModIs(256 * m + v, m + v / 256, v % 256);
    DivModIs(256, 1, 0);
    DivModIs(start as int, 0, start as int);
    NextIs(start as int);
    DivModIs(start as int + 257 - 256, (start as int + 1) / 256, (start as int + 1) % 256);
    DivModIs(start as int + 257, 1 + (start as int + 1) / 256, (start as int + 1) % 256);
  }

  /** A new reader's first byte is its start value. */
  method FirstByteRead(startVal: byte) returns (b: byte)
    ensures b == startVal
  {
    var reader := new NonRandomReader(startVal);
    var buf := new byte[1];
    var count := reader.Read(buf);
    SetsOfBytes(startVal, 0, 0);
    assert buf[..][0] == At(startVal, 0);
    return buf[0];
  }

  /** `p` is a period of the sequence. */
  ghost predicate Period(start: byte, p: nat) {
    forall i: nat :: At(start, i + p) == At(start, i)
  }

  lemma CongruentBytes(start: byte, i: nat, j: nat)
    ensures At(start, i) == At(start, j) <==> (i + i / 256 - j - j / 256) % 256 == 0
  {
    CongruentIs(start as int + i + i / 256, start as int + j + j / 256);
  }

  /** The sequence repeats after 65536 bytes, and its periods are exactly the multiples. */
  lemma ExactPeriod(start: byte, p: nat)
    ensures Period(start, p) <==> p % 65536 == 0
  {
    if p % 65536 == 0 {
      forall i: nat ensures At(start, i + p) == At(start, i) { Repeats(start, i, p / 65536); }
    }
    if Period(start, p) { PeriodIsMultiple(start, p); }
  }

  /** A period shows at the first byte, and at the first that ends a set with the shift. */
  lemma PeriodIsMultiple(start: byte, p: nat)
    requires Period(start, p)
    ensures p % 65536 == 0
  {
    assert At(start, 0 + p) == At(start, 0);
    CongruentBytes(start, p, 0);
    var a := p / 256;
    CongruentIs(p + a + 1, p + a);
    if p % 256 != 0 { PeriodIsAligned(start, p); }
    assert p == 256 * a;
    CongruentIs(256 * a + a, a);
  }

  lemma PeriodIsAligned(start: byte, p: nat)
    requires Period(start, p) && p % 256 != 0
    ensures (p + p / 256 + 1) % 256 == 0
  {
    var i := 256 - p % 256;
    DivModIs(i + p, p / 256 + 1, 0);
    assert At(start, i + p) == At(start, i);
    CongruentBytes(start, i + p, i);
  }

  lemma Repeats(start: byte, i: nat, k: nat)
    ensures At(start, i + 65536 * k) == At(start, i)
  {
    var n := i + 65536 * k;
    DivModIs(n, i / 256 + 256 * k, i % 256);
    DivModIs(n + n / 256 - i - i / 256, 257 * k, 0);
    CongruentBytes(start, n, i);
  }

  /** The `m`-th block of 16 bytes, as a UUID consumes it. */
  function Block(start: byte, m: nat): seq<byte> {
    Bytes(start, 16 * m, 16)
  }

  /** A block stays within one set of 256 bytes, so it counts up from its first byte. */
  lemma BlockCounts(start: byte, m: nat, j: nat)
    requires j < 16
    ensures Block(start, m)[j] as int == (At(start, 16 * m) as int + j) % 256
  {
    DivModIs(16 * m + j, m / 16, 16 * (m % 16) + j);
    DivModIs(16 * m, m / 16, 16 * (m % 16));
    var v := start as int + 16 * m + m / 16;
    CongruentIs(v + j, v % 256 + j);
    DivModIs(v + j - v % 256 - j, v / 256, 0);
  }

  /** Where the `m`-th block starts in the cycle of 256 byte values. */
  function Phase(m: nat): nat {
    16 * (m % 16) + m / 16
  }

  lemma FirstByte(start: byte, m: nat)
    ensures Block(start, m)[0] as int == (start as int + Phase(m)) % 256
  {
    DivModIs(16 * m, m / 16, 16 * (m % 16));
    var v := start as int + 16 * m + m / 16;
    CongruentIs(v, start as int + Phase(m));
    DivModIs(v - start as int - Phase(m), m / 16, 0);
  }

  /** Two blocks are equal exactly when their first bytes are, and when that is. */
  lemma BlocksEqual(start: byte, m: nat, n: nat)
    ensures Block(start, m) == Block(start, n) <==> Block(start, m)[0] == Block(start, n)[0]
    ensures Block(start, m) == Block(start, n) <==> Phase(m) % 256 == Phase(n) % 256
  {
    FirstByte(start, m);
    FirstByte(start, n);
    CongruentIs(start as int + Phase(m), start as int + Phase(n));
    CongruentIs(Phase(m), Phase(n));
    if Block(start, m)[0] == Block(start, n)[0] {
      forall j | 0 <= j < 16 ensures Block(start, m)[j] == Block(start, n)[j] {
        BlockCounts(start, m, j);
        BlockCounts(start, n, j);
      }
    }
  }

  /** The first 256 blocks are pairwise distinct, already in their first bytes. */
  lemma FirstBlocksDistinct(start: byte, m: nat, n: nat)
    requires m < n < 256
    ensures Block(start, m)[0] != Block(start, n)[0] && Block(start, m) != Block(start, n)
  {
    BlocksEqual(start, m, n);
    DivModIs(Phase(m), 0, Phase(m));
    DivModIs(Phase(n), 0, Phase(n));
    Div16Is(Phase(m), m % 16, m / 16);
    Div16Is(Phase(n), n % 16, n / 16);
  }

  /** The block among the first 256 that starts where block `n` starts. */
  function Earlier(n: nat): nat {
    var v := Phase(n) % 256;
    16 * (v % 16) + v / 16
  }

  /** There are no more than 256 blocks: every later one, the 257th first of all, repeats one
      of the first 256. */
  lemma LaterBlocksRepeat(start: byte, n: nat)
    ensures Earlier(n) < 256 && Block(start, n) == Block(start, Earlier(n))
    ensures Block(start, 256) == Block(start, 1)
  {
    var v := Phase(n) % 256;
    Div16Is(Earlier(n), v % 16, v / 16);
    assert Phase(Earlier(n)) == v && v < 256;
    DivModIs(v, 0, v);
    BlocksEqual(start, n, Earlier(n));
    BlocksEqual(start, 256, 1);
  }
}
