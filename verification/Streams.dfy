/** Messages taken in piece by piece: what a digest of blocks of 64 bytes keeps of them. */
module Streams {
  import opened Words
  import opened Narrowing

  const BLOCK: nat := 64

  /** The blocks of a message folded into a state; what is left over is not looked at. */
  function Fold<S>(step: (S, seq<Byte>) -> S, h: S, m: seq<Byte>): S
    decreases |m|
  {
    if |m| < BLOCK then h else Fold(step, step(h, m[..BLOCK]), m[BLOCK..])
  }

  /** What is left over. */
  function Rest(m: seq<Byte>): (r: seq<Byte>)
    ensures |r| == |m| % BLOCK
  {
    m[|m| - |m| % BLOCK..]
  }

  lemma {:induction false} FoldJoin<S>(step: (S, seq<Byte>) -> S, h: S, a: seq<Byte>, b: seq<Byte>)
    requires |a| % BLOCK == 0
    ensures Fold(step, h, a + b) == Fold(step, Fold(step, h, a), b)
    decreases |a|
  {
    if a == [] {
      assert a + b == b;
    } else {
      assert (a + b)[..BLOCK] == a[..BLOCK] && (a + b)[BLOCK..] == a[BLOCK..] + b;
      FoldJoin(step, step(h, a[..BLOCK]), a[BLOCK..], b);
    }
  }

  /** What is left over does not count. */
  lemma {:induction false} FoldShort<S>(step: (S, seq<Byte>) -> S, h: S, a: seq<Byte>, b: seq<Byte>)
    requires |a| % BLOCK == 0 && |b| < BLOCK
    ensures Fold(step, h, a + b) == Fold(step, h, a) && Rest(a + b) == b
  {
    FoldJoin(step, h, a, b);
    assert |a + b| % BLOCK == |b|;
  }

  /** A block more. */
  lemma {:induction false} FoldBlock<S>(step: (S, seq<Byte>) -> S, h: S, a: seq<Byte>, b: seq<Byte>)
    requires |a| % BLOCK == 0 && |b| == BLOCK
    ensures Fold(step, h, a + b) == step(Fold(step, h, a), b)
    ensures |a + b| % BLOCK == 0
  {
    FoldJoin(step, h, a, b);
    assert b[..BLOCK] == b && b[BLOCK..] == [];
  }

  /** A message is its whole blocks and what is left over. */
  lemma {:induction false} Split(m: seq<Byte>)
    ensures var w := m[..|m| - |m| % BLOCK]; |w| % BLOCK == 0 && m == w + Rest(m)
  {
  }

  /** The left over bytes are not a block yet. */
  lemma {:induction false} AppendShort<S>(step: (S, seq<Byte>) -> S, h: S, m: seq<Byte>, d: seq<Byte>)
    requires |m| % BLOCK + |d| < BLOCK
    ensures Fold(step, h, m + d) == Fold(step, h, m) && Rest(m + d) == Rest(m) + d
  {
    var w := m[..|m| - |m| % BLOCK];
    Split(m);
    assert m + d == w + (Rest(m) + d);
    FoldShort(step, h, w, Rest(m) + d);
    FoldShort(step, h, w, Rest(m));
  }

  /** The left over bytes become a block. */
  lemma {:induction false} AppendToBlock<S>(step: (S, seq<Byte>) -> S, h: S, m: seq<Byte>, d: seq<Byte>)
    requires |m| % BLOCK + |d| == BLOCK
    ensures Fold(step, h, m + d) == step(Fold(step, h, m), Rest(m) + d)
    ensures |m + d| % BLOCK == 0
  {
    var w := m[..|m| - |m| % BLOCK];
    Split(m);
    assert m + d == w + (Rest(m) + d);
    FoldShort(step, h, w, Rest(m));
    FoldBlock(step, h, w, Rest(m) + d);
  }

  function Zeros(n: nat): (z: seq<Byte>)
    ensures |z| == n && forall i :: 0 <= i < n ==> z[i] == 0
  {
    seq(n, i => 0)
  }

  /** How many zero bytes follow the first byte of padding: the length has 8 bytes, and the
      whole is to be blocks. */
  function PaddingOf(n: nat): (z: nat)
    ensures z < BLOCK && (n + 1 + z + 8) % BLOCK == 0
  {
    (119 - n % BLOCK) % BLOCK
  }

  /** The message padded, as RFC 1321 (sections 3.1 and 3.2) and FIPS 180-1 (section 4)
      both do; they write the length differently. */
  function Padded(m: seq<Byte>, length: seq<Byte>): (p: seq<Byte>)
    requires |length| == 8
    ensures |p| % BLOCK == 0
  {
    m + [0x80] + Zeros(PaddingOf(|m|)) + length
  }

  function Concat(parts: seq<seq<Byte>>): seq<Byte> {
    if parts == [] then [] else Concat(parts[..|parts| - 1]) + parts[|parts| - 1]
  }

  const TWO32: nat := 0x1_0000_0000
  const TWO29: nat := 0x2000_0000

  /** The count of bits in two words of 32 bits. */
  function LowBits(bytes: nat): nat { 8 * bytes % TWO32 }
  function HighBits(bytes: nat): nat { 8 * bytes / TWO32 % TWO32 }

  lemma {:induction false} LowAndHigh(n: nat)
    ensures LowBits(n) < 0x1_0000_0000 && HighBits(n) < 0x1_0000_0000
    ensures LowBits(n) + 0x1_0000_0000 * HighBits(n) == 8 * n % 0x1_0000_0000_0000_0000
  {
    var q := 8 * n / TWO32;
    assert 8 * n == TWO32 * q + LowBits(n) && q == TWO32 * (q / TWO32) + HighBits(n);
    assert 8 * n == 0x1_0000_0000_0000_0000 * (q / TWO32) + (LowBits(n) + 0x1_0000_0000 * HighBits(n));
  }

  /** A byte of a number: a shift by 8 * k bits, and the low byte. */
  function CountByte(c: nat, k: nat): Byte {
    (c / (if k == 3 then 0x100_0000 else if k == 2 then 0x1_0000 else if k == 1 then 0x100 else 1) % 0x100) as Byte
  }

  function CountDigit(c: nat, k: nat): (d: nat)
    ensures d < 256
  {
    (if k == 3 then c / 0x100_0000 else if k == 2 then c / 0x1_0000 else if k == 1 then c / 0x100 else c) % 0x100
  }

  lemma {:induction false} CountByteNarrows(c: nat, k: nat)
    ensures CountByte(c, k) == Narrow(CountDigit(c, k))
  {
  }

  /** The number that four bytes denote, the low one first. */
  function FromBytes(b0: Byte, b1: Byte, b2: Byte, b3: Byte): nat {
    Wide(b0) + 0x100 * Wide(b1) + 0x1_0000 * Wide(b2) + 0x100_0000 * Wide(b3)
  }

  lemma {:induction false} DigitsOf(d0: nat, d1: nat, d2: nat, d3: nat)
    requires d0 < 256 && d1 < 256 && d2 < 256 && d3 < 256
    ensures var c := d0 + 0x100 * d1 + 0x1_0000 * d2 + 0x100_0000 * d3;
      c < TWO32 && CountDigit(c, 0) == d0 && CountDigit(c, 1) == d1 && CountDigit(c, 2) == d2 && CountDigit(c, 3) == d3
  {
    var c := d0 + 0x100 * d1 + 0x1_0000 * d2 + 0x100_0000 * d3;
    assert c / 0x100 == d1 + 0x100 * d2 + 0x1_0000 * d3;
    assert c / 0x1_0000 == d2 + 0x100 * d3;
    assert c / 0x100_0000 == d3;
  }

  /** The bytes of a number are those that denote it. */
  lemma {:induction false} CountDenotes(c: nat, b0: Byte, b1: Byte, b2: Byte, b3: Byte)
    requires FromBytes(b0, b1, b2, b3) == c
    ensures c < TWO32 && CountByte(c, 0) == b0 && CountByte(c, 1) == b1 && CountByte(c, 2) == b2 && CountByte(c, 3) == b3
  {
    NarrowBack(b0);
    NarrowBack(b1);
    NarrowBack(b2);
    NarrowBack(b3);
    hide Narrow, Wide, CountByte, CountDigit;
    DigitsOf(Wide(b0), Wide(b1), Wide(b2), Wide(b3));
    CountByteNarrows(c, 0);
    CountByteNarrows(c, 1);
    CountByteNarrows(c, 2);
    CountByteNarrows(c, 3);
  }

  /** Two words, and the 64 bits that they are. */
  lemma {:induction false} TwoWords(n: nat, low: nat, high: nat)
    requires low < TWO32 && high < TWO32 && low + TWO32 * high == 8 * n % 0x1_0000_0000_0000_0000
    ensures low == LowBits(n) && high == HighBits(n)
  {
    LowAndHigh(n);
    assert (low + TWO32 * high) / TWO32 == high;
  }

  /** `memcpy`. */
  method Copy(dst: array<Byte>, at: nat, src: array<Byte>, from: nat, n: nat)
    requires dst != src && at + n <= dst.Length && from + n <= src.Length
    modifies dst
    ensures dst[..] == old(dst[..at]) + src[from..from + n] + old(dst[at + n..])
  {
    var i := 0;
    while i < n
      invariant 0 <= i <= n
      invariant dst[..] == old(dst[..at]) + src[from..from + i] + old(dst[at + i..])
    {
      dst[at + i] := src[from + i];
      i := i + 1;
    }
  }

  lemma {:induction false} Parts(n: nat)
    ensures 8 * n == 8 * n / TWO32 * TWO32 + LowBits(n) && 8 * n / TWO32 == n / TWO29
  {
  }

  lemma {:induction false} Quotient(a: nat, q: nat, r: nat)
    requires a == q * TWO32 + r && r < TWO32
    ensures a / TWO32 == q && a % TWO32 == r
  {
  }

  lemma {:induction false} ModSum(a: nat, b: nat, k: nat)
    requires b == a + k * TWO32
    ensures a % TWO32 == b % TWO32
  {
  }

  lemma {:induction false} ModDiffers(a: nat, x: nat, y: nat)
    requires x <= 1 && y <= 1
    ensures (a + x) % TWO32 == (a + y) % TWO32 <==> x == y
  {
  }

  lemma {:induction false} NextLow(n: nat, len: nat)
    ensures (LowBits(n) + 8 * len) % TWO32 == LowBits(n + len)
    ensures LowBits(n) / 8 % BLOCK == n % BLOCK
  {
    Parts(n);
    ModSum(LowBits(n) + 8 * len, 8 * n + 8 * len, 8 * n / TWO32);
    LowOf(n);
  }

  lemma {:induction false} LowOf(n: nat)
    ensures LowBits(n) == 8 * (n % TWO29) && n % TWO29 % BLOCK == n % BLOCK
  {
    assert n == n / TWO29 * TWO29 + n % TWO29;
    assert 8 * n == n / TWO29 * TWO32 + 8 * (n % TWO29);
    Quotient(8 * n, n / TWO29, 8 * (n % TWO29));
    assert TWO29 == 0x80_0000 * BLOCK;
  }

  lemma {:induction false} PiecesJoin(m: seq<Byte>, d: seq<Byte>, k: nat, i: nat)
    requires k <= i <= |d|
    ensures m + d[..k] + d[k..i] == m + d[..i] && m + d[..i] + d[i..] == m + d
  {
  }

  lemma {:induction false} Twice(a: nat, b: nat, c: nat)
    ensures ((a + b) % TWO32 + c) % TWO32 == (a + b + c) % TWO32
  {
    ModSum((a + b) % TWO32 + c, a + b + c, (a + b) / TWO32);
  }

  ghost function Contents(pieces: seq<array<Byte>>): (c: seq<seq<Byte>>)
    reads pieces
    ensures |c| == |pieces| && forall i :: 0 <= i < |c| ==> c[i] == pieces[i][..]
  {
    seq(|pieces|, i requires 0 <= i < |pieces| reads pieces => pieces[i][..])
  }

  /** The pieces that are still to come are as they were. */
  ghost predicate Untouched(pieces: seq<array<Byte>>, parts: seq<seq<Byte>>, from: nat)
    requires |parts| == |pieces|
    reads pieces
  {
    forall k :: from <= k < |pieces| ==> pieces[k][..] == parts[k]
  }

  ghost predicate Apart(pieces: seq<array<Byte>>) {
    forall i, j :: 0 <= i < j < |pieces| ==> pieces[i] != pieces[j]
  }

  lemma {:induction false} ZeroBits()
    ensures HighBits(0) == 0 && LowBits(0) == 0
  {
  }

  lemma {:induction false} ZeroMore(a: seq<Byte>, k: nat)
    ensures a + Zeros(k) + [0] == a + Zeros(k + 1)
  {
  }

  /** The place in the block says how far the padding is. */
  lemma {:induction false} NotPaddedYet(m: seq<Byte>, k: nat)
    requires k <= PaddingOf(|m|)
    ensures LowBits(|m + [0x80] + Zeros(k)|) / 8 % 64 == 56 <==> k == PaddingOf(|m|)
  {
    NextLow(|m| + 1 + k, 0);
    Place(|m|, k);
  }

  lemma {:induction false} Place(n: nat, k: nat)
    requires k <= PaddingOf(n)
    ensures (n + 1 + k) % BLOCK == 56 <==> k == PaddingOf(n)
  {
  }
}
