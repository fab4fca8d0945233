/** MD5 of a message that arrives in pieces (src/md5.c:47-152). */
module Md5Contexts {
  import opened Words
  import opened Md5
  import opened Streams

  const START := Regs(0x6745_2301, 0xEFCD_AB89, 0x98BA_DCFE, 0x1032_5476)

  function Block(h: Regs, b: seq<Byte>): Regs {
    if |b| == BLOCK then Compress(h, b) else h
  }

  /** A number of 32 bits as four bytes, the low one first. */
  function CountBytes(c: nat): (b: seq<Byte>)
    ensures |b| == 4
  {
    [CountByte(c, 0), CountByte(c, 1), CountByte(c, 2), CountByte(c, 3)]
  }

  /** The length of a message in bits, as section 3.2 of RFC 1321 appends it. */
  function LengthBytes(n: nat): (b: seq<Byte>)
    ensures |b| == 8
  {
    CountBytes(LowBits(n)) + CountBytes(HighBits(n))
  }

  lemma {:induction false} CountBytesAre(c: nat, b0: Byte, b1: Byte, b2: Byte, b3: Byte)
    requires FromBytes(b0, b1, b2, b3) == c
    ensures c < TWO32 && CountBytes(c) == [b0, b1, b2, b3]
  {
    CountDenotes(c, b0, b1, b2, b3);
    hide CountByte, FromBytes;
  }

  lemma {:induction false} LengthParts(n: nat)
    ensures LengthBytes(n) == CountBytes(LowBits(n)) + CountBytes(HighBits(n)) && TWO32 == 0x1_0000_0000
  {
    hide CountBytes, LowBits, HighBits;
  }

  /** They are the bytes that denote 8 times the length modulo 2^64, the low byte first. */
  lemma {:induction false} LengthDenotes(n: nat, b: seq<Byte>)
    requires |b| == 8
    requires FromBytes(b[0], b[1], b[2], b[3]) + 0x1_0000_0000 * FromBytes(b[4], b[5], b[6], b[7]) == 8 * n % 0x1_0000_0000_0000_0000
    ensures LengthBytes(n) == b
  {
    hide *;
    var low, high := FromBytes(b[0], b[1], b[2], b[3]), FromBytes(b[4], b[5], b[6], b[7]);
    CountBytesAre(low, b[0], b[1], b[2], b[3]);
    CountBytesAre(high, b[4], b[5], b[6], b[7]);
    LengthParts(n);
    TwoWords(n, low, high);
    assert b == [b[0], b[1], b[2], b[3]] + [b[4], b[5], b[6], b[7]];
  }

  function DigestBytes(h: Regs): (b: seq<Byte>)
    ensures |b| == 16
  {
    LittleBytes(h.a) + LittleBytes(h.b) + LittleBytes(h.c) + LittleBytes(h.d)
  }

  /** The digest of a message given whole. */
  function Hash(m: seq<Byte>): (d: seq<Byte>)
    ensures |d| == 16
  {
    DigestBytes(Fold(Block, START, Padded(m, LengthBytes(|m|))))
  }

  /** The high word of the count after an update: a carry shows as a sum below an addend. */
  function NextHigh(low: nat, high: nat, len: nat): nat {
    (high + (if (low + LowBits(len)) % TWO32 < low then 1 else 0) + len / TWO29) % TWO32
  }

  /** It is right for every length that 32 bits hold. */
  lemma {:induction false} HighIsRight(n: nat, len: nat)
    requires len < TWO32
    ensures NextHigh(LowBits(n), HighBits(n), len) == HighBits(n + len)
  {
    var q, p := 8 * n / TWO32, 8 * len / TWO32;
    var lo, s := LowBits(n), LowBits(len);
    Parts(n);
    Parts(len);
    var carry := if lo + s >= TWO32 then 1 else 0;
    Quotient(8 * (n + len), q + p + carry, lo + s - carry * TWO32);
    Quotient(lo + s, carry, lo + s - carry * TWO32);
    ModSum(q % TWO32 + carry + p, q + carry + p, q / TWO32);
  }

  lemma {:induction false} LowSum(n: nat, len: nat)
    ensures (LowBits(n) + LowBits(len)) % TWO32 == LowBits(n + len)
  {
    NextLow(n, len);
    Parts(len);
    ModSum(LowBits(n) + LowBits(len), LowBits(n) + 8 * len, 8 * len / TWO32);
  }

  class Context {
    const buf: array<Word>
    const input: array<Byte>
    var bits0: nat
    var bits1: nat

    /** The context has taken in m: its whole blocks are in the state, the rest in the
        buffer, and the two words of the count hold 8 times its length modulo 2^64. */
    ghost predicate Absorbed(m: seq<Byte>)
      reads this, buf, input
    {
      && buf.Length == 4 && input.Length == 64
      && RegsOf(buf[..]) == Fold(Block, START, m)
      && input[..|m| % BLOCK] == Rest(m)
      && bits0 == LowBits(|m|) && bits1 == HighBits(|m|)
    }

    /** `MD5Init`. */
    constructor ()
      ensures Absorbed([]) && fresh(buf) && fresh(input)
    {
      buf := new Word[4];
      input := new Byte[64](_ => 0);
      bits0, bits1 := 0, 0;
      new;
      hide *;
      Start(buf);
      NothingYet();
    }

    lemma {:induction false} NothingYet()
      requires buf.Length == 4 && input.Length == 64
      requires RegsOf(buf[..]) == START && bits0 == 0 && bits1 == 0
      ensures Absorbed([])
    {
      ZeroBits();
      hide RegsOf, LowBits, HighBits;
    }

    static method Start(buf: array<Word>)
      requires buf.Length == 4
      modifies buf
      ensures RegsOf(buf[..]) == START
    {
      buf[0], buf[1], buf[2], buf[3] := 0x6745_2301, 0xEFCD_AB89, 0x98BA_DCFE, 0x1032_5476;
    }

    method Count(ghost n: nat, len: nat)
      requires bits0 == LowBits(n) && bits1 == HighBits(n) && len < TWO32
      modifies this`bits0, this`bits1
      ensures bits0 == LowBits(n + len) && bits1 == HighBits(n + len)
    {
      var t := bits0;
      ghost var high := bits1;
      bits0 := (t + 8 * len % TWO32) % TWO32;
      if bits0 < t {
        bits1 := (bits1 + 1) % TWO32;
      }
      bits1 := (bits1 + len / TWO29) % TWO32;
      Twice(high, if (t + LowBits(len)) % TWO32 < t then 1 else 0, len / TWO29);
      HighIsRight(n, len);
      LowSum(n, len);
      hide *;
    }

    /** The left over bytes and the first of the data are a block. */
    method FirstBlock(ghost m: seq<Byte>, data: array<Byte>, t: nat)
      requires buf.Length == 4 && input.Length == 64 && data != input
      requires t == |m| % BLOCK && 64 - t <= data.Length
      requires RegsOf(buf[..]) == Fold(Block, START, m) && input[..t] == Rest(m)
      modifies buf, input
      ensures RegsOf(buf[..]) == Fold(Block, START, m + data[..64 - t]) && |m + data[..64 - t]| % BLOCK == 0
    {
      hide Compress, RegsOf;
      Copy(input, t, data, 0, 64 - t);
      ghost var first := data[..64 - t];
      AppendToBlock(Block, START, m, first);
      assert input[..] == Rest(m) + first;
      Transform(buf, input);
    }

    /** Whole blocks are copied from the data and transformed. */
    method WholeBlocks(ghost m: seq<Byte>, data: array<Byte>, from: nat, len: nat) returns (i: nat)
      requires buf.Length == 4 && input.Length == 64 && data != input && from <= len <= data.Length
      requires RegsOf(buf[..]) == Fold(Block, START, m) && |m| % BLOCK == 0
      modifies buf, input
      ensures from <= i <= len < i + BLOCK && |m + data[from..i]| % BLOCK == 0
      ensures RegsOf(buf[..]) == Fold(Block, START, m + data[from..i])
    {
      hide Compress, RegsOf, Fold;
      i := from;
      ghost var d := data[..];
      assert m + d[from..from] == m;
      while len - i >= 64
        invariant from <= i <= len && |m + d[from..i]| % BLOCK == 0
        invariant RegsOf(buf[..]) == Fold(Block, START, m + d[from..i])
      {
        Copy(input, 0, data, i, 64);
        assert input[..] == d[i..i + 64];
        FoldBlock(Block, START, m + d[from..i], d[i..i + 64]);
        assert m + d[from..i] + d[i..i + 64] == m + d[from..i + 64];
        Transform(buf, input);
        i := i + 64;
      }
      assert d[from..i] == data[from..i];
    }

    /** What is left over is copied. */
    method Keep(ghost m: seq<Byte>, data: array<Byte>, i: nat, len: nat)
      requires buf.Length == 4 && input.Length == 64 && data != input && i <= len <= data.Length && len - i < BLOCK
      requires |m| % BLOCK == 0 && RegsOf(buf[..]) == Fold(Block, START, m)
      modifies input
      ensures var q := m + data[i..len]; RegsOf(buf[..]) == Fold(Block, START, q) && input[..|q| % BLOCK] == Rest(q)
    {
      hide Fold, RegsOf;
      FoldShort(Block, START, m, data[i..len]);
      Copy(input, 0, data, i, len - i);
      assert input[..len - i] == data[i..len];
    }

    method TakeBlocks(ghost m: seq<Byte>, data: array<Byte>, t: nat, len: nat)
      requires buf.Length == 4 && input.Length == 64 && data != input
      requires t == |m| % BLOCK && len <= data.Length && (t == 0 || 64 <= t + len)
      requires RegsOf(buf[..]) == Fold(Block, START, m) && input[..t] == Rest(m)
      modifies buf, input
      ensures var q := m + data[..len]; RegsOf(buf[..]) == Fold(Block, START, q) && input[..|q| % BLOCK] == Rest(q)
    {
      hide *;
      ghost var d := data[..len];
      var from := 0;
      assert m + data[..0] == m && BLOCK == 64 by {
        Size();
      }
      if t != 0 {
        from := 64 - t;
        FirstBlock(m, data, t);
      }
      var i := WholeBlocks(m + data[..from], data, from, len);
      assert data[..from] == d[..from] && data[from..i] == d[from..i] && data[i..len] == d[i..];
      PiecesJoin(m, d, from, i);
      Keep(m + d[..i], data, i, len);
    }

    /** `MD5Update`: whatever was taken in is continued by the data, wherever its pieces are
        cut. */
    method Update(ghost m: seq<Byte>, data: array<Byte>, len: nat)
      requires Absorbed(m) && data != input && len <= data.Length && len < TWO32
      modifies this, buf, input
      ensures Absorbed(m + data[..len])
    {
      hide Fold, RegsOf, LowBits, HighBits;
      ghost var d := data[..len];
      NextLow(|m|, len);
      var t := bits0 / 8 % 64;
      Count(|m|, len);
      if t != 0 && len < 64 - t {
        AppendShort(Block, START, m, d);
        Copy(input, t, data, 0, len);
      } else {
        TakeBlocks(m, data, t, len);
      }
    }

    method Fill(from: nat, to: nat)
      requires input.Length == 64 && from <= to <= 64
      modifies input
      ensures input[..] == old(input[..from]) + Zeros(to - from) + old(input[to..])
    {
      forall i | from <= i < to {
        input[i] := 0;
      }
    }

    method PutCount(at: nat, c: nat)
      requires input.Length == 64 && at + 4 <= 64
      modifies input
      ensures input[..] == old(input[..at]) + CountBytes(c) + old(input[at + 4..])
    {
      hide CountByte;
      input[at] := CountByte(c, 0);
      input[at + 1] := CountByte(c, 1);
      input[at + 2] := CountByte(c, 2);
      input[at + 3] := CountByte(c, 3);
    }

    /** The padding takes two blocks. */
    method PadTwo(ghost m: seq<Byte>, count: nat)
      requires buf.Length == 4 && input.Length == 64 && count == |m| % BLOCK && 56 <= count
      requires RegsOf(buf[..]) == Fold(Block, START, m) && input[..count + 1] == Rest(m) + [0x80]
      modifies buf, input
      ensures Awaits(m)
    {
      hide *;
      PadTwoIs(m, count);
      ghost var first := [0x80] + Zeros(63 - count);
      PadSeams(Rest(m), Zeros(63 - count), []);
      Fill(count + 1, 64);
      assert input[64..] == [] && input[..] == Rest(m) + first;
      Transform(buf, input);
      ghost var tail := input[56..];
      Fill(0, 56);
      PadSeams(Rest(m), Zeros(63 - count), tail);
      assert input[..0] == [] && input[..56] == input[..][..56];
      AwaitsWhen(m);
    }

    lemma {:induction false} AwaitsWhen(m: seq<Byte>)
      requires var p := m + [0x80] + Zeros(PaddingOf(|m|));
        && |p| % BLOCK == 56 && buf.Length == 4 && input.Length == 64
        && RegsOf(buf[..]) == Fold(Block, START, p) && input[..56] == Rest(p)
      ensures Awaits(m)
    {
      hide RegsOf, Fold, Rest;
    }

    /** The padding takes one block. */
    method PadOne(ghost m: seq<Byte>, count: nat)
      requires buf.Length == 4 && input.Length == 64 && count == |m| % BLOCK && count < 56
      requires RegsOf(buf[..]) == Fold(Block, START, m) && input[..count + 1] == Rest(m) + [0x80]
      modifies input
      ensures Awaits(m)
    {
      hide RegsOf, Fold;
      Fill(count + 1, 56);
      ghost var first := [0x80] + Zeros(55 - count);
      assert m + [0x80] + Zeros(PaddingOf(|m|)) == m + first;
      assert input[..56] == Rest(m) + first;
      AppendShort(Block, START, m, first);
    }

    /** All but the count is padded. */
    ghost predicate Awaits(m: seq<Byte>)
      reads buf, input
    {
      var p := m + [0x80] + Zeros(PaddingOf(|m|));
      && |p| % BLOCK == 56 && buf.Length == 4 && input.Length == 64
      && RegsOf(buf[..]) == Fold(Block, START, p) && input[..56] == Rest(p)
    }

    /** The padding, written in the buffer itself. */
    method Pad(ghost m: seq<Byte>)
      requires Absorbed(m)
      modifies buf, input
      ensures Awaits(m)
    {
      hide RegsOf, Fold, LowBits, HighBits, Awaits;
      NextLow(|m|, 0);
      var count := bits0 / 8 % 64;
      input[count] := 0x80;
      assert input[..count + 1] == Rest(m) + [0x80];
      if 64 - 1 - count < 8 {
        PadTwo(m, count);
      } else {
        PadOne(m, count);
      }
    }

    /** `MD5Final`: the digest of all that was taken in. */
    method Final(ghost m: seq<Byte>, digest: array<Byte>)
      requires Absorbed(m) && digest.Length == 16 && digest != input
      modifies buf, input, digest
      ensures digest[..] == Hash(m)
    {
      hide RegsOf, Fold, LowBits, HighBits, Rest;
      Pad(m);
      ghost var p := m + [0x80] + Zeros(PaddingOf(|m|));
      PutCount(56, bits0);
      PutCount(60, bits1);
      assert input[..] == Rest(p) + LengthBytes(|m|);
      AppendToBlock(Block, START, p, LengthBytes(|m|));
      hide CountBytes;
      Transform(buf, input);
      WriteDigest(digest);
    }

    method WriteDigest(digest: array<Byte>)
      requires digest.Length == 16 && buf.Length == 4
      modifies digest
      ensures digest[..] == DigestBytes(RegsOf(buf[..]))
    {
      hide ByteAt;
      PutWord(digest, 0, buf[0]);
      PutWord(digest, 4, buf[1]);
      PutWord(digest, 8, buf[2]);
      PutWord(digest, 12, buf[3]);
    }

    /** PUT_32BIT_LSB_FIRST. */
    static method PutWord(digest: array<Byte>, at: nat, w: Word)
      requires at + 4 <= digest.Length
      modifies digest
      ensures digest[..] == old(digest[..at]) + LittleBytes(w) + old(digest[at + 4..])
    {
      hide ByteAt;
      digest[at] := ByteAt(w, 0);
      digest[at + 1] := ByteAt(w, 1);
      digest[at + 2] := ByteAt(w, 2);
      digest[at + 3] := ByteAt(w, 3);
    }
  }

  lemma {:induction false} Size()
    ensures BLOCK == 64
  {
  }

  lemma {:induction false} PadSeams(rest: seq<Byte>, z: seq<Byte>, tail: seq<Byte>)
    ensures rest + [0x80] + z + [] == rest + ([0x80] + z)
    ensures ([] + Zeros(56) + tail)[..56] == Zeros(56)
  {
  }

  lemma {:induction false} PadTwoIs(m: seq<Byte>, count: nat)
    requires count == |m| % BLOCK && 56 <= count
    ensures BLOCK == 64 && count < 64 && var p, first := m + [0x80] + Zeros(PaddingOf(|m|)), [0x80] + Zeros(63 - count);
      && Fold(Block, START, p) == Compress(Fold(Block, START, m), Rest(m) + first) && |Rest(m) + first| == 64
      && |p| % BLOCK == 56 && Rest(p) == Zeros(56)
  {
    hide Fold, Zeros, Compress;
    var first := [0x80] + Zeros(63 - count);
    AppendToBlock(Block, START, m, first);
    ZerosJoin(63 - count, 56);
    assert PaddingOf(|m|) == 63 - count + 56;
    assert m + [0x80] + Zeros(PaddingOf(|m|)) == m + first + Zeros(56);
    FoldShort(Block, START, m + first, Zeros(56));
    assert |m + first + Zeros(56)| % BLOCK == 56;
  }

  lemma {:induction false} ZerosJoin(a: nat, b: nat)
    ensures Zeros(a) + Zeros(b) == Zeros(a + b)
  {
  }
}
