/** SHA-1 of a message that arrives in pieces (src/sha1.c:201-261). */
module Sha1Contexts {
  import opened Words
  import opened Sha1
  import opened Streams

  const START := Regs(0x6745_2301, 0xEFCD_AB89, 0x98BA_DCFE, 0x1032_5476, 0xC3D2_E1F0)

  function Block(h: Regs, b: seq<Byte>): Regs {
    if |b| == BLOCK then Compress(h, b) else h
  }

  /** A number of 32 bits as four bytes, the high one first. */
  function CountBytes(c: nat): (b: seq<Byte>)
    ensures |b| == 4
  {
    [CountByte(c, 3), CountByte(c, 2), CountByte(c, 1), CountByte(c, 0)]
  }

  /** The length of a message in bits, as section 4 appends it. */
  function LengthBytes(n: nat): (b: seq<Byte>)
    ensures |b| == 8
  {
    CountBytes(HighBits(n)) + CountBytes(LowBits(n))
  }

  lemma {:induction false} CountBytesAre(c: nat, b0: Byte, b1: Byte, b2: Byte, b3: Byte)
    requires FromBytes(b0, b1, b2, b3) == c
    ensures c < TWO32 && CountBytes(c) == [b3, b2, b1, b0]
  {
    CountDenotes(c, b0, b1, b2, b3);
    hide CountByte, FromBytes;
  }

  lemma {:induction false} LengthParts(n: nat)
    ensures LengthBytes(n) == CountBytes(HighBits(n)) + CountBytes(LowBits(n)) && TWO32 == 0x1_0000_0000
  {
    hide CountBytes, LowBits, HighBits;
  }

  /** They are the bytes that denote 8 times the length modulo 2^64, the high byte first. */
  lemma {:induction false} LengthDenotes(n: nat, b: seq<Byte>)
    requires |b| == 8
    requires FromBytes(b[7], b[6], b[5], b[4]) + 0x1_0000_0000 * FromBytes(b[3], b[2], b[1], b[0]) == 8 * n % 0x1_0000_0000_0000_0000
    ensures LengthBytes(n) == b
  {
    hide *;
    var low, high := FromBytes(b[7], b[6], b[5], b[4]), FromBytes(b[3], b[2], b[1], b[0]);
    CountBytesAre(low, b[7], b[6], b[5], b[4]);
    CountBytesAre(high, b[3], b[2], b[1], b[0]);
    LengthParts(n);
    TwoWords(n, low, high);
    assert b == [b[0], b[1], b[2], b[3]] + [b[4], b[5], b[6], b[7]];
  }

  function DigestBytes(h: Regs): (b: seq<Byte>)
    ensures |b| == 20
  {
    BigBytes(h.a) + BigBytes(h.b) + BigBytes(h.c) + BigBytes(h.d) + BigBytes(h.e)
  }

  /** The digest of a message given whole. */
  function Hash(m: seq<Byte>): (d: seq<Byte>)
    ensures |d| == 20
  {
    DigestBytes(Fold(Block, START, Padded(m, LengthBytes(|m|))))
  }

  /** The high word of the count after an update: the comparison is made in the width of
      the length, so it also sees a carry where there is none if the length is large. */
  function NextHigh(low: nat, high: nat, len: nat): nat {
    (high + (if (low + 8 * len) % TWO32 < 8 * len then 1 else 0) + len / TWO29) % TWO32
  }

  /** The count is right exactly when the piece has fewer than 2^29 bytes or its bits do
      carry into the high word. */
  lemma {:induction false} HighIsRight(n: nat, len: nat)
    ensures NextHigh(LowBits(n), HighBits(n), len) == HighBits(n + len)
      <==> len < TWO29 || LowBits(n) + LowBits(len) >= TWO32
  {
    var q, p := 8 * n / TWO32, 8 * len / TWO32;
    var lo, s := LowBits(n), LowBits(len);
    Parts(n);
    Parts(len);
    var carry := if lo + s >= TWO32 then 1 else 0;
    Quotient(8 * (n + len), q + p + carry, lo + s - carry * TWO32);
    var seen := if (lo + 8 * len) % TWO32 < 8 * len then 1 else 0;
    assert (lo + 8 * len) % TWO32 == lo + s - carry * TWO32 by {
      Quotient(lo + 8 * len, p + carry, lo + s - carry * TWO32);
    }
    ModSum(q % TWO32 + seen + p, q + seen + p, q / TWO32);
    ModDiffers(q + p, seen, carry);
  }

  function BytesOfState(state: seq<Word>): (b: seq<Byte>)
    requires |state| == 5
    ensures |b| == 20
  {
    seq(20, i requires 0 <= i < 20 => ByteAt(state[i / 4], 3 - i % 4))
  }

  lemma {:induction false} DigestIsOfState(state: seq<Word>)
    requires |state| == 5
    ensures BytesOfState(state) == DigestBytes(RegsOf(state))
  {
    hide *;
    var b := BytesOfState(state);
    FourBytes(state, 0);
    FourBytes(state, 1);
    FourBytes(state, 2);
    FourBytes(state, 3);
    FourBytes(state, 4);
    DigestParts(RegsOf(state));
    StateParts(state);
    assert b == b[0..4] + b[4..8] + b[8..12] + b[12..16] + b[16..20];
  }

  lemma {:induction false} Size()
    ensures BLOCK == 64
  {
  }

  lemma {:induction false} DataParts(whole: seq<Byte>, len: nat, j: nat, i: nat)
    requires j <= i <= len <= |whole|
    ensures var d := whole[..len];
      whole[..j] == d[..j] && whole[j..i] == d[j..i] && whole[i..len] == d[i..] && d[..i] + d[i..] == d
  {
  }

  lemma {:induction false} SameTail(a: seq<Byte>, b: seq<Byte>, i: nat, len: nat)
    requires i <= len <= |a| == |b| && a[i..] == b[i..]
    ensures a[i..len] == b[i..len] && a[len..] == b[len..] && a[..len][i..] == a[i..len]
  {
    assert a[i..len] == a[i..][..len - i] && b[i..len] == b[i..][..len - i];
    assert a[len..] == a[i..][len - i..] && b[len..] == b[i..][len - i..];
  }

  lemma {:induction false} DigestParts(r: Regs)
    ensures DigestBytes(r) == BigBytes(r.a) + BigBytes(r.b) + BigBytes(r.c) + BigBytes(r.d) + BigBytes(r.e)
  {
    hide BigBytes;
  }

  lemma {:induction false} StateParts(state: seq<Word>)
    requires |state| == 5
    ensures RegsOf(state) == Regs(state[0], state[1], state[2], state[3], state[4])
  {
  }

  lemma {:induction false} FourBytes(state: seq<Word>, k: nat)
    requires |state| == 5 && k < 5
    ensures BytesOfState(state)[4 * k..4 * k + 4] == BigBytes(state[k])
  {
    var b := BytesOfState(state);
    hide *;
    StateByte(state, k, 0);
    StateByte(state, k, 1);
    StateByte(state, k, 2);
    StateByte(state, k, 3);
    FourAre(b, 4 * k, state[k]);
  }

  lemma {:induction false} StateByte(state: seq<Word>, k: nat, j: nat)
    requires |state| == 5 && k < 5 && j < 4
    ensures BytesOfState(state)[4 * k + j] == ByteAt(state[k], 3 - j)
  {
    hide ByteAt;
    Place(k, j);
  }

  lemma {:induction false} Place(k: nat, j: nat)
    requires j < 4
    ensures (4 * k + j) / 4 == k && (4 * k + j) % 4 == j
  {
  }

  lemma {:induction false} FourAre(b: seq<Byte>, at: nat, x: Word)
    requires at + 4 <= |b| && b[at + 0] == ByteAt(x, 3) && b[at + 1] == ByteAt(x, 2)
    requires b[at + 2] == ByteAt(x, 1) && b[at + 3] == ByteAt(x, 0)
    ensures b[at..at + 4] == BigBytes(x)
  {
    hide ByteAt;
  }

  class Context {
    const state: array<Word>
    const buffer: array<Byte>
    var count0: nat
    var count1: nat

    /** The context has taken in m: its whole blocks are in the state, the rest in the
        buffer, and the low word of the count is right. */
    ghost predicate Absorbed(m: seq<Byte>)
      reads this, state, buffer
    {
      && state.Length == 5 && buffer.Length == 64
      && RegsOf(state[..]) == Fold(Block, START, m)
      && buffer[..|m| % BLOCK] == Rest(m)
      && count0 == LowBits(|m|)
    }

    /** `SHA1_Init`. */
    constructor ()
      ensures Absorbed([]) && count1 == 0 && fresh(state) && fresh(buffer)
    {
      state := new Word[5];
      buffer := new Byte[64];
      count0, count1 := 0, 0;
      new;
      Start(state);
      ZeroBits();
      hide RegsOf, LowBits;
    }

    static method Start(state: array<Word>)
      requires state.Length == 5
      modifies state
      ensures RegsOf(state[..]) == START
    {
      state[0], state[1], state[2], state[3], state[4] := 0x6745_2301, 0xEFCD_AB89, 0x98BA_DCFE, 0x1032_5476, 0xC3D2_E1F0;
    }

    method Count(len: nat)
      modifies this`count0, this`count1
      ensures count0 == (old(count0) + 8 * len) % TWO32 && count1 == NextHigh(old(count0), old(count1), len)
    {
      ghost var low, high := count0, count1;
      count0 := (count0 + 8 * len) % TWO32;
      if count0 < 8 * len {
        count1 := (count1 + 1) % TWO32;
      }
      count1 := (count1 + len / TWO29) % TWO32;
      hide *;
      Twice(high, if (low + 8 * len) % TWO32 < 8 * len then 1 else 0, len / TWO29);
    }

    /** The left over bytes and the first of the data are a block. */
    method FirstBlock(ghost m: seq<Byte>, data: array<Byte>, j: nat)
      requires state.Length == 5 && buffer.Length == 64 && data != buffer
      requires j == |m| % BLOCK && 64 - j <= data.Length
      requires RegsOf(state[..]) == Fold(Block, START, m) && buffer[..j] == Rest(m)
      modifies state, buffer
      ensures RegsOf(state[..]) == Fold(Block, START, m + data[..64 - j]) && |m + data[..64 - j]| % BLOCK == 0
    {
      hide Compress, RegsOf, Spoils;
      Copy(buffer, j, data, 0, 64 - j);
      ghost var first := data[..64 - j];
      AppendToBlock(Block, START, m, first);
      assert buffer[0..64] == Rest(m) + first;
      Transform(state, buffer, 0);
    }

    /** Whole blocks are taken from the data, which is lost there. */
    method WholeBlocks(ghost m: seq<Byte>, data: array<Byte>, from: nat, len: nat) returns (i: nat)
      requires state.Length == 5 && from <= len <= data.Length
      requires RegsOf(state[..]) == Fold(Block, START, m) && |m| % BLOCK == 0
      modifies state, data
      ensures from <= i <= len < i + BLOCK && |m + old(data[..])[from..i]| % BLOCK == 0
      ensures RegsOf(state[..]) == Fold(Block, START, m + old(data[..])[from..i])
      ensures data[i..] == old(data[..])[i..]
    {
      hide Compress, RegsOf, Spoils, Fold;
      i := from;
      ghost var d := data[..];
      assert m + d[from..from] == m;
      while i + 63 < len
        invariant from <= i <= len && |m + d[from..i]| % BLOCK == 0
        invariant RegsOf(state[..]) == Fold(Block, START, m + d[from..i])
        invariant data[i..] == d[i..]
      {
        assert data[i..i + 64] == d[i..i + 64];
        FoldBlock(Block, START, m + d[from..i], d[i..i + 64]);
        assert m + d[from..i] + d[i..i + 64] == m + d[from..i + 64];
        Transform(state, data, i);
        i := i + 64;
      }
    }

    /** The blocks that data completes and holds, and what is left over of it. */
    method TakeBlocks(ghost m: seq<Byte>, data: array<Byte>, j: nat, len: nat)
      requires state.Length == 5 && buffer.Length == 64 && data != buffer
      requires j == |m| % BLOCK && 64 <= j + len && len <= data.Length
      requires RegsOf(state[..]) == Fold(Block, START, m) && buffer[..j] == Rest(m)
      modifies state, buffer, data
      ensures var q := m + old(data[..len]); RegsOf(state[..]) == Fold(Block, START, q) && buffer[..|q| % BLOCK] == Rest(q)
      ensures data[len..] == old(data[len..])
    {
      hide *;
      Size();
      ghost var whole := data[..];
      ghost var d := data[..len];
      DataParts(whole, len, 64 - j, 64 - j);
      FirstBlock(m, data, j);
      ghost var q := m + d[..64 - j];
      var i := WholeBlocks(q, data, 64 - j, len);
      DataParts(whole, len, 64 - j, i);
      PiecesJoin(m, d, 64 - j, i);
      ghost var p := m + d[..i];
      ghost var now := data[..];
      FoldShort(Block, START, p, d[i..]);
      assert now[i..] == data[i..] && whole[i..] == now[i..];
      SameTail(whole, now, i, len);
      Copy(buffer, 0, data, i, len - i);
      assert buffer[..len - i] == d[i..];
    }

    /** `SHA1_Update`: whatever was taken in is continued by the data, wherever its pieces
        are cut. */
    method Update(ghost m: seq<Byte>, data: array<Byte>, len: nat)
      requires Absorbed(m) && data != buffer && len <= data.Length
      modifies this, state, buffer, data
      ensures Absorbed(m + old(data[..len]))
      ensures count1 == NextHigh(old(count0), old(count1), len)
      ensures data[len..] == old(data[len..])
    {
      hide Fold, RegsOf, NextHigh, LowBits;
      ghost var d := data[..len];
      NextLow(|m|, len);
      var j := count0 / 8 % 64;
      Count(len);
      if j + len > 63 {
        TakeBlocks(m, data, j, len);
      } else {
        AppendShort(Block, START, m, d);
        Copy(buffer, j, data, 0, len);
      }
    }

    /** A single byte is taken in, as `SHA1_Final` does for the padding. */
    method Put(ghost m: seq<Byte>, b: Byte)
      requires Absorbed(m)
      modifies this, state, buffer
      ensures Absorbed(m + [b])
    {
      var one := new Byte[1](_ => b);
      assert one[..1] == [b];
      hide Fold, RegsOf, LowBits, NextHigh;
      Update(m, one, 1);
    }

    /** The count of bits, the high word first. */
    method WriteCount() returns (b: array<Byte>)
      ensures fresh(b) && b.Length == 8 && b[..] == CountBytes(count1) + CountBytes(count0)
    {
      hide CountByte;
      b := new Byte[8];
      var i := 0;
      while i < 8
        invariant 0 <= i <= 8
        invariant forall k :: 0 <= k < i ==> b[k] == (CountBytes(count1) + CountBytes(count0))[k]
      {
        b[i] := CountByte(if i >= 4 then count0 else count1, 3 - i % 4);
        i := i + 1;
      }
    }

    method WriteDigest(digest: array<Byte>)
      requires digest.Length == 20 && state.Length == 5
      modifies digest
      ensures digest[..] == DigestBytes(RegsOf(state[..]))
    {
      hide ByteAt, DigestBytes, RegsOf;
      var i := 0;
      while i < 20
        invariant 0 <= i <= 20
        invariant forall k :: 0 <= k < i ==> digest[k] == BytesOfState(state[..])[k]
      {
        digest[i] := ByteAt(state[i / 4], 3 - i % 4);
        i := i + 1;
      }
      DigestIsOfState(state[..]);
    }

    /** One byte 0x80, and zero bytes up to the place of the count. */
    method Pad(ghost m: seq<Byte>)
      requires Absorbed(m)
      modifies this, state, buffer
      ensures Absorbed(m + [0x80] + Zeros(PaddingOf(|m|)))
    {
      Put(m, 0x80);
      ghost var k: nat := 0;
      assert m + [0x80] + Zeros(0) == m + [0x80];
      while count0 / 8 % 64 != 56
        invariant k <= PaddingOf(|m|) && Absorbed(m + [0x80] + Zeros(k))
        decreases PaddingOf(|m|) - k
      {
        NotPaddedYet(m, k);
        Put(m + [0x80] + Zeros(k), 0);
        ZeroMore(m + [0x80], k);
        k := k + 1;
      }
      NotPaddedYet(m, k);
    }

    /** `SHA1_Final`: the digest of all that was taken in, and nothing is left of it. */
    method Final(ghost m: seq<Byte>, digest: array<Byte>)
      requires Absorbed(m) && count1 == HighBits(|m|) && digest.Length == 20 && digest != buffer
      modifies this, state, buffer, digest
      ensures digest[..] == Hash(m)
      ensures count0 == count1 == 0 && (forall i :: 0 <= i < 5 ==> state[i] == 0) && forall i :: 0 <= i < 64 ==> buffer[i] == 0
    {
      hide Fold, RegsOf, LowBits, HighBits, NextHigh, CountBytes, DigestBytes;
      var count := WriteCount();
      ghost var p := m + [0x80] + Zeros(PaddingOf(|m|));
      assert count[..8] == LengthBytes(|m|);
      Pad(m);
      Update(p, count, 8);
      WriteDigest(digest);
      Wipe();
    }

    method Wipe()
      requires state.Length == 5 && buffer.Length == 64
      modifies this, state, buffer
      ensures count0 == count1 == 0 && (forall i :: 0 <= i < 5 ==> state[i] == 0) && forall i :: 0 <= i < 64 ==> buffer[i] == 0
    {
      count0, count1 := 0, 0;
      forall i | 0 <= i < 5 {
        state[i] := 0;
      }
      forall i | 0 <= i < 64 {
        buffer[i] := 0;
      }
    }
  }

  method TakePiece(c: Context, pieces: seq<array<Byte>>, ghost parts: seq<seq<Byte>>, i: nat)
    requires |parts| == |pieces| && i < |pieces| && Apart(pieces) && Untouched(pieces, parts, i)
    requires c.Absorbed(Concat(parts[..i])) && c.count1 == HighBits(|Concat(parts[..i])|)
    requires pieces[i].Length < TWO29 && c.buffer !in pieces
    modifies c, c.state, c.buffer, pieces[i]
    ensures c.Absorbed(Concat(parts[..i + 1])) && c.count1 == HighBits(|Concat(parts[..i + 1])|)
    ensures Untouched(pieces, parts, i + 1)
  {
    hide Fold, RegsOf, LowBits, HighBits, NextHigh;
    ghost var m := Concat(parts[..i]);
    assert parts[..i + 1][..i] == parts[..i];
    var p := pieces[i];
    assert p[..p.Length] == parts[i];
    HighIsRight(|m|, p.Length);
    assert c.count0 == LowBits(|m|);
    c.Update(m, p, p.Length);
  }

  /** A message that comes in pieces, none of 2^29 bytes or more: however it was cut, the
      digest is that of the whole. */
  method HashPieces(pieces: seq<array<Byte>>, digest: array<Byte>)
    requires digest.Length == 20 && Apart(pieces) && digest !in pieces
    requires forall i :: 0 <= i < |pieces| ==> pieces[i].Length < TWO29
    modifies digest, pieces
    ensures digest[..] == Hash(Concat(old(Contents(pieces))))
  {
    hide Fold, RegsOf, LowBits, HighBits, NextHigh, Hash, Context.Absorbed;
    var c := new Context();
    ghost var parts := Contents(pieces);
    var i := 0;
    ZeroBits();
    while i < |pieces|
      invariant 0 <= i <= |pieces| && c.Absorbed(Concat(parts[..i])) && c.count1 == HighBits(|Concat(parts[..i])|)
      invariant Untouched(pieces, parts, i)
    {
      TakePiece(c, pieces, parts, i);
      i := i + 1;
    }
    assert parts[..|pieces|] == parts;
    c.Final(Concat(parts), digest);
  }

}
