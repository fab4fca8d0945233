/** 32-bit words and the bytes they are made of, as the digests use them. */
module Words {
  type Word = bv32
  type Byte = bv8

  /** Rotation to the left, as the macros of src/sha1.c and src/md5.c write it. */
  function Rol(x: Word, n: Word): Word
    requires 0 < n < 32
  {
    (x << n) | (x >> (32 - n))
  }

  /** Addition modulo 2^32. */
  function Plus(x: Word, y: Word): Word {
    x + y
  }

  function Little(b: seq<Byte>): Word
    requires |b| == 4
  {
    LittleOf(b[0], b[1], b[2], b[3])
  }

  function Big(b: seq<Byte>): Word
    requires |b| == 4
  {
    BigOf(b[0], b[1], b[2], b[3])
  }

  /** The bytes of a word exchanged by two rotations (blk0 of src/sha1.c). */
  function Swapped(x: Word): Word {
    (Rol(x, 24) & 0xFF00_FF00) | (Rol(x, 8) & 0x00FF_00FF)
  }

  lemma {:induction false} RolBy24(x: Word)
    ensures Rol(x, 24) == (x << 24) | (x >> 8)
  {
  }

  lemma {:induction false} RolBy8(x: Word)
    ensures Rol(x, 8) == (x << 8) | (x >> 24)
  {
  }

  lemma {:induction false} SwapParts(x: Word)
    ensures (((x << 24) | (x >> 8)) & 0xFF00_FF00) | (((x << 8) | (x >> 24)) & 0x00FF_00FF)
      == (x << 24) | ((x & 0xFF00) << 8) | ((x >> 8) & 0xFF00) | (x >> 24)
  {
  }

  function Plainly(x: Word): Word {
    (x << 24) | ((x & 0xFF00) << 8) | ((x >> 8) & 0xFF00) | (x >> 24)
  }

  lemma {:induction false} SwapIsPlain(x: Word)
    ensures Swapped(x) == Plainly(x)
  {
    RolBy24(x);
    RolBy8(x);
    hide Rol;
    SwapParts(x);
  }

  function LittleOf(b0: Byte, b1: Byte, b2: Byte, b3: Byte): Word {
    (b0 as Word) | ((b1 as Word) << 8) | ((b2 as Word) << 16) | ((b3 as Word) << 24)
  }

  function BigOf(b0: Byte, b1: Byte, b2: Byte, b3: Byte): Word {
    ((b0 as Word) << 24) | ((b1 as Word) << 16) | ((b2 as Word) << 8) | (b3 as Word)
  }

  lemma {:induction false} SwapOfBytes(b0: Byte, b1: Byte, b2: Byte, b3: Byte)
    ensures Plainly(LittleOf(b0, b1, b2, b3)) == BigOf(b0, b1, b2, b3)
  {
  }

  /** On a machine that stores the low byte first, exchanging the bytes gives the word that
      the standard reads. */
  lemma {:induction false} SwappedIsBig(b: seq<Byte>)
    requires |b| == 4
    ensures Swapped(Little(b)) == Big(b)
  {
    hide LittleOf, BigOf, Swapped, Plainly;
    SwapIsPlain(Little(b));
    SwapOfBytes(b[0], b[1], b[2], b[3]);
  }

  /** Choice and majority as the standards write them. */
  function Ch(x: Word, y: Word, z: Word): Word {
    (x & y) | (!x & z)
  }

  function Maj(x: Word, y: Word, z: Word): Word {
    (x & y) | (x & z) | (y & z)
  }

  /** The same as the macros rewrite them. */
  function Chosen(x: Word, y: Word, z: Word): Word {
    z ^ (x & (y ^ z))
  }

  function Most(x: Word, y: Word, z: Word): Word {
    ((x | y) & z) | (x & y)
  }

  lemma {:induction false} ChosenIsChoice(x: Word, y: Word, z: Word)
    ensures Chosen(x, y, z) == Ch(x, y, z) && (x & (y ^ z)) ^ z == Ch(x, y, z)
  {
  }

  lemma {:induction false} MajorityBits(x: Word, y: Word, z: Word)
    ensures ((x | y) & z) | (x & y) == (x & y) | (x & z) | (y & z)
  {
  }

  lemma {:induction false} MostIsMajority(x: Word, y: Word, z: Word)
    ensures Most(x, y, z) == Maj(x, y, z)
  {
    MajorityBits(x, y, z);
  }

  /** Byte k of a word, counted from the low end. */
  function ByteAt(x: Word, k: nat): Byte
    requires k < 4
  {
    if k == 0 then (x & 0xFF) as Byte
    else if k == 1 then ((x >> 8) & 0xFF) as Byte
    else if k == 2 then ((x >> 16) & 0xFF) as Byte
    else ((x >> 24) & 0xFF) as Byte
  }

  function LittleBytes(x: Word): (b: seq<Byte>)
    ensures |b| == 4
  {
    [ByteAt(x, 0), ByteAt(x, 1), ByteAt(x, 2), ByteAt(x, 3)]
  }

  function BigBytes(x: Word): (b: seq<Byte>)
    ensures |b| == 4
  {
    [ByteAt(x, 3), ByteAt(x, 2), ByteAt(x, 1), ByteAt(x, 0)]
  }
}
