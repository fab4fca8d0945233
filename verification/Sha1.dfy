/** SHA-1 as FIPS 180-1 defines it (section 7), and the block transform of src/sha1.c:
    a schedule kept in sixteen words that are overwritten in place, and eighty rounds that
    rename the registers instead of moving them. */
module Sha1 {
  import opened Words

  datatype Regs = Regs(a: Word, b: Word, c: Word, d: Word, e: Word)

  function Parity(x: Word, y: Word, z: Word): Word {
    x ^ y ^ z
  }

  /** The functions f of section 5. */
  function F(t: nat, x: Word, y: Word, z: Word): Word {
    if t < 20 then Ch(x, y, z) else if t < 40 then Parity(x, y, z) else if t < 60 then Maj(x, y, z) else Parity(x, y, z)
  }

  /** The constants of section 6. */
  function K(t: nat): Word {
    if t < 20 then 0x5A82_7999 else if t < 40 then 0x6ED9_EBA1 else if t < 60 then 0x8F1B_BCDC else 0xCA62_C1D6
  }

  /** The eighty words of section 7, steps a and b. */
  function W(m: seq<Word>, t: nat): Word
    requires |m| == 16
  {
    if t < 16 then m[t] else Rol(W(m, t - 3) ^ W(m, t - 8) ^ W(m, t - 14) ^ W(m, t - 16), 1)
  }

  /** Step d. */
  function Temp(rot: Word, f: Word, e: Word, w: Word, k: Word): Word {
    rot + f + e + w + k
  }

  function Step(r: Regs, t: nat, w: Word): Regs {
    Regs(Temp(Rol(r.a, 5), F(t, r.b, r.c, r.d), r.e, w, K(t)), r.a, Rol(r.b, 30), r.c, r.d)
  }

  function Rounds(m: seq<Word>, h: Regs, t: nat): Regs
    requires |m| == 16
  {
    if t == 0 then h else Step(Rounds(m, h, t - 1), t - 1, W(m, t - 1))
  }

  function BigWords(b: seq<Byte>): (m: seq<Word>)
    requires |b| == 64
    ensures |m| == 16 && forall i :: 0 <= i < 16 ==> m[i] == Big(b[4 * i..4 * i + 4])
  {
    seq(16, i requires 0 <= i < 16 => Big(b[4 * i..4 * i + 4]))
  }

  /** Step e. */
  function Sum(h: Regs, r: Regs): Regs {
    Regs(Plus(h.a, r.a), Plus(h.b, r.b), Plus(h.c, r.c), Plus(h.d, r.d), Plus(h.e, r.e))
  }

  function Compress(h: Regs, block: seq<Byte>): Regs
    requires |block| == 64
  {
    Sum(h, Rounds(BigWords(block), h, 80))
  }

  // ------------------------------------------------------------- the transform

  /** The sixteen words before round i: the last sixteen of the schedule, except that the
      words of the block not used yet still have their bytes in the machine's order. */
  ghost predicate Window(l: seq<Word>, m: seq<Word>, i: nat)
    requires |m| == 16
  {
    && |l| == 16
    && (forall t :: 0 <= t < i && i <= t + 16 ==> l[t % 16] == W(m, t))
    && (forall t :: i <= t < 16 ==> Swapped(l[t]) == m[t])
  }

  /** blk0: the word's bytes are exchanged in place. */
  method Blk0(l: array<Word>, ghost m: seq<Word>, i: nat) returns (w: Word)
    requires l.Length == 16 && |m| == 16 && i < 16 && Window(l[..], m, i)
    modifies l
    ensures Window(l[..], m, i + 1) && w == W(m, i)
  {
    hide Swapped;
    l[i] := Swapped(l[i]);
    w := l[i];
  }

  /** The places that the macro reads. */
  lemma {:induction false} Places(i: nat)
    requires i >= 16
    ensures (i + 13) % 16 == (i - 3) % 16 && (i + 8) % 16 == (i - 8) % 16 && (i + 2) % 16 == (i - 14) % 16 && i % 16 == (i - 16) % 16
    ensures forall t :: i - 16 < t < i ==> t % 16 != i % 16
  {
  }

  /** blk: the next word of the schedule replaces the oldest. */
  method Blk(l: array<Word>, ghost m: seq<Word>, i: nat) returns (w: Word)
    requires l.Length == 16 && |m| == 16 && 16 <= i && Window(l[..], m, i)
    modifies l
    ensures Window(l[..], m, i + 1) && w == W(m, i)
  {
    hide Swapped, Rol;
    Places(i);
    w := Rol(l[(i + 13) % 16] ^ l[(i + 8) % 16] ^ l[(i + 2) % 16] ^ l[i % 16], 1);
    assert l[..][(i - 3) % 16] == W(m, i - 3);
    assert l[..][(i - 8) % 16] == W(m, i - 8);
    assert l[..][(i - 14) % 16] == W(m, i - 14);
    assert l[..][(i - 16) % 16] == W(m, i - 16);
    l[i % 16] := w;
  }

  /** Where the transform stands before round i: the registers, whatever their names, and
      the schedule are those of the standard. */
  ghost predicate Ready(l: array<Word>, m: seq<Word>, h: Regs, i: nat, r: Regs)
    reads l
  {
    l.Length == 16 && |m| == 16 && Window(l[..], m, i) && r == Rounds(m, h, i)
  }

  /** What a macro adds to a register. */
  function Gained(z: Word, f: Word, w: Word, k: Word, rot: Word): Word {
    z + (f + w + k + rot)
  }

  lemma {:induction false} GainedIsTemp(rot: Word, f: Word, z: Word, w: Word, k: Word)
    ensures Gained(z, f, w, k, rot) == Temp(rot, f, z, w, k)
  {
  }

  lemma {:induction false} FormsOfF(w: Word, x: Word, y: Word, i: nat)
    ensures i < 20 ==> F(i, w, x, y) == Chosen(w, x, y)
    ensures 20 <= i < 40 || 60 <= i ==> F(i, w, x, y) == Parity(w, x, y)
    ensures 40 <= i < 60 ==> F(i, w, x, y) == Most(w, x, y)
  {
    hide Ch, Maj, Chosen, Most, Parity;
    ChosenIsChoice(w, x, y);
    MostIsMajority(w, x, y);
  }

  // The macros: z is added to, w is rotated, and the next round uses the registers under
  // other names. What R0 and R1 add to z is the same.

  function Added0(v: Word, w: Word, x: Word, y: Word, z: Word, next: Word): Word {
    Gained(z, Chosen(w, x, y), next, 0x5A82_7999, Rol(v, 5))
  }

  lemma {:induction false} Added0IsStep(v: Word, w: Word, x: Word, y: Word, z: Word, next: Word, i: nat)
    requires 0 <= i < 20
    ensures Regs(Added0(v, w, x, y, z, next), v, Rol(w, 30), x, y) == Step(Regs(v, w, x, y, z), i, next)
  {
    FormsOfF(w, x, y, i);
    hide Rol, F, Chosen, Parity, Most, Gained, Temp;
    GainedIsTemp(Rol(v, 5), F(i, w, x, y), z, next, 0x5A82_7999);
  }

  method R0(l: array<Word>, ghost m: seq<Word>, ghost h: Regs, v: Word, w: Word, x: Word, y: Word, z: Word, i: nat)
    returns (z': Word, w': Word)
    requires 0 <= i < 16 && Ready(l, m, h, i, Regs(v, w, x, y, z))
    modifies l
    ensures Ready(l, m, h, i + 1, Regs(z', v, w', x, y))
  {
    hide Window, Rol, W, Added0, Step;
    var next := Blk0(l, m, i);
    z' := Added0(v, w, x, y, z, next);
    w' := Rol(w, 30);
    Added0IsStep(v, w, x, y, z, next, i);
  }

  method R1(l: array<Word>, ghost m: seq<Word>, ghost h: Regs, v: Word, w: Word, x: Word, y: Word, z: Word, i: nat)
    returns (z': Word, w': Word)
    requires 16 <= i < 20 && Ready(l, m, h, i, Regs(v, w, x, y, z))
    modifies l
    ensures Ready(l, m, h, i + 1, Regs(z', v, w', x, y))
  {
    hide Window, Rol, W, Added0, Step;
    var next := Blk(l, m, i);
    z' := Added0(v, w, x, y, z, next);
    w' := Rol(w, 30);
    Added0IsStep(v, w, x, y, z, next, i);
  }

  function Added2(v: Word, w: Word, x: Word, y: Word, z: Word, next: Word): Word {
    Gained(z, Parity(w, x, y), next, 0x6ED9_EBA1, Rol(v, 5))
  }

  lemma {:induction false} Added2IsStep(v: Word, w: Word, x: Word, y: Word, z: Word, next: Word, i: nat)
    requires 20 <= i < 40
    ensures Regs(Added2(v, w, x, y, z, next), v, Rol(w, 30), x, y) == Step(Regs(v, w, x, y, z), i, next)
  {
    FormsOfF(w, x, y, i);
    hide Rol, F, Chosen, Parity, Most, Gained, Temp;
    GainedIsTemp(Rol(v, 5), F(i, w, x, y), z, next, 0x6ED9_EBA1);
  }

  method R2(l: array<Word>, ghost m: seq<Word>, ghost h: Regs, v: Word, w: Word, x: Word, y: Word, z: Word, i: nat)
    returns (z': Word, w': Word)
    requires 20 <= i < 40 && Ready(l, m, h, i, Regs(v, w, x, y, z))
    modifies l
    ensures Ready(l, m, h, i + 1, Regs(z', v, w', x, y))
  {
    hide Window, Rol, W, Added2, Step;
    var next := Blk(l, m, i);
    z' := Added2(v, w, x, y, z, next);
    w' := Rol(w, 30);
    Added2IsStep(v, w, x, y, z, next, i);
  }

  function Added3(v: Word, w: Word, x: Word, y: Word, z: Word, next: Word): Word {
    Gained(z, Most(w, x, y), next, 0x8F1B_BCDC, Rol(v, 5))
  }

  lemma {:induction false} Added3IsStep(v: Word, w: Word, x: Word, y: Word, z: Word, next: Word, i: nat)
    requires 40 <= i < 60
    ensures Regs(Added3(v, w, x, y, z, next), v, Rol(w, 30), x, y) == Step(Regs(v, w, x, y, z), i, next)
  {
    FormsOfF(w, x, y, i);
    hide Rol, F, Chosen, Parity, Most, Gained, Temp;
    GainedIsTemp(Rol(v, 5), F(i, w, x, y), z, next, 0x8F1B_BCDC);
  }

  method R3(l: array<Word>, ghost m: seq<Word>, ghost h: Regs, v: Word, w: Word, x: Word, y: Word, z: Word, i: nat)
    returns (z': Word, w': Word)
    requires 40 <= i < 60 && Ready(l, m, h, i, Regs(v, w, x, y, z))
    modifies l
    ensures Ready(l, m, h, i + 1, Regs(z', v, w', x, y))
  {
    hide Window, Rol, W, Added3, Step;
    var next := Blk(l, m, i);
    z' := Added3(v, w, x, y, z, next);
    w' := Rol(w, 30);
    Added3IsStep(v, w, x, y, z, next, i);
  }

  function Added4(v: Word, w: Word, x: Word, y: Word, z: Word, next: Word): Word {
    Gained(z, Parity(w, x, y), next, 0xCA62_C1D6, Rol(v, 5))
  }

  lemma {:induction false} Added4IsStep(v: Word, w: Word, x: Word, y: Word, z: Word, next: Word, i: nat)
    requires 60 <= i < 80
    ensures Regs(Added4(v, w, x, y, z, next), v, Rol(w, 30), x, y) == Step(Regs(v, w, x, y, z), i, next)
  {
    FormsOfF(w, x, y, i);
    hide Rol, F, Chosen, Parity, Most, Gained, Temp;
    GainedIsTemp(Rol(v, 5), F(i, w, x, y), z, next, 0xCA62_C1D6);
  }

  method R4(l: array<Word>, ghost m: seq<Word>, ghost h: Regs, v: Word, w: Word, x: Word, y: Word, z: Word, i: nat)
    returns (z': Word, w': Word)
    requires 60 <= i < 80 && Ready(l, m, h, i, Regs(v, w, x, y, z))
    modifies l
    ensures Ready(l, m, h, i + 1, Regs(z', v, w', x, y))
  {
    hide Window, Rol, W, Added4, Step;
    var next := Blk(l, m, i);
    z' := Added4(v, w, x, y, z, next);
    w' := Rol(w, 30);
    Added4IsStep(v, w, x, y, z, next, i);
  }

  method Rounds0(l: array<Word>, ghost m: seq<Word>, ghost h: Regs, r: Regs) returns (r': Regs)
    requires Ready(l, m, h, 0, r)
    modifies l
    ensures Ready(l, m, h, 20, r')
  {
    hide Ready;
    var a, b, c, d, e := r.a, r.b, r.c, r.d, r.e;
    e, b := R0(l, m, h, a, b, c, d, e, 0);
    d, a := R0(l, m, h, e, a, b, c, d, 1);
    c, e := R0(l, m, h, d, e, a, b, c, 2);
    b, d := R0(l, m, h, c, d, e, a, b, 3);
    a, c := R0(l, m, h, b, c, d, e, a, 4);
    e, b := R0(l, m, h, a, b, c, d, e, 5);
    d, a := R0(l, m, h, e, a, b, c, d, 6);
    c, e := R0(l, m, h, d, e, a, b, c, 7);
    b, d := R0(l, m, h, c, d, e, a, b, 8);
    a, c := R0(l, m, h, b, c, d, e, a, 9);
    e, b := R0(l, m, h, a, b, c, d, e, 10);
    d, a := R0(l, m, h, e, a, b, c, d, 11);
    c, e := R0(l, m, h, d, e, a, b, c, 12);
    b, d := R0(l, m, h, c, d, e, a, b, 13);
    a, c := R0(l, m, h, b, c, d, e, a, 14);
    e, b := R0(l, m, h, a, b, c, d, e, 15);
    d, a := R1(l, m, h, e, a, b, c, d, 16);
    c, e := R1(l, m, h, d, e, a, b, c, 17);
    b, d := R1(l, m, h, c, d, e, a, b, 18);
    a, c := R1(l, m, h, b, c, d, e, a, 19);
    r' := Regs(a, b, c, d, e);
  }

  method Rounds20(l: array<Word>, ghost m: seq<Word>, ghost h: Regs, r: Regs) returns (r': Regs)
    requires Ready(l, m, h, 20, r)
    modifies l
    ensures Ready(l, m, h, 40, r')
  {
    hide Ready;
    var a, b, c, d, e := r.a, r.b, r.c, r.d, r.e;
    e, b := R2(l, m, h, a, b, c, d, e, 20);
    d, a := R2(l, m, h, e, a, b, c, d, 21);
    c, e := R2(l, m, h, d, e, a, b, c, 22);
    b, d := R2(l, m, h, c, d, e, a, b, 23);
    a, c := R2(l, m, h, b, c, d, e, a, 24);
    e, b := R2(l, m, h, a, b, c, d, e, 25);
    d, a := R2(l, m, h, e, a, b, c, d, 26);
    c, e := R2(l, m, h, d, e, a, b, c, 27);
    b, d := R2(l, m, h, c, d, e, a, b, 28);
    a, c := R2(l, m, h, b, c, d, e, a, 29);
    e, b := R2(l, m, h, a, b, c, d, e, 30);
    d, a := R2(l, m, h, e, a, b, c, d, 31);
    c, e := R2(l, m, h, d, e, a, b, c, 32);
    b, d := R2(l, m, h, c, d, e, a, b, 33);
    a, c := R2(l, m, h, b, c, d, e, a, 34);
    e, b := R2(l, m, h, a, b, c, d, e, 35);
    d, a := R2(l, m, h, e, a, b, c, d, 36);
    c, e := R2(l, m, h, d, e, a, b, c, 37);
    b, d := R2(l, m, h, c, d, e, a, b, 38);
    a, c := R2(l, m, h, b, c, d, e, a, 39);
    r' := Regs(a, b, c, d, e);
  }

  method Rounds40(l: array<Word>, ghost m: seq<Word>, ghost h: Regs, r: Regs) returns (r': Regs)
    requires Ready(l, m, h, 40, r)
    modifies l
    ensures Ready(l, m, h, 60, r')
  {
    hide Ready;
    var a, b, c, d, e := r.a, r.b, r.c, r.d, r.e;
    e, b := R3(l, m, h, a, b, c, d, e, 40);
    d, a := R3(l, m, h, e, a, b, c, d, 41);
    c, e := R3(l, m, h, d, e, a, b, c, 42);
    b, d := R3(l, m, h, c, d, e, a, b, 43);
    a, c := R3(l, m, h, b, c, d, e, a, 44);
    e, b := R3(l, m, h, a, b, c, d, e, 45);
    d, a := R3(l, m, h, e, a, b, c, d, 46);
    c, e := R3(l, m, h, d, e, a, b, c, 47);
    b, d := R3(l, m, h, c, d, e, a, b, 48);
    a, c := R3(l, m, h, b, c, d, e, a, 49);
    e, b := R3(l, m, h, a, b, c, d, e, 50);
    d, a := R3(l, m, h, e, a, b, c, d, 51);
    c, e := R3(l, m, h, d, e, a, b, c, 52);
    b, d := R3(l, m, h, c, d, e, a, b, 53);
    a, c := R3(l, m, h, b, c, d, e, a, 54);
    e, b := R3(l, m, h, a, b, c, d, e, 55);
    d, a := R3(l, m, h, e, a, b, c, d, 56);
    c, e := R3(l, m, h, d, e, a, b, c, 57);
    b, d := R3(l, m, h, c, d, e, a, b, 58);
    a, c := R3(l, m, h, b, c, d, e, a, 59);
    r' := Regs(a, b, c, d, e);
  }

  method Rounds60(l: array<Word>, ghost m: seq<Word>, ghost h: Regs, r: Regs) returns (r': Regs)
    requires Ready(l, m, h, 60, r)
    modifies l
    ensures Ready(l, m, h, 80, r')
  {
    hide Ready;
    var a, b, c, d, e := r.a, r.b, r.c, r.d, r.e;
    e, b := R4(l, m, h, a, b, c, d, e, 60);
    d, a := R4(l, m, h, e, a, b, c, d, 61);
    c, e := R4(l, m, h, d, e, a, b, c, 62);
    b, d := R4(l, m, h, c, d, e, a, b, 63);
    a, c := R4(l, m, h, b, c, d, e, a, 64);
    e, b := R4(l, m, h, a, b, c, d, e, 65);
    d, a := R4(l, m, h, e, a, b, c, d, 66);
    c, e := R4(l, m, h, d, e, a, b, c, 67);
    b, d := R4(l, m, h, c, d, e, a, b, 68);
    a, c := R4(l, m, h, b, c, d, e, a, 69);
    e, b := R4(l, m, h, a, b, c, d, e, 70);
    d, a := R4(l, m, h, e, a, b, c, d, 71);
    c, e := R4(l, m, h, d, e, a, b, c, 72);
    b, d := R4(l, m, h, c, d, e, a, b, 73);
    a, c := R4(l, m, h, b, c, d, e, a, 74);
    e, b := R4(l, m, h, a, b, c, d, e, 75);
    d, a := R4(l, m, h, e, a, b, c, d, 76);
    c, e := R4(l, m, h, d, e, a, b, c, 77);
    b, d := R4(l, m, h, c, d, e, a, b, 78);
    a, c := R4(l, m, h, b, c, d, e, a, 79);
    r' := Regs(a, b, c, d, e);
  }

  /** The sixteen words that a union with 64 bytes shows on a machine that stores the low
      byte first. */
  function LittleWords(b: seq<Byte>): (l: seq<Word>)
    requires |b| == 64
    ensures |l| == 16 && forall i :: 0 <= i < 16 ==> l[i] == Little(b[4 * i..4 * i + 4])
  {
    seq(16, i requires 0 <= i < 16 => Little(b[4 * i..4 * i + 4]))
  }

  lemma {:induction false} FirstWindow(b: seq<Byte>)
    requires |b| == 64
    ensures Window(LittleWords(b), BigWords(b), 0)
  {
    hide Little, Big, Swapped;
    forall t | 0 <= t < 16 ensures Swapped(LittleWords(b)[t]) == BigWords(b)[t] {
      SwappedIsBig(b[4 * t..4 * t + 4]);
    }
  }

  function RegsOf(state: seq<Word>): Regs
    requires |state| == 5
  {
    Regs(state[0], state[1], state[2], state[3], state[4])
  }

  /** The words of the union are loaded. */
  method Load(buffer: array<Byte>, at: nat) returns (l: array<Word>)
    requires at + 64 <= buffer.Length
    ensures fresh(l) && l.Length == 16 && l[..] == LittleWords(buffer[at..at + 64])
  {
    hide Little;
    l := new Word[16];
    ghost var b := buffer[at..at + 64];
    var i := 0;
    while i < 16
      invariant 0 <= i <= 16
      invariant forall k :: 0 <= k < i ==> l[k] == LittleWords(b)[k]
    {
      assert buffer[at + 4 * i..at + 4 * i + 4] == b[4 * i..4 * i + 4];
      l[i] := Little(buffer[at + 4 * i..at + 4 * i + 4]);
      i := i + 1;
    }
  }

  /** What the bytes of the union are when its words were written. */
  function LittleImage(l: seq<Word>): (b: seq<Byte>)
    requires |l| == 16
    ensures |b| == 64
  {
    seq(64, i requires 0 <= i < 64 => ByteAt(l[i / 4], i % 4))
  }

  method Store(l: array<Word>, buffer: array<Byte>, at: nat)
    requires l.Length == 16 && at + 64 <= buffer.Length
    modifies buffer
    ensures buffer[..] == old(buffer[..at]) + LittleImage(l[..]) + old(buffer[at + 64..])
  {
    hide ByteAt;
    var i := 0;
    while i < 64
      invariant 0 <= i <= 64
      invariant forall k :: 0 <= k < i ==> buffer[at + k] == LittleImage(l[..])[k]
      invariant forall k :: 0 <= k < buffer.Length && !(at <= k < at + i) ==> buffer[k] == old(buffer[k])
    {
      buffer[at + i] := ByteAt(l[i / 4], i % 4);
      i := i + 1;
    }
  }

  /** The last sixteen words of the schedule: what is left in the block. */
  function Spoils(block: seq<Byte>): (b: seq<Byte>)
    requires |block| == 64
    ensures |b| == 64
  {
    LittleImage(seq(16, i requires 0 <= i < 16 => W(BigWords(block), 64 + i)))
  }

  lemma {:induction false} LastWindow(l: seq<Word>, m: seq<Word>)
    requires |m| == 16 && Window(l, m, 80)
    ensures l == seq(16, i requires 0 <= i < 16 => W(m, 64 + i))
  {
    hide W;
    forall i | 0 <= i < 16 ensures l[i] == W(m, 64 + i) {
      assert (64 + i) % 16 == i;
    }
  }

  /** The eighty rounds, from the words of the block and the state. */
  method AllRounds(l: array<Word>, ghost b: seq<Byte>, h: Regs) returns (r: Regs)
    requires l.Length == 16 && |b| == 64 && l[..] == LittleWords(b)
    modifies l
    ensures r == Rounds(BigWords(b), h, 80)
    ensures l[..] == seq(16, i requires 0 <= i < 16 => W(BigWords(b), 64 + i))
  {
    ghost var m := BigWords(b);
    FirstWindow(b);
    assert Ready(l, m, h, 0, h);
    hide Window, W, LittleWords, BigWords;
    r := Rounds0(l, m, h, h);
    r := Rounds20(l, m, h, r);
    r := Rounds40(l, m, h, r);
    r := Rounds60(l, m, h, r);
    LastWindow(l[..], m);
  }

  /** The registers are added to the state. */
  method AddBack(state: array<Word>, r: Regs)
    requires state.Length == 5
    modifies state
    ensures RegsOf(state[..]) == Sum(old(RegsOf(state[..])), r)
  {
    hide Plus;
    state[0] := Plus(state[0], r.a);
    state[1] := Plus(state[1], r.b);
    state[2] := Plus(state[2], r.c);
    state[3] := Plus(state[3], r.d);
    state[4] := Plus(state[4], r.e);
  }

  /** `SHA1_Transform`: the state is compressed with the block, and the block is lost. */
  method Transform(state: array<Word>, buffer: array<Byte>, at: nat)
    requires state.Length == 5 && at + 64 <= buffer.Length
    modifies state, buffer
    ensures RegsOf(state[..]) == Compress(old(RegsOf(state[..])), old(buffer[at..at + 64]))
    ensures buffer[..] == old(buffer[..at]) + Spoils(old(buffer[at..at + 64])) + old(buffer[at + 64..])
  {
    hide W, LittleImage, Rounds, LittleWords, BigWords, Sum, RegsOf;
    var h := RegsOf(state[..]);
    var l := Load(buffer, at);
    var r := AllRounds(l, buffer[at..at + 64], h);
    Store(l, buffer, at);
    AddBack(state, r);
  }
}
