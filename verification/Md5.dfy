/** MD5 as RFC 1321 defines it (section 3.4), and the block transform of src/md5.c: sixty-four
    steps that rename the registers instead of moving them, with two of the four functions
    rewritten. */
module Md5 {
  import opened Words

  datatype Regs = Regs(a: Word, b: Word, c: Word, d: Word)

  function G(x: Word, y: Word, z: Word): Word {
    (x & z) | (y & !z)
  }

  function H(x: Word, y: Word, z: Word): Word {
    x ^ y ^ z
  }

  function I(x: Word, y: Word, z: Word): Word {
    y ^ (x | !z)
  }

  /** The function of step i: F, G, H and I, for sixteen steps each. */
  function F(i: nat, x: Word, y: Word, z: Word): Word {
    if i < 16 then Ch(x, y, z) else if i < 32 then G(x, y, z) else if i < 48 then H(x, y, z) else I(x, y, z)
  }

  /** Which word of the block step i adds. */
  function X(i: nat): (k: nat)
    ensures k < 16
  {
    if i < 16 then i else if i < 32 then (1 + 5 * i) % 16 else if i < 48 then (5 + 3 * i) % 16 else 7 * i % 16
  }

  /** By how much step i rotates. */
  function S(i: nat): (s: Word)
    ensures 0 < s < 32
  {
    var k := i % 4;
    if i < 16 then (if k == 0 then 7 else if k == 1 then 12 else if k == 2 then 17 else 22)
    else if i < 32 then (if k == 0 then 5 else if k == 1 then 9 else if k == 2 then 14 else 20)
    else if i < 48 then (if k == 0 then 4 else if k == 1 then 11 else if k == 2 then 16 else 23)
    else (if k == 0 then 6 else if k == 1 then 10 else if k == 2 then 15 else 21)
  }

  function T0(k: nat): Word {
    match k
    case 0 => 0xD76A_A478
    case 1 => 0xE8C7_B756
    case 2 => 0x2420_70DB
    case 3 => 0xC1BD_CEEE
    case 4 => 0xF57C_0FAF
    case 5 => 0x4787_C62A
    case 6 => 0xA830_4613
    case 7 => 0xFD46_9501
    case _ => 0
  }

  function T8(k: nat): Word {
    match k
    case 0 => 0x6980_98D8
    case 1 => 0x8B44_F7AF
    case 2 => 0xFFFF_5BB1
    case 3 => 0x895C_D7BE
    case 4 => 0x6B90_1122
    case 5 => 0xFD98_7193
    case 6 => 0xA679_438E
    case 7 => 0x49B4_0821
    case _ => 0
  }

  function T16(k: nat): Word {
    match k
    case 0 => 0xF61E_2562
    case 1 => 0xC040_B340
    case 2 => 0x265E_5A51
    case 3 => 0xE9B6_C7AA
    case 4 => 0xD62F_105D
    case 5 => 0x0244_1453
    case 6 => 0xD8A1_E681
    case 7 => 0xE7D3_FBC8
    case _ => 0
  }

  function T24(k: nat): Word {
    match k
    case 0 => 0x21E1_CDE6
    case 1 => 0xC337_07D6
    case 2 => 0xF4D5_0D87
    case 3 => 0x455A_14ED
    case 4 => 0xA9E3_E905
    case 5 => 0xFCEF_A3F8
    case 6 => 0x676F_02D9
    case 7 => 0x8D2A_4C8A
    case _ => 0
  }

  function T32(k: nat): Word {
    match k
    case 0 => 0xFFFA_3942
    case 1 => 0x8771_F681
    case 2 => 0x6D9D_6122
    case 3 => 0xFDE5_380C
    case 4 => 0xA4BE_EA44
    case 5 => 0x4BDE_CFA9
    case 6 => 0xF6BB_4B60
    case 7 => 0xBEBF_BC70
    case _ => 0
  }

  function T40(k: nat): Word {
    match k
    case 0 => 0x289B_7EC6
    case 1 => 0xEAA1_27FA
    case 2 => 0xD4EF_3085
    case 3 => 0x0488_1D05
    case 4 => 0xD9D4_D039
    case 5 => 0xE6DB_99E5
    case 6 => 0x1FA2_7CF8
    case 7 => 0xC4AC_5665
    case _ => 0
  }

  function T48(k: nat): Word {
    match k
    case 0 => 0xF429_2244
    case 1 => 0x432A_FF97
    case 2 => 0xAB94_23A7
    case 3 => 0xFC93_A039
    case 4 => 0x655B_59C3
    case 5 => 0x8F0C_CC92
    case 6 => 0xFFEF_F47D
    case 7 => 0x8584_5DD1
    case _ => 0
  }

  function T56(k: nat): Word {
    match k
    case 0 => 0x6FA8_7E4F
    case 1 => 0xFE2C_E6E0
    case 2 => 0xA301_4314
    case 3 => 0x4E08_11A1
    case 4 => 0xF753_7E82
    case 5 => 0xBD3A_F235
    case 6 => 0x2AD7_D2BB
    case 7 => 0xEB86_D391
    case _ => 0
  }

  /** The table T of section 3.4, eight entries at a time. */
  function T(i: nat): Word {
    if i < 8 then T0(i) else if i < 16 then T8(i - 8) else if i < 24 then T16(i - 16) else if i < 32 then T24(i - 24)
    else if i < 40 then T32(i - 32) else if i < 48 then T40(i - 40) else if i < 56 then T48(i - 48) else T56(i - 56)
  }

  /** a + F(b,c,d) + X[k] + T[i]. */
  function Added(a: Word, f: Word, x: Word, t: Word): Word {
    a + f + x + t
  }

  /** A step: the registers move on by one place. */
  function Step(r: Regs, i: nat, x: Word): Regs {
    Regs(r.d, Plus(r.b, Rol(Added(r.a, F(i, r.b, r.c, r.d), x, T(i)), S(i))), r.b, r.c)
  }

  function Steps(m: seq<Word>, h: Regs, i: nat): Regs
    requires |m| == 16
  {
    if i == 0 then h else Step(Steps(m, h, i - 1), i - 1, m[X(i - 1)])
  }

  function Sum(h: Regs, r: Regs): Regs {
    Regs(Plus(h.a, r.a), Plus(h.b, r.b), Plus(h.c, r.c), Plus(h.d, r.d))
  }

  function WordsOf(b: seq<Byte>): (m: seq<Word>)
    requires |b| == 64
    ensures |m| == 16 && forall i :: 0 <= i < 16 ==> m[i] == Little(b[4 * i..4 * i + 4])
  {
    seq(16, i requires 0 <= i < 16 => Little(b[4 * i..4 * i + 4]))
  }

  function Compress(h: Regs, block: seq<Byte>): Regs
    requires |block| == 64
  {
    Sum(h, Steps(WordsOf(block), h, 64))
  }

  // ------------------------------------------------------------- the transform

  /** F2 is F1 with its arguments turned. */
  lemma {:induction false} TurnedIsG(x: Word, y: Word, z: Word)
    ensures Chosen(z, x, y) == G(x, y, z)
  {
    ChosenIsChoice(z, x, y);
    hide Chosen;
  }

  /** The functions of the code, step by step, are those of the standard. */
  function CodeF(i: nat, x: Word, y: Word, z: Word): Word {
    if i < 16 then Chosen(x, y, z) else if i < 32 then Chosen(z, x, y) else if i < 48 then H(x, y, z) else I(x, y, z)
  }

  lemma {:induction false} CodeIsF(i: nat, x: Word, y: Word, z: Word)
    ensures CodeF(i, x, y, z) == F(i, x, y, z)
  {
    hide Ch, Chosen, G, H, I;
    ChosenIsChoice(x, y, z);
    TurnedIsG(x, y, z);
  }

  /** w += f + data. */
  function Gained(w: Word, f: Word, x: Word, t: Word): Word {
    w + (f + (x + t))
  }

  lemma {:induction false} GainedIsAdded(w: Word, f: Word, x: Word, t: Word)
    ensures Gained(w, f, x, t) == Added(w, f, x, t)
  {
  }

  /** MD5STEP: the register that is added to takes the place of the next one. */
  method Md5Step(m: seq<Word>, ghost h: Regs, w: Word, x: Word, y: Word, z: Word, i: nat, k: nat, t: Word, s: Word) returns (w': Word)
    requires |m| == 16 && Regs(w, x, y, z) == Steps(m, h, i) && k == X(i) && t == T(i) && s == S(i)
    ensures Regs(z, w', x, y) == Steps(m, h, i + 1)
  {
    hide T, X, S, F, CodeF, Plus, Rol, Gained, Added;
    var f := CodeF(i, x, y, z);
    CodeIsF(i, x, y, z);
    GainedIsAdded(w, f, m[k], t);
    w' := Gained(w, f, m[k], t);
    w' := Rol(w', s);
    w' := Plus(x, w');
  }

  method Round1a(m: seq<Word>, ghost h: Regs, r: Regs) returns (r': Regs)
    requires |m| == 16 && r == Steps(m, h, 0)
    ensures r' == Steps(m, h, 8)
  {
    hide Steps;
    var a, b, c, d := r.a, r.b, r.c, r.d;
    a := Md5Step(m, h, a, b, c, d, 0, 0, 0xD76A_A478, 7);
    d := Md5Step(m, h, d, a, b, c, 1, 1, 0xE8C7_B756, 12);
    c := Md5Step(m, h, c, d, a, b, 2, 2, 0x2420_70DB, 17);
    b := Md5Step(m, h, b, c, d, a, 3, 3, 0xC1BD_CEEE, 22);
    a := Md5Step(m, h, a, b, c, d, 4, 4, 0xF57C_0FAF, 7);
    d := Md5Step(m, h, d, a, b, c, 5, 5, 0x4787_C62A, 12);
    c := Md5Step(m, h, c, d, a, b, 6, 6, 0xA830_4613, 17);
    b := Md5Step(m, h, b, c, d, a, 7, 7, 0xFD46_9501, 22);
    r' := Regs(a, b, c, d);
  }

  method Round1b(m: seq<Word>, ghost h: Regs, r: Regs) returns (r': Regs)
    requires |m| == 16 && r == Steps(m, h, 8)
    ensures r' == Steps(m, h, 16)
  {
    hide Steps;
    var a, b, c, d := r.a, r.b, r.c, r.d;
    a := Md5Step(m, h, a, b, c, d, 8, 8, 0x6980_98D8, 7);
    d := Md5Step(m, h, d, a, b, c, 9, 9, 0x8B44_F7AF, 12);
    c := Md5Step(m, h, c, d, a, b, 10, 10, 0xFFFF_5BB1, 17);
    b := Md5Step(m, h, b, c, d, a, 11, 11, 0x895C_D7BE, 22);
    a := Md5Step(m, h, a, b, c, d, 12, 12, 0x6B90_1122, 7);
    d := Md5Step(m, h, d, a, b, c, 13, 13, 0xFD98_7193, 12);
    c := Md5Step(m, h, c, d, a, b, 14, 14, 0xA679_438E, 17);
    b := Md5Step(m, h, b, c, d, a, 15, 15, 0x49B4_0821, 22);
    r' := Regs(a, b, c, d);
  }

  method Round2a(m: seq<Word>, ghost h: Regs, r: Regs) returns (r': Regs)
    requires |m| == 16 && r == Steps(m, h, 16)
    ensures r' == Steps(m, h, 24)
  {
    hide Steps;
    var a, b, c, d := r.a, r.b, r.c, r.d;
    a := Md5Step(m, h, a, b, c, d, 16, 1, 0xF61E_2562, 5);
    d := Md5Step(m, h, d, a, b, c, 17, 6, 0xC040_B340, 9);
    c := Md5Step(m, h, c, d, a, b, 18, 11, 0x265E_5A51, 14);
    b := Md5Step(m, h, b, c, d, a, 19, 0, 0xE9B6_C7AA, 20);
    a := Md5Step(m, h, a, b, c, d, 20, 5, 0xD62F_105D, 5);
    d := Md5Step(m, h, d, a, b, c, 21, 10, 0x0244_1453, 9);
    c := Md5Step(m, h, c, d, a, b, 22, 15, 0xD8A1_E681, 14);
    b := Md5Step(m, h, b, c, d, a, 23, 4, 0xE7D3_FBC8, 20);
    r' := Regs(a, b, c, d);
  }

  method Round2b(m: seq<Word>, ghost h: Regs, r: Regs) returns (r': Regs)
    requires |m| == 16 && r == Steps(m, h, 24)
    ensures r' == Steps(m, h, 32)
  {
    hide Steps;
    var a, b, c, d := r.a, r.b, r.c, r.d;
    a := Md5Step(m, h, a, b, c, d, 24, 9, 0x21E1_CDE6, 5);
    d := Md5Step(m, h, d, a, b, c, 25, 14, 0xC337_07D6, 9);
    c := Md5Step(m, h, c, d, a, b, 26, 3, 0xF4D5_0D87, 14);
    b := Md5Step(m, h, b, c, d, a, 27, 8, 0x455A_14ED, 20);
    a := Md5Step(m, h, a, b, c, d, 28, 13, 0xA9E3_E905, 5);
    d := Md5Step(m, h, d, a, b, c, 29, 2, 0xFCEF_A3F8, 9);
    c := Md5Step(m, h, c, d, a, b, 30, 7, 0x676F_02D9, 14);
    b := Md5Step(m, h, b, c, d, a, 31, 12, 0x8D2A_4C8A, 20);
    r' := Regs(a, b, c, d);
  }

  method Round3a(m: seq<Word>, ghost h: Regs, r: Regs) returns (r': Regs)
    requires |m| == 16 && r == Steps(m, h, 32)
    ensures r' == Steps(m, h, 40)
  {
    hide Steps;
    var a, b, c, d := r.a, r.b, r.c, r.d;
    a := Md5Step(m, h, a, b, c, d, 32, 5, 0xFFFA_3942, 4);
    d := Md5Step(m, h, d, a, b, c, 33, 8, 0x8771_F681, 11);
    c := Md5Step(m, h, c, d, a, b, 34, 11, 0x6D9D_6122, 16);
    b := Md5Step(m, h, b, c, d, a, 35, 14, 0xFDE5_380C, 23);
    a := Md5Step(m, h, a, b, c, d, 36, 1, 0xA4BE_EA44, 4);
    d := Md5Step(m, h, d, a, b, c, 37, 4, 0x4BDE_CFA9, 11);
    c := Md5Step(m, h, c, d, a, b, 38, 7, 0xF6BB_4B60, 16);
    b := Md5Step(m, h, b, c, d, a, 39, 10, 0xBEBF_BC70, 23);
    r' := Regs(a, b, c, d);
  }

  method Round3b(m: seq<Word>, ghost h: Regs, r: Regs) returns (r': Regs)
    requires |m| == 16 && r == Steps(m, h, 40)
    ensures r' == Steps(m, h, 48)
  {
    hide Steps;
    var a, b, c, d := r.a, r.b, r.c, r.d;
    a := Md5Step(m, h, a, b, c, d, 40, 13, 0x289B_7EC6, 4);
    d := Md5Step(m, h, d, a, b, c, 41, 0, 0xEAA1_27FA, 11);
    c := Md5Step(m, h, c, d, a, b, 42, 3, 0xD4EF_3085, 16);
    b := Md5Step(m, h, b, c, d, a, 43, 6, 0x0488_1D05, 23);
    a := Md5Step(m, h, a, b, c, d, 44, 9, 0xD9D4_D039, 4);
    d := Md5Step(m, h, d, a, b, c, 45, 12, 0xE6DB_99E5, 11);
    c := Md5Step(m, h, c, d, a, b, 46, 15, 0x1FA2_7CF8, 16);
    b := Md5Step(m, h, b, c, d, a, 47, 2, 0xC4AC_5665, 23);
    r' := Regs(a, b, c, d);
  }

  method Round4a(m: seq<Word>, ghost h: Regs, r: Regs) returns (r': Regs)
    requires |m| == 16 && r == Steps(m, h, 48)
    ensures r' == Steps(m, h, 56)
  {
    hide Steps;
    var a, b, c, d := r.a, r.b, r.c, r.d;
    a := Md5Step(m, h, a, b, c, d, 48, 0, 0xF429_2244, 6);
    d := Md5Step(m, h, d, a, b, c, 49, 7, 0x432A_FF97, 10);
    c := Md5Step(m, h, c, d, a, b, 50, 14, 0xAB94_23A7, 15);
    b := Md5Step(m, h, b, c, d, a, 51, 5, 0xFC93_A039, 21);
    a := Md5Step(m, h, a, b, c, d, 52, 12, 0x655B_59C3, 6);
    d := Md5Step(m, h, d, a, b, c, 53, 3, 0x8F0C_CC92, 10);
    c := Md5Step(m, h, c, d, a, b, 54, 10, 0xFFEF_F47D, 15);
    b := Md5Step(m, h, b, c, d, a, 55, 1, 0x8584_5DD1, 21);
    r' := Regs(a, b, c, d);
  }

  method Round4b(m: seq<Word>, ghost h: Regs, r: Regs) returns (r': Regs)
    requires |m| == 16 && r == Steps(m, h, 56)
    ensures r' == Steps(m, h, 64)
  {
    hide Steps;
    var a, b, c, d := r.a, r.b, r.c, r.d;
    a := Md5Step(m, h, a, b, c, d, 56, 8, 0x6FA8_7E4F, 6);
    d := Md5Step(m, h, d, a, b, c, 57, 15, 0xFE2C_E6E0, 10);
    c := Md5Step(m, h, c, d, a, b, 58, 6, 0xA301_4314, 15);
    b := Md5Step(m, h, b, c, d, a, 59, 13, 0x4E08_11A1, 21);
    a := Md5Step(m, h, a, b, c, d, 60, 4, 0xF753_7E82, 6);
    d := Md5Step(m, h, d, a, b, c, 61, 11, 0xBD3A_F235, 10);
    c := Md5Step(m, h, c, d, a, b, 62, 2, 0x2AD7_D2BB, 15);
    b := Md5Step(m, h, b, c, d, a, 63, 9, 0xEB86_D391, 21);
    r' := Regs(a, b, c, d);
  }

  /** The sixteen words of a block. */
  method Load(inext: array<Byte>) returns (m: seq<Word>)
    requires inext.Length == 64
    ensures |m| == 16 && m == WordsOf(inext[..])
  {
    hide Little;
    var words := new Word[16];
    var i := 0;
    while i < 16
      invariant 0 <= i <= 16
      invariant forall k :: 0 <= k < i ==> words[k] == WordsOf(inext[..])[k]
    {
      assert inext[4 * i..4 * i + 4] == inext[..][4 * i..4 * i + 4];
      words[i] := Little(inext[4 * i..4 * i + 4]);
      i := i + 1;
    }
    m := words[..];
  }

  function RegsOf(buf: seq<Word>): Regs
    requires |buf| == 4
  {
    Regs(buf[0], buf[1], buf[2], buf[3])
  }

  method AddBack(buf: array<Word>, r: Regs)
    requires buf.Length == 4
    modifies buf
    ensures RegsOf(buf[..]) == Sum(old(RegsOf(buf[..])), r)
  {
    hide Plus;
    buf[0] := Plus(buf[0], r.a);
    buf[1] := Plus(buf[1], r.b);
    buf[2] := Plus(buf[2], r.c);
    buf[3] := Plus(buf[3], r.d);
  }

  /** `MD5Transform`. */
  method Transform(buf: array<Word>, inext: array<Byte>)
    requires buf.Length == 4 && inext.Length == 64
    modifies buf
    ensures RegsOf(buf[..]) == Compress(old(RegsOf(buf[..])), inext[..])
  {
    hide WordsOf, RegsOf, Sum;
    var h := RegsOf(buf[..]);
    var m := Load(inext);
    assert Steps(m, h, 0) == h;
    hide Steps;
    var r := Round1a(m, h, h);
    r := Round1b(m, h, r);
    r := Round2a(m, h, r);
    r := Round2b(m, h, r);
    r := Round3a(m, h, r);
    r := Round3b(m, h, r);
    r := Round4a(m, h, r);
    r := Round4b(m, h, r);
    AddBack(buf, r);
  }
}
