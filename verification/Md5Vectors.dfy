/** The known answer of appendix A.5 of RFC 1321: MD5 of the text "abc". */
module Md5Vectors {
  import opened Words
  import opened Narrowing
  import opened Md5
  import opened Streams
  import opened Md5Contexts

  const ABC: seq<Byte> := [0x61, 0x62, 0x63]

  /** The block that the text is padded to. */
  predicate AbcBlock(m: seq<Word>) {
    |m| == 16 && m[0] == 0x80636261 && m[14] == 24 && forall k :: 0 <= k < 16 && k != 0 && k != 14 ==> m[k] == 0
  }

  /** One step on known registers: the one that is computed is known. */
  lemma {:induction false} Advance(m: seq<Word>, i: nat, k: nat, a: Word, b: Word, c: Word, d: Word, x: Word,
                                       f: Word, sum: Word, e: Word)
    requires |m| == 16 && k < 16 && Steps(m, START, i) == Regs(a, b, c, d) && X(i) == k && m[k] == x
    requires F(i, b, c, d) == f && Added(a, f, x, T(i)) == sum && Plus(b, Rol(sum, S(i))) == e
    ensures Steps(m, START, i + 1) == Regs(d, e, b, c)
  {
    hide F, X, S, T, Plus, Rol, Added;
  }

  lemma {:induction false} To8(m: seq<Word>)
    requires AbcBlock(m)
    ensures Steps(m, START, 8) == Regs(0xC73741EF, 0x928D99F6, 0x207DC67B, 0x8BAC3051)
  {
    assert Steps(m, START, 0) == Regs(0x67452301, 0xEFCDAB89, 0x98BADCFE, 0x10325476);
    hide Steps;
    Advance(m, 0, 0, 0x67452301, 0xEFCDAB89, 0x98BADCFE, 0x10325476, 0x80636261, 0x98BADCFE, 0x57CE06D8, 0xD6D117B4);
    Advance(m, 1, 1, 0x10325476, 0xD6D117B4, 0xEFCDAB89, 0x98BADCFE, 0, 0xCEEBCBCA, 0xC7E5D796, 0x344A8432);
    Advance(m, 2, 2, 0x98BADCFE, 0x344A8432, 0xD6D117B4, 0xEFCDAB89, 0, 0xDFC52FB9, 0x9CA07D92, 0x2F6FBD72);
    Advance(m, 3, 3, 0xEFCDAB89, 0x2F6FBD72, 0x344A8432, 0xD6D117B4, 0, 0xF4DA86B6, 0xA666012D, 0x7AD956F2);
    Advance(m, 4, 4, 0xD6D117B4, 0x7AD956F2, 0x2F6FBD72, 0x344A8432, 0, 0x2E4B9472, 0xFA98BBD5, 0xC73741EF);
    Advance(m, 5, 5, 0x344A8432, 0xC73741EF, 0x7AD956F2, 0x2F6FBD72, 0, 0x6A59FCF2, 0xE62C474E, 0x8BAC3051);
    Advance(m, 6, 6, 0x2F6FBD72, 0x8BAC3051, 0xC73741EF, 0x7AD956F2, 0, 0xF37546E3, 0xCB154A68, 0x207DC67B);
    Advance(m, 7, 7, 0x7AD956F2, 0x207DC67B, 0x8BAC3051, 0xC73741EF, 0, 0xC72E01D5, 0x3F4DEDC8, 0x928D99F6);
  }

  lemma {:induction false} To16(m: seq<Word>)
    requires AbcBlock(m) && Steps(m, START, 8) == Regs(0xC73741EF, 0x928D99F6, 0x207DC67B, 0x8BAC3051)
    ensures Steps(m, START, 16) == Regs(0xDDA9B9A6, 0x72AFF2E0, 0xE396856B, 0xA1051895)
  {
    hide Steps;
    Advance(m, 8, 8, 0xC73741EF, 0x928D99F6, 0x207DC67B, 0x8BAC3051, 0, 0x092DA073, 0x39E57B3A, 0x854B3712);
    Advance(m, 9, 9, 0x8BAC3051, 0x854B3712, 0x928D99F6, 0x207DC67B, 0, 0xA03DD17B, 0xB72EF97B, 0x74E2F284);
    Advance(m, 10, 10, 0x207DC67B, 0x74E2F284, 0x854B3712, 0x928D99F6, 0, 0x864F3B72, 0xA6CC5D9E, 0x3020401C);
    Advance(m, 11, 11, 0x928D99F6, 0x3020401C, 0x74E2F284, 0x854B3712, 0, 0xB56B7706, 0xD155E8BA, 0x5ED49596);
    Advance(m, 12, 12, 0x854B3712, 0x5ED49596, 0x3020401C, 0x74E2F284, 0, 0x30226214, 0x20FDAA48, 0xDDA9B9A6);
    Advance(m, 13, 13, 0x74E2F284, 0xDDA9B9A6, 0x5ED49596, 0x3020401C, 0, 0x7C80D19E, 0xEEFC35B5, 0xA1051895);
    Advance(m, 14, 14, 0x3020401C, 0xA1051895, 0xDDA9B9A6, 0x5ED49596, 0x00000018, 0xDFD19D86, 0xB66B2148, 0xE396856B);
    Advance(m, 15, 15, 0x5ED49596, 0xE396856B, 0xA1051895, 0xDDA9B9A6, 0, 0xBD2D3885, 0x65B5D63C, 0x72AFF2E0);
  }

  lemma {:induction false} To24(m: seq<Word>)
    requires AbcBlock(m) && Steps(m, START, 16) == Regs(0xDDA9B9A6, 0x72AFF2E0, 0xE396856B, 0xA1051895)
    ensures Steps(m, START, 24) == Regs(0x59A8FFDA, 0x47092C07, 0xABFC7920, 0x6D002F1E)
  {
    hide Steps;
    Advance(m, 16, 1, 0xDDA9B9A6, 0x72AFF2E0, 0xE396856B, 0xA1051895, 0, 0x629795EA, 0x365F74F2, 0x3E9E9126);
    Advance(m, 17, 6, 0xA1051895, 0x3E9E9126, 0x72AFF2E0, 0xE396856B, 0, 0x32BFF3A2, 0x9405BF77, 0x4A1D804E);
    Advance(m, 18, 11, 0xE396856B, 0x4A1D804E, 0x3E9E9126, 0x72AFF2E0, 0, 0x4E1D8146, 0x58126102, 0xE25E1652);
    Advance(m, 19, 0, 0x72AFF2E0, 0xE25E1652, 0x4A1D804E, 0x3E9E9126, 0x80636261, 0x621F104A, 0x3EE92D35, 0xB5B204E4);
    Advance(m, 20, 5, 0x3E9E9126, 0xB5B204E4, 0xE25E1652, 0x4A1D804E, 0, 0xA0521654, 0xB51FB7D7, 0x59A8FFDA);
    Advance(m, 21, 10, 0x4A1D804E, 0x59A8FFDA, 0xB5B204E4, 0xE25E1652, 0, 0x55A816F6, 0xA209AB97, 0x6D002F1E);
    Advance(m, 22, 15, 0xE25E1652, 0x6D002F1E, 0x59A8FFDA, 0xB5B204E4, 0, 0x6D08FF1E, 0x2808FBF1, 0xABFC7920);
    Advance(m, 23, 4, 0xB5B204E4, 0xABFC7920, 0x6D002F1E, 0x59A8FFDA, 0, 0x2DA87904, 0xCB2E79B0, 0x47092C07);
  }

  lemma {:induction false} To32(m: seq<Word>)
    requires AbcBlock(m) && Steps(m, START, 24) == Regs(0x59A8FFDA, 0x47092C07, 0xABFC7920, 0x6D002F1E)
    ensures Steps(m, START, 32) == Regs(0x790A77FB, 0x726342D3, 0xA62884AA, 0x9F47E4F8)
  {
    hide Steps;
    Advance(m, 24, 9, 0x59A8FFDA, 0x47092C07, 0xABFC7920, 0x6D002F1E, 0, 0xC7FC7C26, 0x438749E6, 0xB7F268CF);
    Advance(m, 25, 14, 0x6D002F1E, 0xB7F268CF, 0x47092C07, 0xABFC7920, 0x00000018, 0xE7F16C07, 0x1828A313, 0x09388EFF);
    Advance(m, 26, 3, 0xABFC7920, 0x09388EFF, 0xB7F268CF, 0x47092C07, 0, 0xB1FA4CCF, 0x52CBD376, 0xFE1623B1);
    Advance(m, 27, 8, 0x47092C07, 0xFE1623B1, 0x09388EFF, 0xB7F268CF, 0, 0xBE1AA6B1, 0x4A7DE7A5, 0x786ACB8F);
    Advance(m, 28, 13, 0xB7F268CF, 0x786ACB8F, 0xFE1623B1, 0x09388EFF, 0, 0xFE2EAB8F, 0x6004FD63, 0x790A77FB);
    Advance(m, 29, 2, 0x09388EFF, 0x790A77FB, 0x786ACB8F, 0xFE1623B1, 0, 0x786AEBBF, 0x7E931EB6, 0x9F47E4F8);
    Advance(m, 30, 7, 0xFE1623B1, 0x9F47E4F8, 0x790A77FB, 0x786ACB8F, 0, 0x1942F4F8, 0x7EC81B82, 0xA62884AA);
    Advance(m, 31, 12, 0x786ACB8F, 0xA62884AA, 0x9F47E4F8, 0x790A77FB, 0, 0xA64D84AA, 0xABE29CC3, 0x726342D3);
  }

  lemma {:induction false} To40(m: seq<Word>)
    requires AbcBlock(m) && Steps(m, START, 32) == Regs(0x790A77FB, 0x726342D3, 0xA62884AA, 0x9F47E4F8)
    ensures Steps(m, START, 40) == Regs(0x21B117B9, 0x5A2F5EA5, 0x3575227E, 0x6E7429D5)
  {
    hide Steps;
    Advance(m, 32, 5, 0x790A77FB, 0x726342D3, 0xA62884AA, 0x9F47E4F8, 0, 0x4B0C2281, 0xC410D3BE, 0xB3707EBF);
    Advance(m, 33, 8, 0x9F47E4F8, 0xB3707EBF, 0x726342D3, 0xA62884AA, 0, 0x673BB8C6, 0x8DF5943F, 0x60127B2E);
    Advance(m, 34, 11, 0xA62884AA, 0x60127B2E, 0xB3707EBF, 0x726342D3, 0, 0xA1014742, 0xB4C72D0E, 0x8D212FF5);
    Advance(m, 35, 14, 0x726342D3, 0x8D212FF5, 0x60127B2E, 0xB3707EBF, 0x00000018, 0x5E432A64, 0xCE8BA55B, 0x3B0875C7);
    Advance(m, 36, 1, 0xB3707EBF, 0x3B0875C7, 0x8D212FF5, 0x60127B2E, 0, 0xD63B211C, 0x2E6A8A1F, 0x21B117B9);
    Advance(m, 37, 4, 0x60127B2E, 0x21B117B9, 0x3B0875C7, 0x8D212FF5, 0, 0x97984D8B, 0x43899862, 0x6E7429D5);
    Advance(m, 38, 7, 0x8D212FF5, 0x6E7429D5, 0x21B117B9, 0x3B0875C7, 0, 0x74CD4BAB, 0xF8A9C700, 0x3575227E);
    Advance(m, 39, 10, 0x3B0875C7, 0x3575227E, 0x6E7429D5, 0x21B117B9, 0, 0x7AB01C12, 0x74784E49, 0x5A2F5EA5);
  }

  lemma {:induction false} To48(m: seq<Word>)
    requires AbcBlock(m) && Steps(m, START, 40) == Regs(0x21B117B9, 0x5A2F5EA5, 0x3575227E, 0x6E7429D5)
    ensures Steps(m, START, 48) == Regs(0x7F2E507B, 0x7BEB9700, 0x8FAE6399, 0x99D9679D)
  {
    hide Steps;
    Advance(m, 40, 13, 0x21B117B9, 0x5A2F5EA5, 0x3575227E, 0x6E7429D5, 0, 0x012E550E, 0x4B7AEB8D, 0x11DE1779);
    Advance(m, 41, 0, 0x6E7429D5, 0x11DE1779, 0x5A2F5EA5, 0x3575227E, 0x80636261, 0x7E846BA2, 0x57FD1FD2, 0xFADCAA38);
    Advance(m, 42, 3, 0x3575227E, 0xFADCAA38, 0x11DE1779, 0x5A2F5EA5, 0, 0xB12DE3E4, 0xBB9236E7, 0x31C465CA);
    Advance(m, 43, 6, 0x5A2F5EA5, 0x31C465CA, 0xFADCAA38, 0x11DE1779, 0, 0xDAC6D88B, 0x397E5435, 0x4C6124F4);
    Advance(m, 44, 9, 0x11DE1779, 0x4C6124F4, 0x31C465CA, 0xFADCAA38, 0, 0x8779EB06, 0x732CD2B8, 0x7F2E507B);
    Advance(m, 45, 12, 0xFADCAA38, 0x7F2E507B, 0x4C6124F4, 0x31C465CA, 0, 0x028B1145, 0xE4435562, 0x99D9679D);
    Advance(m, 46, 15, 0x31C465CA, 0x99D9679D, 0x7F2E507B, 0x4C6124F4, 0, 0xAA961312, 0xFBFCF5D4, 0x8FAE6399);
    Advance(m, 47, 2, 0x4C6124F4, 0x8FAE6399, 0x99D9679D, 0x7F2E507B, 0, 0x6959547F, 0x7A66CFD8, 0x7BEB9700);
  }

  lemma {:induction false} To56(m: seq<Word>)
    requires AbcBlock(m) && Steps(m, START, 48) == Regs(0x7F2E507B, 0x7BEB9700, 0x8FAE6399, 0x99D9679D)
    ensures Steps(m, START, 56) == Regs(0x06CC5E8A, 0x3BFA2C27, 0x7D632DD0, 0x5B0D97AA)
  {
    hide Steps;
    Advance(m, 48, 0, 0x7F2E507B, 0x7BEB9700, 0x8FAE6399, 0x99D9679D, 0x80636261, 0xF041FCFB, 0xE3FCD21B, 0x7B201DF8);
    Advance(m, 49, 7, 0x99D9679D, 0x7B201DF8, 0x7BEB9700, 0x8FAE6399, 0, 0x009A0AFE, 0xDD9E7232, 0xF4E8E96E);
    Advance(m, 50, 14, 0x8FAE6399, 0xF4E8E96E, 0x7B201DF8, 0x7BEB9700, 0x00000018, 0x8FDCF407, 0xCB1F7B5F, 0xB298CEFD);
    Advance(m, 51, 5, 0x7BEB9700, 0xB298CEFD, 0xF4E8E96E, 0x7B201DF8, 0, 0x42370791, 0xBAB63ECA, 0x8BF025C4);
    Advance(m, 52, 12, 0x7B201DF8, 0x8BF025C4, 0xB298CEFD, 0xF4E8E96E, 0, 0x396FF928, 0x19EB70E3, 0x06CC5E8A);
    Advance(m, 53, 3, 0xF4E8E96E, 0x06CC5E8A, 0x8BF025C4, 0xB298CEFD, 0, 0xC41F5A4E, 0x4815104E, 0x5B0D97AA);
    Advance(m, 54, 10, 0xB298CEFD, 0x5B0D97AA, 0x06CC5E8A, 0x8BF025C4, 0, 0x79C38131, 0x2C4C44AB, 0x7D632DD0);
    Advance(m, 55, 1, 0x8BF025C4, 0x7D632DD0, 0x5B0D97AA, 0x06CC5E8A, 0, 0xA67E3A5F, 0xB7F2BDF4, 0x3BFA2C27);
  }

  lemma {:induction false} To64(m: seq<Word>)
    requires AbcBlock(m) && Steps(m, START, 56) == Regs(0x06CC5E8A, 0x3BFA2C27, 0x7D632DD0, 0x5B0D97AA)
    ensures Steps(m, START, 64) == Regs(0x310ADE8F, 0xC08226B3, 0xE484B9D8, 0x624D8CB2)
  {
    hide Steps;
    Advance(m, 56, 8, 0x06CC5E8A, 0x3BFA2C27, 0x7D632DD0, 0x5B0D97AA, 0, 0xC29941A7, 0x390E1E80, 0x7F81CC35);
    Advance(m, 57, 15, 0x5B0D97AA, 0x7F81CC35, 0x3BFA2C27, 0x7D632DD0, 0, 0xC467F218, 0x1DA270A2, 0x094454AB);
    Advance(m, 58, 6, 0x7D632DD0, 0x094454AB, 0x7F81CC35, 0x3BFA2C27, 0, 0xB2C41BCE, 0xD3288CB2, 0x4F9DBE3F);
    Advance(m, 59, 13, 0x3BFA2C27, 0x4F9DBE3F, 0x094454AB, 0x7F81CC35, 0, 0xC6BBEB54, 0x50BE291C, 0x7327D604);
    Advance(m, 60, 4, 0x7F81CC35, 0x7327D604, 0x4F9DBE3F, 0x094454AB, 0, 0xB822416B, 0x2EF78C22, 0x310ADE8F);
    Advance(m, 61, 11, 0x094454AB, 0x310ADE8F, 0x7327D604, 0x4F9DBE3F, 0, 0xC24D09CB, 0x88CC50AB, 0x624D8CB2);
    Advance(m, 62, 2, 0x4F9DBE3F, 0x624D8CB2, 0x310ADE8F, 0x7327D604, 0, 0xDFD77374, 0x5A4D046E, 0xE484B9D8);
    Advance(m, 63, 9, 0x7327D604, 0xE484B9D8, 0x624D8CB2, 0x310ADE8F, 0, 0x8CB8354A, 0xEB66DEDF, 0xC08226B3);
  }

  lemma {:induction false} AllSteps(m: seq<Word>)
    requires AbcBlock(m)
    ensures Steps(m, START, 64) == Regs(0x310ADE8F, 0xC08226B3, 0xE484B9D8, 0x624D8CB2)
  {
    hide *;
    To8(m);
    To16(m);
    To24(m);
    To32(m);
    To40(m);
    To48(m);
    To56(m);
    To64(m);
  }

  /** The length of the text in bits. */
  lemma {:induction false} AbcLength()
    ensures LengthBytes(3) == [24, 0, 0, 0, 0, 0, 0, 0]
  {
    assert Wide(24) == 24 && Wide(0) == 0;
    hide LengthBytes, Wide;
    LengthDenotes(3, [24, 0, 0, 0, 0, 0, 0, 0]);
  }

  lemma {:induction false} AbcPadded(p: seq<Byte>)
    requires p == Padded(ABC, [24, 0, 0, 0, 0, 0, 0, 0])
    ensures |p| == 64 && AbcBlock(WordsOf(p))
  {
    assert PaddingOf(3) == 52;
    hide PaddingOf, WordsOf, LittleOf;
    assert p[0] == 0x61 && p[1] == 0x62 && p[2] == 0x63 && p[3] == 0x80 && p[56] == 24;
    assert forall i :: 4 <= i < 64 && i != 56 ==> p[i] == 0;
    WordsAre(p);
  }

  lemma {:induction false} WordsAre(p: seq<Byte>)
    requires |p| == 64 && p[0] == 0x61 && p[1] == 0x62 && p[2] == 0x63 && p[3] == 0x80 && p[56] == 24
    requires forall i :: 4 <= i < 64 && i != 56 ==> p[i] == 0
    ensures AbcBlock(WordsOf(p))
  {
    var m := WordsOf(p);
    FewWords();
    hide WordsOf, LittleOf;
    forall k | 0 <= k < 16 ensures m[k] == LittleOf(p[4 * k], p[4 * k + 1], p[4 * k + 2], p[4 * k + 3]) {
      assert m[k] == Little(p[4 * k..4 * k + 4]);
    }
  }

  lemma {:induction false} FewWords()
    ensures LittleOf(0x61, 0x62, 0x63, 0x80) == 0x80636261 && LittleOf(24, 0, 0, 0) == 24 && LittleOf(0, 0, 0, 0) == 0
  {
  }

  /** The registers that are left, as they are written out. */
  lemma {:induction false} AbcSum()
    ensures DigestBytes(Sum(START, Regs(0x310ADE8F, 0xC08226B3, 0xE484B9D8, 0x624D8CB2)))
      == [0x90, 0x01, 0x50, 0x98, 0x3C, 0xD2, 0x4F, 0xB0, 0xD6, 0x96, 0x3F, 0x7D, 0x28, 0xE1, 0x7F, 0x72]
  {
  }

  /** MD5("abc") = 900150983cd24fb0d6963f7d28e17f72. */
  lemma {:induction false} Abc()
    ensures Hash(ABC)
      == [0x90, 0x01, 0x50, 0x98, 0x3C, 0xD2, 0x4F, 0xB0, 0xD6, 0x96, 0x3F, 0x7D, 0x28, 0xE1, 0x7F, 0x72]
  {
    var p := Padded(ABC, [24, 0, 0, 0, 0, 0, 0, 0]);
    AbcLength();
    AbcPadded(p);
    AbcSum();
    assert p[..64] == p && p[64..] == [];
    assert Fold(Block, START, p) == Compress(START, p);
    hide *;
    AllSteps(WordsOf(p));
  }
}
