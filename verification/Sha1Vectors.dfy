/** The known answer of appendix A of FIPS 180-1: SHA-1 of the text "abc". */
module Sha1Vectors {
  import opened Words
  import opened Narrowing
  import opened Sha1
  import opened Streams
  import opened Sha1Contexts

  const ABC: seq<Byte> := [0x61, 0x62, 0x63]

  /** The block that the text is padded to. */
  predicate AbcBlock(m: seq<Word>) {
    |m| == 16 && m[0] == 0x61626380 && m[15] == 24 && forall k :: 0 < k < 15 ==> m[k] == 0
  }

  /** One word more of the schedule. */
  lemma {:induction false} Extend(m: seq<Word>, t: nat, x: Word, y: Word, z: Word, v: Word, w: Word)
    requires |m| == 16 && t >= 16 && W(m, t - 3) == x && W(m, t - 8) == y && W(m, t - 14) == z && W(m, t - 16) == v
    requires Rol(x ^ y ^ z ^ v, 1) == w
    ensures W(m, t) == w
  {
    hide Rol;
  }

  /** Eight words of it, from word t. */
  ghost predicate Eight(m: seq<Word>, t: nat, w: seq<Word>)
    requires |m| == 16 && |w| == 8
  {
    && W(m, t) == w[0] && W(m, t + 1) == w[1] && W(m, t + 2) == w[2] && W(m, t + 3) == w[3]
    && W(m, t + 4) == w[4] && W(m, t + 5) == w[5] && W(m, t + 6) == w[6] && W(m, t + 7) == w[7]
  }

  lemma {:induction false} Words0(m: seq<Word>)
    requires AbcBlock(m)
    ensures Eight(m, 0, [0x61626380, 0, 0, 0,
                         0, 0, 0, 0])
  {
  }

  lemma {:induction false} Words8(m: seq<Word>)
    requires AbcBlock(m)
    ensures Eight(m, 8, [0, 0, 0, 0,
                         0, 0, 0, 0x00000018])
  {
  }

  lemma {:induction false} Words16(m: seq<Word>)
    requires AbcBlock(m)
    ensures Eight(m, 16, [0xC2C4C700, 0, 0x00000030, 0x85898E01,
                          0, 0x00000060, 0x0B131C03, 0x00000030])
  {
    Words0(m);
    Words8(m);
    hide W, Rol, AbcBlock;
    Extend(m, 16, 0, 0, 0, 0x61626380, 0xC2C4C700);
    Extend(m, 17, 0, 0, 0, 0, 0);
    Extend(m, 18, 0x00000018, 0, 0, 0, 0x00000030);
    Extend(m, 19, 0xC2C4C700, 0, 0, 0, 0x85898E01);
    Extend(m, 20, 0, 0, 0, 0, 0);
    Extend(m, 21, 0x00000030, 0, 0, 0, 0x00000060);
    Extend(m, 22, 0x85898E01, 0, 0, 0, 0x0B131C03);
    Extend(m, 23, 0, 0x00000018, 0, 0, 0x00000030);
  }

  lemma {:induction false} Words24(m: seq<Word>)
    requires AbcBlock(m)
    ensures Eight(m, 24, [0x85898EC1, 0x16263806, 0, 0x00000180,
                          0x2C4C700C, 0x000000F0, 0x93AFB507, 0x5898E048])
  {
    Words8(m);
    Words16(m);
    hide W, Rol, AbcBlock;
    Extend(m, 24, 0x00000060, 0xC2C4C700, 0, 0, 0x85898EC1);
    Extend(m, 25, 0x0B131C03, 0, 0, 0, 0x16263806);
    Extend(m, 26, 0x00000030, 0x00000030, 0, 0, 0);
    Extend(m, 27, 0x85898EC1, 0x85898E01, 0, 0, 0x00000180);
    Extend(m, 28, 0x16263806, 0, 0, 0, 0x2C4C700C);
    Extend(m, 29, 0, 0x00000060, 0x00000018, 0, 0x000000F0);
    Extend(m, 30, 0x00000180, 0x0B131C03, 0xC2C4C700, 0, 0x93AFB507);
    Extend(m, 31, 0x2C4C700C, 0x00000030, 0, 0x00000018, 0x5898E048);
  }

  lemma {:induction false} Words32(m: seq<Word>)
    requires AbcBlock(m)
    ensures Eight(m, 32, [0x8E9A9202, 0x00000600, 0xB131C0F0, 0x16263BC6,
                          0x4EBED41E, 0x626380A1, 0x16263806, 0x000018C0])
  {
    Words16(m);
    Words24(m);
    hide W, Rol, AbcBlock;
    Extend(m, 32, 0x000000F0, 0x85898EC1, 0x00000030, 0xC2C4C700, 0x8E9A9202);
    Extend(m, 33, 0x93AFB507, 0x16263806, 0x85898E01, 0, 0x00000600);
    Extend(m, 34, 0x5898E048, 0, 0, 0x00000030, 0xB131C0F0);
    Extend(m, 35, 0x8E9A9202, 0x00000180, 0x00000060, 0x85898E01, 0x16263BC6);
    Extend(m, 36, 0x00000600, 0x2C4C700C, 0x0B131C03, 0, 0x4EBED41E);
    Extend(m, 37, 0xB131C0F0, 0x000000F0, 0x00000030, 0x00000060, 0x626380A1);
    Extend(m, 38, 0x16263BC6, 0x93AFB507, 0x85898EC1, 0x0B131C03, 0x16263806);
    Extend(m, 39, 0x4EBED41E, 0x5898E048, 0x16263806, 0x00000030, 0x000018C0);
  }

  lemma {:induction false} Words40(m: seq<Word>)
    requires AbcBlock(m)
    ensures Eight(m, 40, [0xD2E138C4, 0x00000F00, 0x3AFB5079, 0x898E04E5,
                          0xE2BA3C2B, 0x000060C0, 0x053A37CD, 0x74458547])
  {
    Words24(m);
    Words32(m);
    hide W, Rol, AbcBlock;
    Extend(m, 40, 0x626380A1, 0x8E9A9202, 0, 0x85898EC1, 0xD2E138C4);
    Extend(m, 41, 0x16263806, 0x00000600, 0x00000180, 0x16263806, 0x00000F00);
    Extend(m, 42, 0x000018C0, 0xB131C0F0, 0x2C4C700C, 0, 0x3AFB5079);
    Extend(m, 43, 0xD2E138C4, 0x16263BC6, 0x000000F0, 0x00000180, 0x898E04E5);
    Extend(m, 44, 0x00000F00, 0x4EBED41E, 0x93AFB507, 0x2C4C700C, 0xE2BA3C2B);
    Extend(m, 45, 0x3AFB5079, 0x626380A1, 0x5898E048, 0x000000F0, 0x000060C0);
    Extend(m, 46, 0x898E04E5, 0x16263806, 0x8E9A9202, 0x93AFB507, 0x053A37CD);
    Extend(m, 47, 0xE2BA3C2B, 0x000018C0, 0x00000600, 0x5898E048, 0x74458547);
  }

  lemma {:induction false} Words48(m: seq<Word>)
    requires AbcBlock(m)
    ensures Eight(m, 48, [0xDA9415ED, 0x26380A16, 0x626383A1, 0x4EBF54DE,
                          0x3835B44B, 0x0000F600, 0x1E84C7A3, 0x98E04D98])
  {
    Words32(m);
    Words40(m);
    hide W, Rol, AbcBlock;
    Extend(m, 48, 0x000060C0, 0xD2E138C4, 0xB131C0F0, 0x8E9A9202, 0xDA9415ED);
    Extend(m, 49, 0x053A37CD, 0x00000F00, 0x16263BC6, 0x00000600, 0x26380A16);
    Extend(m, 50, 0x74458547, 0x3AFB5079, 0x4EBED41E, 0xB131C0F0, 0x626383A1);
    Extend(m, 51, 0xDA9415ED, 0x898E04E5, 0x626380A1, 0x16263BC6, 0x4EBF54DE);
    Extend(m, 52, 0x26380A16, 0xE2BA3C2B, 0x16263806, 0x4EBED41E, 0x3835B44B);
    Extend(m, 53, 0x626383A1, 0x000060C0, 0x000018C0, 0x626380A1, 0x0000F600);
    Extend(m, 54, 0x4EBF54DE, 0x053A37CD, 0xD2E138C4, 0x16263806, 0x1E84C7A3);
    Extend(m, 55, 0x3835B44B, 0x74458547, 0x00000F00, 0x000018C0, 0x98E04D98);
  }

  lemma {:induction false} Words56(m: seq<Word>)
    requires AbcBlock(m)
    ensures Eight(m, 56, [0x651D16A0, 0x62658CA1, 0x458544D6, 0x44584CB7,
                          0x7BA06619, 0x6380AEA2, 0x0AE55269, 0x627B49A1])
  {
    Words40(m);
    Words48(m);
    hide W, Rol, AbcBlock;
    Extend(m, 56, 0x0000F600, 0xDA9415ED, 0x3AFB5079, 0xD2E138C4, 0x651D16A0);
    Extend(m, 57, 0x1E84C7A3, 0x26380A16, 0x898E04E5, 0x00000F00, 0x62658CA1);
    Extend(m, 58, 0x98E04D98, 0x626383A1, 0xE2BA3C2B, 0x3AFB5079, 0x458544D6);
    Extend(m, 59, 0x651D16A0, 0x4EBF54DE, 0x000060C0, 0x898E04E5, 0x44584CB7);
    Extend(m, 60, 0x62658CA1, 0x3835B44B, 0x053A37CD, 0xE2BA3C2B, 0x7BA06619);
    Extend(m, 61, 0x458544D6, 0x0000F600, 0x74458547, 0x000060C0, 0x6380AEA2);
    Extend(m, 62, 0x44584CB7, 0x1E84C7A3, 0xDA9415ED, 0x053A37CD, 0x0AE55269);
    Extend(m, 63, 0x7BA06619, 0x98E04D98, 0x26380A16, 0x74458547, 0x627B49A1);
  }

  lemma {:induction false} Words64(m: seq<Word>)
    requires AbcBlock(m)
    ensures Eight(m, 64, [0x7CD45C9D, 0x000F0000, 0xFB50753A, 0xEC6765E8,
                          0xBA3C2BE2, 0x0060C000, 0x3A37CD05, 0x458546F4])
  {
    Words48(m);
    Words56(m);
    hide W, Rol, AbcBlock;
    Extend(m, 64, 0x6380AEA2, 0x651D16A0, 0x626383A1, 0xDA9415ED, 0x7CD45C9D);
    Extend(m, 65, 0x0AE55269, 0x62658CA1, 0x4EBF54DE, 0x26380A16, 0x000F0000);
    Extend(m, 66, 0x627B49A1, 0x458544D6, 0x3835B44B, 0x626383A1, 0xFB50753A);
    Extend(m, 67, 0x7CD45C9D, 0x44584CB7, 0x0000F600, 0x4EBF54DE, 0xEC6765E8);
    Extend(m, 68, 0x000F0000, 0x7BA06619, 0x1E84C7A3, 0x3835B44B, 0xBA3C2BE2);
    Extend(m, 69, 0xFB50753A, 0x6380AEA2, 0x98E04D98, 0x0000F600, 0x0060C000);
    Extend(m, 70, 0xEC6765E8, 0x0AE55269, 0x651D16A0, 0x1E84C7A3, 0x3A37CD05);
    Extend(m, 71, 0xBA3C2BE2, 0x627B49A1, 0x62658CA1, 0x98E04D98, 0x458546F4);
  }

  lemma {:induction false} Words72(m: seq<Word>)
    requires AbcBlock(m)
    ensures Eight(m, 72, [0xB8599DD6, 0x380A1A26, 0x01E02203, 0xE7CC3456,
                          0xE6E60B69, 0x00F60A00, 0x5795EF4F, 0x822E0879])
  {
    Words56(m);
    Words64(m);
    hide W, Rol, AbcBlock;
    Extend(m, 72, 0x0060C000, 0x7CD45C9D, 0x458544D6, 0x651D16A0, 0xB8599DD6);
    Extend(m, 73, 0x3A37CD05, 0x000F0000, 0x44584CB7, 0x62658CA1, 0x380A1A26);
    Extend(m, 74, 0x458546F4, 0xFB50753A, 0x7BA06619, 0x458544D6, 0x01E02203);
    Extend(m, 75, 0xB8599DD6, 0xEC6765E8, 0x6380AEA2, 0x44584CB7, 0xE7CC3456);
    Extend(m, 76, 0x380A1A26, 0xBA3C2BE2, 0x0AE55269, 0x7BA06619, 0xE6E60B69);
    Extend(m, 77, 0x01E02203, 0x0060C000, 0x627B49A1, 0x6380AEA2, 0x00F60A00);
    Extend(m, 78, 0xE7CC3456, 0x3A37CD05, 0x7CD45C9D, 0x0AE55269, 0x5795EF4F);
    Extend(m, 79, 0xE6E60B69, 0x458546F4, 0x000F0000, 0x627B49A1, 0x822E0879);
  }

  /** One round on known registers. */
  lemma {:induction false} Advance(m: seq<Word>, t: nat, a: Word, b: Word, c: Word, d: Word, e: Word, w: Word,
                                   rot: Word, f: Word, sum: Word, moved: Word)
    requires |m| == 16 && Rounds(m, START, t) == Regs(a, b, c, d, e) && W(m, t) == w
    requires Rol(a, 5) == rot && F(t, b, c, d) == f && Temp(rot, f, e, w, K(t)) == sum && Rol(b, 30) == moved
    ensures Rounds(m, START, t + 1) == Regs(sum, a, moved, c, d)
  {
    hide F, K, Rol, Temp, W;
  }

  lemma {:induction false} To8(m: seq<Word>)
    requires AbcBlock(m)
    ensures Rounds(m, START, 8) == Regs(0x9E8C07D4, 0x993E30C1, 0x0FF1F290, 0xB3F52677, 0xF3763846)
  {
    assert Rounds(m, START, 0) == Regs(0x67452301, 0xEFCDAB89, 0x98BADCFE, 0x10325476, 0xC3D2E1F0);
    Words0(m);
    hide Rounds, W, AbcBlock;
    Advance(m, 0, 0x67452301, 0xEFCDAB89, 0x98BADCFE, 0x10325476, 0xC3D2E1F0, 0x61626380,
            0xE8A4602C, 0x98BADCFE, 0x0116FC33, 0x7BF36AE2);
    Advance(m, 1, 0x0116FC33, 0x67452301, 0x7BF36AE2, 0x98BADCFE, 0x10325476, 0,
            0x22DF8660, 0xFBFBFEFE, 0x8990536D, 0x59D148C0);
    Advance(m, 2, 0x8990536D, 0x0116FC33, 0x59D148C0, 0x7BF36AE2, 0x98BADCFE, 0,
            0x320A6DB1, 0x7BF14AC0, 0xA1390F08, 0xC045BF0C);
    Advance(m, 3, 0xA1390F08, 0x8990536D, 0xC045BF0C, 0x59D148C0, 0x7BF36AE2, 0,
            0x2721E114, 0xD0411B8C, 0xCDD8E11B, 0x626414DB);
    Advance(m, 4, 0xCDD8E11B, 0xA1390F08, 0x626414DB, 0xC045BF0C, 0x59D148C0, 0,
            0xBB1C2379, 0x6064B40C, 0xCFD499DE, 0x284E43C2);
    Advance(m, 5, 0xCFD499DE, 0xCDD8E11B, 0x284E43C2, 0x626414DB, 0xC045BF0C, 0,
            0xFA933BD9, 0x2A6C55C2, 0x3FC7CA40, 0xF3763846);
    Advance(m, 6, 0x3FC7CA40, 0xCFD499DE, 0xF3763846, 0x284E43C2, 0x626414DB, 0,
            0xF8F94807, 0xE35E5A46, 0x993E30C1, 0xB3F52677);
    Advance(m, 7, 0x993E30C1, 0x3FC7CA40, 0xB3F52677, 0xF3763846, 0x284E43C2, 0,
            0x27C61833, 0xF3F53246, 0x9E8C07D4, 0x0FF1F290);
  }

  lemma {:induction false} To16(m: seq<Word>)
    requires AbcBlock(m) && Rounds(m, START, 8) == Regs(0x9E8C07D4, 0x993E30C1, 0x0FF1F290, 0xB3F52677, 0xF3763846)
    ensures Rounds(m, START, 16) == Regs(0x20BDD62F, 0x196BEE77, 0x644A3DA5, 0x1181ED99, 0x18C623F9)
  {
    Words8(m);
    hide Rounds, W, AbcBlock;
    Advance(m, 8, 0x9E8C07D4, 0x993E30C1, 0x0FF1F290, 0xB3F52677, 0xF3763846, 0,
            0xD180FA93, 0x2BF136B6, 0x4B6AE328, 0x664F8C30);
    Advance(m, 9, 0x4B6AE328, 0x9E8C07D4, 0x664F8C30, 0x0FF1F290, 0xB3F52677, 0,
            0x6D5C6509, 0x077DF410, 0x8351F929, 0x27A301F5);
    Advance(m, 10, 0x8351F929, 0x4B6AE328, 0x27A301F5, 0x664F8C30, 0x0FF1F290, 0,
            0x6A3F2530, 0x27270D30, 0xFBDA9E89, 0x12DAB8CA);
    Advance(m, 11, 0xFBDA9E89, 0x8351F929, 0x12DAB8CA, 0x27A301F5, 0x664F8C30, 0,
            0x7B53D13F, 0x26F2B8DC, 0x63188FE4, 0x60D47E4A);
    Advance(m, 12, 0x63188FE4, 0xFBDA9E89, 0x60D47E4A, 0x12DAB8CA, 0x27A301F5, 0,
            0x6311FC8C, 0x60D03E4A, 0x4607B664, 0x7EF6A7A2);
    Advance(m, 13, 0x4607B664, 0x63188FE4, 0x7EF6A7A2, 0x60D47E4A, 0x12DAB8CA, 0,
            0xC0F6CC88, 0x62D4F7AA, 0x9128F695, 0x18C623F9);
    Advance(m, 14, 0x9128F695, 0x4607B664, 0x18C623F9, 0x7EF6A7A2, 0x60D47E4A, 0,
            0x251ED2B2, 0x38F623E2, 0x196BEE77, 0x1181ED99);
    Advance(m, 15, 0x196BEE77, 0x9128F695, 0x1181ED99, 0x18C623F9, 0x7EF6A7A2, 0x00000018,
            0x2D7DCEE3, 0x19C6E5F9, 0x20BDD62F, 0x644A3DA5);
  }

  lemma {:induction false} To24(m: seq<Word>)
    requires AbcBlock(m) && Rounds(m, START, 16) == Regs(0x20BDD62F, 0x196BEE77, 0x644A3DA5, 0x1181ED99, 0x18C623F9)
    ensures Rounds(m, START, 24) == Regs(0xD541F12D, 0x21283486, 0x0CE88EFF, 0x868DEC32, 0x7F67875F)
  {
    Words16(m);
    hide Rounds, W, AbcBlock;
    Advance(m, 16, 0x20BDD62F, 0x196BEE77, 0x644A3DA5, 0x1181ED99, 0x18C623F9, 0xC2C4C700,
            0x17BAC5E4, 0x00CA2DAD, 0x4E925823, 0xC65AFB9D);
    Advance(m, 17, 0x4E925823, 0x20BDD62F, 0xC65AFB9D, 0x644A3DA5, 0x1181ED99, 0,
            0xD24B0469, 0x445AFB8D, 0x82AA6728, 0xC82F758B);
    Advance(m, 18, 0x82AA6728, 0x4E925823, 0xC82F758B, 0xC65AFB9D, 0x644A3DA5, 0x00000030,
            0x554CE510, 0xC84AF39F, 0xDC64901D, 0xD3A49608);
    Advance(m, 19, 0xDC64901D, 0x82AA6728, 0xD3A49608, 0xC82F758B, 0xC65AFB9D, 0x85898E01,
            0x8C9203BB, 0xCAA5168B, 0xFD9E1D7D, 0x20AA99CA);
    Advance(m, 20, 0xFD9E1D7D, 0xDC64901D, 0x20AA99CA, 0xD3A49608, 0xC82F758B, 0,
            0xB3C3AFBF, 0x2F6A9FDF, 0x1A37B0CA, 0x77192407);
    Advance(m, 21, 0x1A37B0CA, 0xFD9E1D7D, 0x77192407, 0x20AA99CA, 0xD3A49608, 0x00000060,
            0x46F61943, 0xAA2DA0B0, 0x33A23BFC, 0x7F67875F);
    Advance(m, 22, 0x33A23BFC, 0x1A37B0CA, 0x7F67875F, 0x77192407, 0x20AA99CA, 0x0B131C03,
            0x74477F86, 0x12491392, 0x21283486, 0x868DEC32);
    Advance(m, 23, 0x21283486, 0x33A23BFC, 0x868DEC32, 0x7F67875F, 0x77192407, 0x00000030,
            0x250690C4, 0xCA485091, 0xD541F12D, 0x0CE88EFF);
  }

  lemma {:induction false} To32(m: seq<Word>)
    requires AbcBlock(m) && Rounds(m, START, 24) == Regs(0xD541F12D, 0x21283486, 0x0CE88EFF, 0x868DEC32, 0x7F67875F)
    ensures Rounds(m, START, 32) == Regs(0x3B845D33, 0x1267B407, 0x717EEBD7, 0xA0DC2D4B, 0xD2AA1365)
  {
    Words24(m);
    hide Rounds, W, AbcBlock;
    Advance(m, 24, 0xD541F12D, 0x21283486, 0x0CE88EFF, 0x868DEC32, 0x7F67875F, 0x85898EC1,
            0xA83E25BA, 0xAB4D564B, 0xC7567DC6, 0x884A0D21);
    Advance(m, 25, 0xC7567DC6, 0xD541F12D, 0x884A0D21, 0x0CE88EFF, 0x868DEC32, 0x16263806,
            0xEACFB8D8, 0x51E372F3, 0x48413BA4, 0x75507C4B);
    Advance(m, 26, 0x48413BA4, 0xC7567DC6, 0x75507C4B, 0x884A0D21, 0x0CE88EFF, 0,
            0x08277489, 0x3A4C0CAC, 0xBE35FBD5, 0xB1D59F71);
    Advance(m, 27, 0xBE35FBD5, 0x48413BA4, 0xB1D59F71, 0x75507C4B, 0x884A0D21, 0x00000180,
            0xC6BF7AB7, 0x8CC4D89E, 0x4AA84D97, 0x12104EE9);
    Advance(m, 28, 0x4AA84D97, 0xBE35FBD5, 0x12104EE9, 0xB1D59F71, 0x75507C4B, 0x2C4C700C,
            0x5509B2E9, 0x1DF02A4D, 0x8370B52E, 0x6F8D7EF5);
    Advance(m, 29, 0x8370B52E, 0x4AA84D97, 0x6F8D7EF5, 0x12104EE9, 0xB1D59F71, 0x000000F0,
            0x6E16A5D0, 0x37357D8B, 0xC5FBAF5D, 0xD2AA1365);
    Advance(m, 30, 0xC5FBAF5D, 0x8370B52E, 0xD2AA1365, 0x6F8D7EF5, 0x12104EE9, 0x93AFB507,
            0xBF75EBB8, 0x3E57D8BE, 0x1267B407, 0xA0DC2D4B);
    Advance(m, 31, 0x1267B407, 0xC5FBAF5D, 0xA0DC2D4B, 0xD2AA1365, 0x6F8D7EF5, 0x5898E048,
            0x4CF680E2, 0xB78D9173, 0x3B845D33, 0x717EEBD7);
  }

  lemma {:induction false} To40(m: seq<Word>)
    requires AbcBlock(m) && Rounds(m, START, 32) == Regs(0x3B845D33, 0x1267B407, 0x717EEBD7, 0xA0DC2D4B, 0xD2AA1365)
    ensures Rounds(m, START, 40) == Regs(0x32DE1CBA, 0x4C986405, 0xF718E5CF, 0x03D447F6, 0xF72EEC32)
  {
    Words32(m);
    hide Rounds, W, AbcBlock;
    Advance(m, 32, 0x3B845D33, 0x1267B407, 0x717EEBD7, 0xA0DC2D4B, 0xD2AA1365, 0x8E9A9202,
            0x708BA667, 0xC3C5729B, 0x046FAA0A, 0xC499ED01);
    Advance(m, 33, 0x046FAA0A, 0x3B845D33, 0xC499ED01, 0x717EEBD7, 0xA0DC2D4B, 0x00000600,
            0x8DF54140, 0x8E635BE5, 0x2C0EBC11, 0xCEE1174C);
    Advance(m, 34, 0x2C0EBC11, 0x046FAA0A, 0xCEE1174C, 0xC499ED01, 0x717EEBD7, 0xB131C0F0,
            0x81D78225, 0x0E175047, 0x21796AD4, 0x811BEA82);
    Advance(m, 35, 0x21796AD4, 0x2C0EBC11, 0x811BEA82, 0xCEE1174C, 0xC499ED01, 0x16263BC6,
            0x2F2D5A84, 0x63F441DF, 0xDCBBB0CB, 0x4B03AF04);
    Advance(m, 36, 0xDCBBB0CB, 0x21796AD4, 0x4B03AF04, 0x811BEA82, 0xCEE1174C, 0x4EBED41E,
            0x9776197B, 0xEB612F52, 0x0F511FD8, 0x085E5AB5);
    Advance(m, 37, 0x0F511FD8, 0xDCBBB0CB, 0x085E5AB5, 0x4B03AF04, 0x811BEA82, 0x626380A1,
            0xEA23FB01, 0x9FE6457A, 0xDC63973F, 0xF72EEC32);
    Advance(m, 38, 0xDC63973F, 0x0F511FD8, 0xF72EEC32, 0x085E5AB5, 0x4B03AF04, 0x16263806,
            0x8C72E7FB, 0xF021A95F, 0x4C986405, 0x03D447F6);
    Advance(m, 39, 0x4C986405, 0xDC63973F, 0x03D447F6, 0xF72EEC32, 0x085E5AB5, 0x000018C0,
            0x930C80A9, 0x28993CFB, 0x32DE1CBA, 0xF718E5CF);
  }

  lemma {:induction false} To48(m: seq<Word>)
    requires AbcBlock(m) && Rounds(m, START, 40) == Regs(0x32DE1CBA, 0x4C986405, 0xF718E5CF, 0x03D447F6, 0xF72EEC32)
    ensures Rounds(m, START, 48) == Regs(0xBEAD02CA, 0xA01B846C, 0x8714787C, 0x503CA382, 0xFB86C6AB)
  {
    Words40(m);
    hide Rounds, W, AbcBlock;
    Advance(m, 40, 0x32DE1CBA, 0x4C986405, 0xF718E5CF, 0x03D447F6, 0xF72EEC32, 0xD2E138C4,
            0x5BC39746, 0x479865C7, 0xFC87DEDF, 0x53261901);
    Advance(m, 41, 0xFC87DEDF, 0x32DE1CBA, 0x53261901, 0xF718E5CF, 0x03D447F6, 0x00000F00,
            0x90FBDBFF, 0x731E1D8B, 0x970A0D5C, 0x8CB7872E);
    Advance(m, 42, 0x970A0D5C, 0xFC87DEDF, 0x8CB7872E, 0x53261901, 0xF718E5CF, 0x3AFB5079,
            0xE141AB92, 0xDCA79F0F, 0x7F193DC5, 0xFF21F7B7);
    Advance(m, 43, 0x7F193DC5, 0x970A0D5C, 0xFF21F7B7, 0x8CB7872E, 0x53261901, 0x898E04E5,
            0xE327B8AF, 0x9F23873E, 0xEE1B1AAF, 0x25C28357);
    Advance(m, 44, 0xEE1B1AAF, 0x7F193DC5, 0x25C28357, 0xFF21F7B7, 0x8CB7872E, 0xE2BA3C2B,
            0xC36355FD, 0x7F01B7D7, 0x40F28E09, 0x5FC64F71);
    Advance(m, 45, 0x40F28E09, 0xEE1B1AAF, 0x5FC64F71, 0x25C28357, 0xFF21F7B7, 0x000060C0,
            0x1E51C128, 0x6FC20B77, 0x1C51E1F2, 0xFB86C6AB);
    Advance(m, 46, 0x1C51E1F2, 0x40F28E09, 0xFB86C6AB, 0x5FC64F71, 0x25C28357, 0x053A37CD,
            0x8A3C3E43, 0x5BC6CE29, 0xA01B846C, 0x503CA382);
    Advance(m, 47, 0xA01B846C, 0x1C51E1F2, 0x503CA382, 0xFB86C6AB, 0x5FC64F71, 0x74458547,
            0x03708D94, 0x5814E3A2, 0xBEAD02CA, 0x8714787C);
  }

  lemma {:induction false} To56(m: seq<Word>)
    requires AbcBlock(m) && Rounds(m, START, 48) == Regs(0xBEAD02CA, 0xA01B846C, 0x8714787C, 0x503CA382, 0xFB86C6AB)
    ensures Rounds(m, START, 56) == Regs(0x5E6456AF, 0x7B71F76D, 0x09FA7C76, 0x792410DB, 0x8E11EB59)
  {
    Words48(m);
    hide Rounds, W, AbcBlock;
    Advance(m, 48, 0xBEAD02CA, 0xA01B846C, 0x8714787C, 0x503CA382, 0xFB86C6AB, 0xDA9415ED,
            0xD5A05957, 0x801CA06C, 0xBAF39337, 0x2806E11B);
    Advance(m, 49, 0xBAF39337, 0xBEAD02CA, 0x2806E11B, 0x8714787C, 0x503CA382, 0x26380A16,
            0x5E7266F7, 0xAE04605A, 0x120731C5, 0xAFAB40B2);
    Advance(m, 50, 0x120731C5, 0xBAF39337, 0xAFAB40B2, 0x2806E11B, 0x8714787C, 0x626383A1,
            0x40E638A2, 0xAAA3C133, 0x641DB2CE, 0xEEBCE4CD);
    Advance(m, 51, 0x641DB2CE, 0x120731C5, 0xEEBCE4CD, 0xAFAB40B2, 0x2806E11B, 0x4EBF54DE,
            0x83B659CC, 0xAEAF60C5, 0x3847AD66, 0x4481CC71);
    Advance(m, 52, 0x3847AD66, 0x641DB2CE, 0x4481CC71, 0xEEBCE4CD, 0xAFAB40B2, 0x3835B44B,
            0x08F5ACC7, 0x649DE4CD, 0xE490436D, 0x99076CB3);
    Advance(m, 53, 0xE490436D, 0x3847AD66, 0x99076CB3, 0x4481CC71, 0xEEBCE4CD, 0x0000F600,
            0x92086DBC, 0x1807EC73, 0x27E9F1D8, 0x8E11EB59);
    Advance(m, 54, 0x27E9F1D8, 0xE490436D, 0x8E11EB59, 0x99076CB3, 0x4481CC71, 0x1E84C7A3,
            0xFD3E3B04, 0x8C116B79, 0x7B71F76D, 0x792410DB);
    Advance(m, 55, 0x7B71F76D, 0x27E9F1D8, 0x792410DB, 0x8E11EB59, 0x99076CB3, 0x98E04D98,
            0x6E3EEDAF, 0x2F21F1D9, 0x5E6456AF, 0x09FA7C76);
  }

  lemma {:induction false} To64(m: seq<Word>)
    requires AbcBlock(m) && Rounds(m, START, 56) == Regs(0x5E6456AF, 0x7B71F76D, 0x09FA7C76, 0x792410DB, 0x8E11EB59)
    ensures Rounds(m, START, 64) == Regs(0x6B61C9E1, 0xB66C020B, 0x9523272C, 0xF5D5B051, 0x8FD4B796)
  {
    Words56(m);
    hide Rounds, W, AbcBlock;
    Advance(m, 56, 0x5E6456AF, 0x7B71F76D, 0x09FA7C76, 0x792410DB, 0x8E11EB59, 0x651D16A0,
            0xCC8AD5EB, 0x7970747F, 0xC846093F, 0x5EDC7DDB);
    Advance(m, 57, 0xC846093F, 0x5E6456AF, 0x5EDC7DDB, 0x09FA7C76, 0x792410DB, 0x62658CA1,
            0x08C127F9, 0x5EFC7CFF, 0xD262FF50, 0xD79915AB);
    Advance(m, 58, 0xD262FF50, 0xC846093F, 0xD79915AB, 0x5EDC7DDB, 0x09FA7C76, 0x458544D6,
            0x4C5FEA1A, 0xDEDC1DBB, 0x09D785FD, 0xF211824F);
    Advance(m, 59, 0x09D785FD, 0xD262FF50, 0xF211824F, 0xD79915AB, 0x5EDC7DDB, 0x44584CB7,
            0x3AF0BFA1, 0xD211974B, 0x3F52DE5A, 0x3498BFD4);
    Advance(m, 60, 0x3F52DE5A, 0x09D785FD, 0x3498BFD4, 0xF211824F, 0xD79915AB, 0x7BA06619,
            0xEA5BCB47, 0xCF5EB866, 0xD756C147, 0x4275E17F);
    Advance(m, 61, 0xD756C147, 0x3F52DE5A, 0x4275E17F, 0x3498BFD4, 0xF211824F, 0x6380AEA2,
            0xEAD828FA, 0x49BF80F1, 0x548C9CB2, 0x8FD4B796);
    Advance(m, 62, 0x548C9CB2, 0xD756C147, 0x8FD4B796, 0x4275E17F, 0x3498BFD4, 0x0AE55269,
            0x9193964A, 0x1AF797AE, 0xB66C020B, 0xF5D5B051);
    Advance(m, 63, 0xB66C020B, 0x548C9CB2, 0xF5D5B051, 0x8FD4B796, 0x4275E17F, 0x627B49A1,
            0xCD804176, 0x2E8D9B75, 0x6B61C9E1, 0x9523272C);
  }

  lemma {:induction false} To72(m: seq<Word>)
    requires AbcBlock(m) && Rounds(m, START, 64) == Regs(0x6B61C9E1, 0xB66C020B, 0x9523272C, 0xF5D5B051, 0x8FD4B796)
    ensures Rounds(m, START, 72) == Regs(0x39859DE7, 0xC199F8C7, 0x8FC96230, 0x125C24F0, 0xDE37534A)
  {
    Words64(m);
    hide Rounds, W, AbcBlock;
    Advance(m, 64, 0x6B61C9E1, 0xB66C020B, 0x9523272C, 0xF5D5B051, 0x8FD4B796, 0x7CD45C9D,
            0x6C393C2D, 0xD69A9576, 0x19DFA7AC, 0xED9B0082);
    Advance(m, 65, 0x19DFA7AC, 0x6B61C9E1, 0xED9B0082, 0x9523272C, 0xF5D5B051, 0x000F0000,
            0x3BF4F583, 0x13D9EE4F, 0x101655F9, 0x5AD87278);
    Advance(m, 66, 0x101655F9, 0x19DFA7AC, 0x5AD87278, 0xED9B0082, 0x9523272C, 0xFB50753A,
            0x02CABF22, 0xAE9CD556, 0x0C3DF2B4, 0x0677E9EB);
    Advance(m, 67, 0x0C3DF2B4, 0x101655F9, 0x0677E9EB, 0x5AD87278, 0xED9B0082, 0xEC6765E8,
            0x87BE5681, 0x4CB9CE6A, 0x78DD4D2B, 0x4405957E);
    Advance(m, 68, 0x78DD4D2B, 0x0C3DF2B4, 0x4405957E, 0x0677E9EB, 0x5AD87278, 0xBA3C2BE2,
            0x1BA9A56F, 0x4E4F8E21, 0x497093C0, 0x030F7CAD);
    Advance(m, 69, 0x497093C0, 0x78DD4D2B, 0x030F7CAD, 0x4405957E, 0x0677E9EB, 0x0060C000,
            0x2E127809, 0x3FD7A4F8, 0x3F2588C2, 0xDE37534A);
    Advance(m, 70, 0x3F2588C2, 0x497093C0, 0xDE37534A, 0x030F7CAD, 0x4405957E, 0x3A37CD05,
            0xE4B11847, 0x9448BC27, 0xC199F8C7, 0x125C24F0);
    Advance(m, 71, 0xC199F8C7, 0x3F2588C2, 0x125C24F0, 0xDE37534A, 0x030F7CAD, 0x458546F4,
            0x333F18F8, 0xF34EFF78, 0x39859DE7, 0x8FC96230);
  }

  lemma {:induction false} To80(m: seq<Word>)
    requires AbcBlock(m) && Rounds(m, START, 72) == Regs(0x39859DE7, 0xC199F8C7, 0x8FC96230, 0x125C24F0, 0xDE37534A)
    ensures Rounds(m, START, 80) == Regs(0x42541B35, 0x5738D5E1, 0x21834873, 0x681E6DF6, 0xD8FDF6AD)
  {
    Words72(m);
    hide Rounds, W, AbcBlock;
    Advance(m, 72, 0x39859DE7, 0xC199F8C7, 0x8FC96230, 0x125C24F0, 0xDE37534A, 0xB8599DD6,
            0x30B3BCE7, 0x5C0CBE07, 0xEDB42DE4, 0xF0667E31);
    Advance(m, 73, 0xEDB42DE4, 0x39859DE7, 0xF0667E31, 0x8FC96230, 0x125C24F0, 0x380A1A26,
            0xB685BC9D, 0x462A81E6, 0x11793F6F, 0xCE616779);
    Advance(m, 74, 0x11793F6F, 0xEDB42DE4, 0xCE616779, 0xF0667E31, 0x8FC96230, 0x01E02203,
            0x2F27EDE2, 0xD3B334AC, 0x5EE76897, 0x3B6D0B79);
    Advance(m, 75, 0x5EE76897, 0x11793F6F, 0x3B6D0B79, 0xCE616779, 0xF0667E31, 0xE7CC3456,
            0xDCED12EB, 0xE475536F, 0x63F7DAB7, 0xC45E4FDB);
    Advance(m, 76, 0x63F7DAB7, 0x5EE76897, 0xC45E4FDB, 0x3B6D0B79, 0xCE616779, 0xE6E60B69,
            0x7EFB56EC, 0xA1D42C35, 0xA079B7D9, 0xD7B9DA25);
    Advance(m, 77, 0xA079B7D9, 0x63F7DAB7, 0xD7B9DA25, 0xC45E4FDB, 0x3B6D0B79, 0x00F60A00,
            0x0F36FB34, 0x70104F49, 0x860D21CC, 0xD8FDF6AD);
    Advance(m, 78, 0x860D21CC, 0xA079B7D9, 0xD8FDF6AD, 0xD7B9DA25, 0xC45E4FDB, 0x5795EF4F,
            0xC1A43990, 0xAF3D9B51, 0x5738D5E1, 0x681E6DF6);
    Advance(m, 79, 0x5738D5E1, 0x860D21CC, 0x681E6DF6, 0xD8FDF6AD, 0xD7B9DA25, 0x822E0879,
            0xE71ABC2A, 0x36EEBA97, 0x42541B35, 0x21834873);
  }

  lemma {:induction false} AllRounds(m: seq<Word>)
    requires AbcBlock(m)
    ensures Rounds(m, START, 80) == Regs(0x42541B35, 0x5738D5E1, 0x21834873, 0x681E6DF6, 0xD8FDF6AD)
  {
    hide *;
    To8(m);
    To16(m);
    To24(m);
    To32(m);
    To40(m);
    To48(m);
    To56(m);
    To64(m);
    To72(m);
    To80(m);
  }

  /** The length of the text in bits. */
  lemma {:induction false} AbcLength()
    ensures LengthBytes(3) == [0, 0, 0, 0, 0, 0, 0, 24]
  {
    assert Wide(24) == 24 && Wide(0) == 0;
    hide LengthBytes, Wide;
    LengthDenotes(3, [0, 0, 0, 0, 0, 0, 0, 24]);
  }

  lemma {:induction false} AbcPadded(p: seq<Byte>)
    requires p == Padded(ABC, [0, 0, 0, 0, 0, 0, 0, 24])
    ensures |p| == 64 && AbcBlock(BigWords(p))
  {
    assert PaddingOf(3) == 52;
    hide PaddingOf, BigWords, BigOf;
    assert p[0] == 0x61 && p[1] == 0x62 && p[2] == 0x63 && p[3] == 0x80 && p[63] == 24;
    assert forall i :: 4 <= i < 63 ==> p[i] == 0;
    WordsAre(p);
  }

  lemma {:induction false} WordsAre(p: seq<Byte>)
    requires |p| == 64 && p[0] == 0x61 && p[1] == 0x62 && p[2] == 0x63 && p[3] == 0x80 && p[63] == 24
    requires forall i :: 4 <= i < 63 ==> p[i] == 0
    ensures AbcBlock(BigWords(p))
  {
    var m := BigWords(p);
    FewWords();
    hide BigWords, BigOf;
    forall k | 0 <= k < 16 ensures m[k] == BigOf(p[4 * k], p[4 * k + 1], p[4 * k + 2], p[4 * k + 3]) {
      assert m[k] == Big(p[4 * k..4 * k + 4]);
    }
  }

  lemma {:induction false} FewWords()
    ensures BigOf(0x61, 0x62, 0x63, 0x80) == 0x61626380 && BigOf(0, 0, 0, 24) == 24 && BigOf(0, 0, 0, 0) == 0
  {
  }

  /** The registers that are left, as they are written out. */
  lemma {:induction false} AbcSum()
    ensures DigestBytes(Sum(START, Regs(0x42541B35, 0x5738D5E1, 0x21834873, 0x681E6DF6, 0xD8FDF6AD)))
      == [0xA9, 0x99, 0x3E, 0x36, 0x47, 0x06, 0x81, 0x6A, 0xBA, 0x3E,
          0x25, 0x71, 0x78, 0x50, 0xC2, 0x6C, 0x9C, 0xD0, 0xD8, 0x9D]
  {
  }

  /** SHA-1("abc") = a9993e364706816aba3e25717850c26c9cd0d89d. */
  lemma {:induction false} Abc()
    ensures Hash(ABC)
      == [0xA9, 0x99, 0x3E, 0x36, 0x47, 0x06, 0x81, 0x6A, 0xBA, 0x3E,
          0x25, 0x71, 0x78, 0x50, 0xC2, 0x6C, 0x9C, 0xD0, 0xD8, 0x9D]
  {
    var p := Padded(ABC, [0, 0, 0, 0, 0, 0, 0, 24]);
    AbcLength();
    AbcPadded(p);
    AbcSum();
    assert p[..64] == p && p[64..] == [];
    assert Fold(Block, START, p) == Compress(START, p);
    hide *;
    AllRounds(BigWords(p));
  }
}
