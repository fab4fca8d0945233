/** Base64 (src/sasl.c:339-563), against section 3 of RFC 3548. Characters and bytes are
    numbers below 256; the masks and shifts of the code on words of 24 bits are written as
    divisions and remainders by powers of two. */
module Base64 {
  type Octet = x: nat | x < 256

  const PAD: nat := 64
  const BAD: nat := 65
  /** No entry of the table: a `char` of 128 or more is a negative index. */
  const OUTSIDE: nat := 256

  /** `_base64_charmap`, by its ranges. */
  function CharOf(v: nat): char
    requires v <= PAD
  {
    if v < 26 then ('A' as int + v) as char
    else if v < 52 then ('a' as int + (v - 26)) as char
    else if v < 62 then ('0' as int + (v - 52)) as char
    else if v == 62 then '+' else if v == 63 then '/' else '='
  }

  /** `_base64_invcharmap`. */
  function Value(c: char): nat {
    if 'A' <= c <= 'Z' then c as int - 'A' as int
    else if 'a' <= c <= 'z' then c as int - 'a' as int + 26
    else if '0' <= c <= '9' then c as int - '0' as int + 52
    else if c == '+' then 62 else if c == '/' then 63 else if c == '=' then PAD
    else if c as int < 128 then BAD else OUTSIDE
  }

  lemma {:induction false} ValueOfChar(v: nat)
    requires v <= PAD
    ensures Value(CharOf(v)) == v
  {
  }

  lemma {:induction false} CharOfValue(c: char)
    requires Value(c) <= PAD
    ensures CharOf(Value(c)) == c
  {
  }

  // ------------------------------------------------------------------- encoding

  function Quad(b0: Octet, b1: Octet, b2: Octet): (t: string)
    ensures |t| == 4
  {
    [CharOf(b0 / 4), CharOf(b0 % 4 * 16 + b1 / 16), CharOf(b1 % 16 * 4 + b2 / 64), CharOf(b2 % 64)]
  }

  /** Section 3: every three bytes are four characters; one or two bytes left are padded
      with zero bits, and with pad characters. */
  function Encode(b: seq<Octet>): (t: string)
    ensures |t| == (|b| + 2) / 3 * 4
  {
    if b == [] then ""
    else if |b| == 1 then [CharOf(b[0] / 4), CharOf(b[0] % 4 * 16), CharOf(PAD), CharOf(PAD)]
    else if |b| == 2 then [CharOf(b[0] / 4), CharOf(b[0] % 4 * 16 + b[1] / 16), CharOf(b[1] % 16 * 4), CharOf(PAD)]
    else Quad(b[0], b[1], b[2]) + Encode(b[3..])
  }

  /** Table 1 of RFC 3548: the alphabet, in its order. */
  lemma {:induction false} Alphabet()
    ensures
      && CharOf(0) == 'A' && CharOf(1) == 'B' && CharOf(2) == 'C' && CharOf(3) == 'D' && CharOf(4) == 'E'
      && CharOf(5) == 'F' && CharOf(6) == 'G' && CharOf(7) == 'H' && CharOf(8) == 'I' && CharOf(9) == 'J'
      && CharOf(10) == 'K' && CharOf(11) == 'L' && CharOf(12) == 'M' && CharOf(13) == 'N'
      && CharOf(14) == 'O' && CharOf(15) == 'P' && CharOf(16) == 'Q' && CharOf(17) == 'R'
      && CharOf(18) == 'S' && CharOf(19) == 'T' && CharOf(20) == 'U' && CharOf(21) == 'V'
      && CharOf(22) == 'W' && CharOf(23) == 'X' && CharOf(24) == 'Y' && CharOf(25) == 'Z'
    ensures
      && CharOf(26) == 'a' && CharOf(27) == 'b' && CharOf(28) == 'c' && CharOf(29) == 'd'
      && CharOf(30) == 'e' && CharOf(31) == 'f' && CharOf(32) == 'g' && CharOf(33) == 'h'
      && CharOf(34) == 'i' && CharOf(35) == 'j' && CharOf(36) == 'k' && CharOf(37) == 'l'
      && CharOf(38) == 'm' && CharOf(39) == 'n' && CharOf(40) == 'o' && CharOf(41) == 'p'
      && CharOf(42) == 'q' && CharOf(43) == 'r' && CharOf(44) == 's' && CharOf(45) == 't'
      && CharOf(46) == 'u' && CharOf(47) == 'v' && CharOf(48) == 'w' && CharOf(49) == 'x'
      && CharOf(50) == 'y' && CharOf(51) == 'z'
    ensures
      && CharOf(52) == '0' && CharOf(53) == '1' && CharOf(54) == '2' && CharOf(55) == '3'
      && CharOf(56) == '4' && CharOf(57) == '5' && CharOf(58) == '6' && CharOf(59) == '7'
      && CharOf(60) == '8' && CharOf(61) == '9' && CharOf(62) == '+' && CharOf(63) == '/'
      && CharOf(64) == '='
  {
  }

  /** Every other character is rejected, or from 128 on has no entry in the table. */
  lemma {:induction false} OtherCharacters(c: char)
    ensures (exists v :: 0 <= v <= 64 && CharOf(v) == c) <==> Value(c) <= 64
    ensures Value(c) > 64 ==> Value(c) == if c as int < 128 then 65 else 256
  {
    if Value(c) <= 64 {
      CharOfValue(c);
    } else {
      forall v | 0 <= v <= 64 ensures CharOf(v) != c {
        ValueOfChar(v);
      }
    }
    hide CharOf;
  }

  /** Examples of section 7 of RFC 3548. */
  lemma {:induction false} Examples()
    ensures Encode([0x14, 0xFB, 0x9C, 0x03, 0xD9, 0x7E]) == "FPucA9l+"
    ensures Encode([0x14, 0xFB, 0x9C, 0x03, 0xD9]) == "FPucA9k="
    ensures Encode([0x14, 0xFB, 0x9C, 0x03]) == "FPucAw=="
  {
    var b: seq<Octet> := [0x14, 0xFB, 0x9C, 0x03, 0xD9, 0x7E];
    assert b[3..] == [0x03, 0xD9, 0x7E] && b[..5][3..] == [0x03, 0xD9] && b[..4][3..] == [0x03];
  }

  datatype Encoding = Text(text: string) | EncodeFault

  lemma {:induction false} DivMod(a: nat, d: nat, q: nat, r: nat)
    requires d > 0 && r < d && a == q * d + r
    ensures a / d == q && a % d == r
  {
    var k: int := a / d - q;
    assert d * k == r - a % d;
    assert k >= 1 ==> d * k >= d;
    assert k <= -1 ==> d * k <= 0 - d;
  }

  /** The four groups of six bits in a word of three bytes. */
  lemma {:induction false} WordParts(b0: Octet, b1: Octet, b2: Octet)
    ensures var word := b0 * 0x1_0000 + b1 * 0x100 + b2;
      && word / 0x4_0000 % 64 == b0 / 4 && word / 0x1000 % 64 == b0 % 4 * 16 + b1 / 16
      && word / 0x40 % 64 == b1 % 16 * 4 + b2 / 64 && word % 64 == b2 % 64
  {
    var word := b0 * 0x1_0000 + b1 * 0x100 + b2;
    var v0, v1, v2, v3 := b0 / 4, b0 % 4 * 16 + b1 / 16, b1 % 16 * 4 + b2 / 64, b2 % 64;
    assert word == v0 * 0x4_0000 + v1 * 0x1000 + v2 * 0x40 + v3;
    DivMod(word, 0x4_0000, v0, v1 * 0x1000 + v2 * 0x40 + v3);
    DivMod(word, 0x1000, v0 * 64 + v1, v2 * 0x40 + v3);
    DivMod(v0 * 64 + v1, 64, v0, v1);
    DivMod(word, 0x40, v0 * 0x1000 + v1 * 64 + v2, v3);
    DivMod(v0 * 0x1000 + v1 * 64 + v2, 64, v0 * 64 + v1, v2);
  }

  /** `base64_encode`: its loop compares with the unsigned `len - 2`, so with less than two
      bytes it runs out of the buffer. */
  method EncodeBuffer(buffer: array<Octet>, len: nat) returns (r: Encoding)
    requires len <= buffer.Length
    ensures r == if len < 2 then EncodeFault else Text(Encode(buffer[..len]))
  {
    hide CharOf, Quad, Encode;
    if len < 2 {
      r := EncodeFault;
    } else {
      var clen := (len + 2) / 3 * 4;
      var cbuf := new char[clen + 1];
      var c, i := EncodeBlocks(cbuf, buffer, len);
      c := EncodeRest(cbuf, c, buffer, i, len);
      cbuf[c] := '\0';
      assert cbuf[..c] == Encode(buffer[..len]);
      r := Text(cbuf[..c]);
    }
  }

  /** The loop over three bytes at a time. */
  method EncodeBlocks(cbuf: array<char>, buffer: array<Octet>, len: nat) returns (c: nat, i: nat)
    requires 2 <= len <= buffer.Length && cbuf.Length == (len + 2) / 3 * 4 + 1
    modifies cbuf
    ensures i <= len <= i + 2 && c == i / 3 * 4 && i % 3 == 0
    ensures Encode(buffer[..len]) == cbuf[..c] + Encode(buffer[i..len])
  {
    hide CharOf, Quad, Encode;
    ghost var b, k := buffer[..len], 0;
    c, i := 0, 0;
    assert b[0..] == b && cbuf[..0] + Encode(b) == Encode(b);
    while i < len - 2
      invariant 0 <= i <= len && i == 3 * k && c == 4 * k
      invariant Encode(b) == cbuf[..c] + Encode(b[i..])
    {
      EncodeFrom(b, i);
      RoomFor(len, k);
      ghost var done := cbuf[..c];
      EncodeBlock(cbuf, c, buffer[i], buffer[i + 1], buffer[i + 2]);
      ghost var four := Quad(buffer[i], buffer[i + 1], buffer[i + 2]);
      assert cbuf[..c + 4] == done + four;
      assert done + (four + Encode(b[i + 3..])) == done + four + Encode(b[i + 3..]);
      i, c, k := i + 3, c + 4, k + 1;
    }
    assert b[i..] == buffer[i..len];
  }

  lemma {:induction false} EncodeFrom(b: seq<Octet>, i: nat)
    requires i + 3 <= |b|
    ensures Encode(b[i..]) == Quad(b[i], b[i + 1], b[i + 2]) + Encode(b[i + 3..])
  {
    hide CharOf, Quad;
    assert b[i..][3..] == b[i + 3..];
  }

  lemma {:induction false} RoomFor(len: nat, k: nat)
    requires 3 * k < len - 2
    ensures 4 * k + 4 <= (len + 2) / 3 * 4
  {
  }

  /** The one or two bytes that are left. */
  method EncodeRest(cbuf: array<char>, c: nat, buffer: array<Octet>, i: nat, len: nat) returns (d: nat)
    requires i <= len <= buffer.Length && len <= i + 2 && c == i / 3 * 4 && i % 3 == 0
    requires cbuf.Length == (len + 2) / 3 * 4 + 1
    modifies cbuf
    ensures d == (len + 2) / 3 * 4 && cbuf[..d] == old(cbuf[..c]) + Encode(buffer[i..len])
  {
    hide CharOf;
    d := c;
    if len - i == 1 {
      assert buffer[i..len] == [buffer[len - 1]];
      cbuf[c], cbuf[c + 1], cbuf[c + 2], cbuf[c + 3] :=
        CharOf(buffer[len - 1] / 4), CharOf(buffer[len - 1] % 4 * 16), CharOf(PAD), CharOf(PAD);
      d := c + 4;
    } else if len - i == 2 {
      assert buffer[i..len] == [buffer[len - 2], buffer[len - 1]];
      cbuf[c], cbuf[c + 1], cbuf[c + 2], cbuf[c + 3] :=
        CharOf(buffer[len - 2] / 4), CharOf(buffer[len - 2] % 4 * 16 + buffer[len - 1] / 16), CharOf(buffer[len - 1] % 16 * 4), CharOf(PAD);
      d := c + 4;
    }
  }

  /** Three bytes become four characters. */
  method EncodeBlock(cbuf: array<char>, c: nat, b0: Octet, b1: Octet, b2: Octet)
    requires c + 4 <= cbuf.Length
    modifies cbuf
    ensures cbuf[..] == old(cbuf[..c]) + Quad(b0, b1, b2) + old(cbuf[c + 4..])
  {
    hide CharOf;
    var word := b0 * 0x1_0000 + b1 * 0x100 + b2;
    WordParts(b0, b1, b2);
    cbuf[c] := CharOf(word / 0x4_0000 % 64);
    cbuf[c + 1] := CharOf(word / 0x1000 % 64);
    cbuf[c + 2] := CharOf(word / 0x40 % 64);
    cbuf[c + 3] := CharOf(word % 64);
  }

  // ------------------------------------------------------------------- decoding

  /** What `base64_decode` returns: bytes, NULL, or nothing at all, when it reads or writes
      outside what it may. */
  datatype Decoding = Decoded(bytes: seq<Octet>) | Rejected | DecodeFault

  predicate Full(q: string)
    requires |q| == 4
  {
    Value(q[0]) < PAD && Value(q[1]) < PAD && Value(q[2]) < PAD && Value(q[3]) < PAD
  }

  /** Four characters are three bytes. */
  function Triple(q: string): (b: seq<Octet>)
    requires |q| == 4 && Full(q)
    ensures |b| == 3
  {
    var v0, v1, v2, v3 := Value(q[0]), Value(q[1]), Value(q[2]), Value(q[3]);
    [v0 * 4 + v1 / 16, v1 % 16 * 16 + v2 / 4, v2 % 4 * 64 + v3]
  }

  /** The number of full quartets before the first that is not. */
  function Leading(t: string): (n: nat)
    ensures 4 * n <= |t| && (4 * n + 4 <= |t| ==> !Full(t[4 * n..4 * n + 4]))
  {
    if |t| < 4 || !Full(t[..4]) then 0 else Leading(t[4..]) + 1
  }

  function Body(t: string, n: nat): (b: seq<Octet>)
    requires n <= Leading(t)
    ensures |b| == 3 * n
  {
    if n == 0 then [] else Triple(t[..4]) + Body(t[4..], n - 1)
  }

  /** The first value of a quartet that is no digit. */
  function Stop(q: string): (v: nat)
    requires |q| == 4 && !Full(q)
    ensures v >= PAD
  {
    if Value(q[0]) >= PAD then Value(q[0]) else if Value(q[1]) >= PAD then Value(q[1])
    else if Value(q[2]) >= PAD then Value(q[2]) else Value(q[3])
  }

  datatype Nudge = Nudge(n: nat) | NoNudge | NudgeFault

  /** `base64_decoded_len` looks at the last characters for the pad. */
  function NudgeOf(t: string): Nudge
    requires |t| >= 4
  {
    var n := |t|;
    if Value(t[n - 1]) == OUTSIDE then NudgeFault
    else if Value(t[n - 1]) < PAD then Nudge(0)
    else if Value(t[n - 1]) != PAD then NoNudge
    else if Value(t[n - 2]) == OUTSIDE then NudgeFault
    else if Value(t[n - 2]) < PAD then Nudge(1)
    else if Value(t[n - 2]) != PAD then NoNudge
    else if Value(t[n - 3]) == OUTSIDE then NudgeFault
    else if Value(t[n - 3]) < PAD then Nudge(2)
    else NoNudge
  }

  function LengthOf(t: string, nudge: Nudge): (n: nat)
    requires |t| >= 4
  {
    if nudge.Nudge? && nudge.n <= 2 then 3 * (|t| / 4) - nudge.n else 0
  }

  /** The last quartet once more, by the remainder of the length. */
  function Tail(q: string, body: seq<Octet>, rest: nat): Decoding
    requires |q| == 4
  {
    var v0, v1, v2, v3 := Value(q[0]), Value(q[1]), Value(q[2]), Value(q[3]);
    if rest == 0 then Decoded(body)
    else if v0 == OUTSIDE || (v0 < PAD && v1 == OUTSIDE) then DecodeFault
    else if v0 >= PAD || v1 >= PAD then Rejected
    else if rest == 1 then
      if v2 == OUTSIDE || (v2 == PAD && v3 == OUTSIDE) then DecodeFault
      else if v2 != PAD || v3 != PAD then Rejected
      else Decoded(body + [v0 * 4 + v1 / 16])
    else
      if v2 == OUTSIDE || (v2 < PAD && v3 == OUTSIDE) then DecodeFault
      else if v2 >= PAD || v3 != PAD then Rejected
      else Decoded(body + [v0 * 4 + v1 / 16, v1 % 16 * 16 + v2 / 4])
  }

  /** `base64_decode`, as a function of the text. */
  function Decode(t: string): Decoding {
    if |t| % 4 != 0 then Rejected
    else if t == "" || NudgeOf(t).NudgeFault? then DecodeFault
    else
      var dlen, n := LengthOf(t, NudgeOf(t)), Leading(t);
      if 3 * n > dlen + 1 then DecodeFault
      else if 4 * n < |t| && Stop(t[4 * n..4 * n + 4]) == OUTSIDE then DecodeFault
      else if 4 * n < |t| && Stop(t[4 * n..4 * n + 4]) == BAD then Rejected
      else Tail(t[|t| - 4..], Body(t, n), dlen % 3)
  }

  /** The values of four characters: the loop breaks at the first that is no digit. */
  method ReadQuartet(t: string, i: nat) returns (word: nat, hextet: nat)
    requires i + 4 <= |t|
    ensures var q := t[i..i + 4];
      if Full(q) then hextet < PAD && [word / 0x1_0000 % 256, word / 0x100 % 256, word % 256] == Triple(q) else hextet == Stop(q)
  {
    hide Value, Triple;
    ghost var q := t[i..i + 4];
    assert q[0] == t[i] && q[1] == t[i + 1] && q[2] == t[i + 2] && q[3] == t[i + 3];
    word := 0;
    hextet := Value(t[i]);
    if hextet < PAD {
      word := hextet * 0x4_0000;
      hextet := Value(t[i + 1]);
      if hextet < PAD {
        word := word + hextet * 0x1000;
        hextet := Value(t[i + 2]);
        if hextet < PAD {
          word := word + hextet * 0x40;
          hextet := Value(t[i + 3]);
          if hextet < PAD {
            word := word + hextet;
            WordIsTriple(q, word);
          }
        }
      }
    }
  }

  lemma {:induction false} WordBytes(v0: nat, v1: nat, v2: nat, v3: nat)
    requires v0 < 64 && v1 < 64 && v2 < 64 && v3 < 64
    ensures var word := v0 * 0x4_0000 + v1 * 0x1000 + v2 * 0x40 + v3;
      && word / 0x1_0000 % 256 == v0 * 4 + v1 / 16 && word / 0x100 % 256 == v1 % 16 * 16 + v2 / 4 && word % 256 == v2 % 4 * 64 + v3
  {
    var word := v0 * 0x4_0000 + v1 * 0x1000 + v2 * 0x40 + v3;
    var b0, b1, b2 := v0 * 4 + v1 / 16, v1 % 16 * 16 + v2 / 4, v2 % 4 * 64 + v3;
    assert word == b0 * 0x1_0000 + b1 * 0x100 + b2;
    DivMod(word, 0x1_0000, b0, b1 * 0x100 + b2);
    DivMod(word, 0x100, b0 * 0x100 + b1, b2);
    DivMod(b0 * 0x100 + b1, 0x100, b0, b1);
  }

  lemma {:induction false} WordIsTriple(q: string, word: nat)
    requires |q| == 4 && Full(q)
    requires word == Value(q[0]) * 0x4_0000 + Value(q[1]) * 0x1000 + Value(q[2]) * 0x40 + Value(q[3])
    ensures [word / 0x1_0000 % 256, word / 0x100 % 256, word % 256] == Triple(q)
  {
    hide Value;
    WordBytes(Value(q[0]), Value(q[1]), Value(q[2]), Value(q[3]));
  }

  /** The loop over four characters at a time; it does not fit if it would write behind the
      end of the buffer. */
  method DecodeQuartets(t: string, dbuf: array<Octet>) returns (fits: bool, d: nat, hextet: nat)
    requires t != "" && |t| % 4 == 0
    modifies dbuf
    ensures var n := Leading(t);
      && fits == (3 * n <= dbuf.Length)
      && (fits ==> d == 3 * n && dbuf[..d] == Body(t, n))
      && (fits ==> if 4 * n < |t| then hextet == Stop(t[4 * n..4 * n + 4]) else hextet < PAD)
  {
    hide Value, Triple, Full, Stop, Leading, Body;
    BodyStarts(t);
    d, hextet, fits := 0, 0, true;
    var n := 0;
    while 4 * n < |t| && hextet < PAD && fits
      invariant 4 * n <= |t| && d == 3 * n && n <= Leading(t)
      invariant fits ==> d <= dbuf.Length && dbuf[..d] == Body(t, n)
      invariant !fits ==> 3 * Leading(t) > dbuf.Length
      invariant hextet >= PAD ==> 4 * n < |t| && !Full(t[4 * n..4 * n + 4]) && hextet == Stop(t[4 * n..4 * n + 4])
      decreases |t| - 4 * n, if hextet < PAD then 1 else 0, if fits then 1 else 0
    {
      var word: nat;
      word, hextet := ReadQuartet(t, 4 * n);
      StopIsLarge(t[4 * n..4 * n + 4]);
      if hextet < PAD {
        LeadingMore(t, n);
        if d + 3 > dbuf.Length {
          fits := false;
        } else {
          PutTriple(dbuf, d, word, Body(t, n), t[4 * n..4 * n + 4]);
          d, n := d + 3, n + 1;
        }
      }
    }
    if fits {
      LeadingEnds(t, n);
    }
  }

  method PutTriple(dbuf: array<Octet>, d: nat, word: nat, ghost body: seq<Octet>, ghost q: string)
    requires d + 3 <= dbuf.Length && dbuf[..d] == body && |q| == 4 && Full(q)
    requires [word / 0x1_0000 % 256, word / 0x100 % 256, word % 256] == Triple(q)
    modifies dbuf
    ensures dbuf[..d + 3] == body + Triple(q)
  {
    hide *;
    dbuf[d], dbuf[d + 1], dbuf[d + 2] := word / 0x1_0000 % 256, word / 0x100 % 256, word % 256;
  }

  lemma {:induction false} BodyStarts(t: string)
    ensures Body(t, 0) == []
  {
  }

  lemma {:induction false} StopIsLarge(q: string)
    requires |q| == 4
    ensures !Full(q) ==> Stop(q) == PAD || Stop(q) == BAD || Stop(q) == OUTSIDE
  {
  }

  /** `base64_decoded_len`. */
  method DecodedLen(t: string) returns (faults: bool, len: nat)
    requires |t| >= 4
    ensures faults == NudgeOf(t).NudgeFault? && (!faults ==> len == LengthOf(t, NudgeOf(t)))
  {
    hide Value;
    var n, nudge := |t|, -1;
    var c := Value(t[n - 1]);
    faults := c == OUTSIDE;
    if c < PAD {
      nudge := 0;
    } else if c == PAD {
      c := Value(t[n - 2]);
      faults := c == OUTSIDE;
      if c < PAD {
        nudge := 1;
      } else if c == PAD {
        c := Value(t[n - 3]);
        faults := c == OUTSIDE;
        if c < PAD {
          nudge := 2;
        }
      }
    }
    len := if nudge < 0 then 0 else 3 * (n / 4) - nudge;
  }

  lemma {:induction false} LeadingFull(t: string, k: nat)
    requires k < Leading(t)
    ensures 4 * k + 4 <= |t| && Full(t[4 * k..4 * k + 4])
  {
    hide Full;
    if k == 0 {
      assert t[0..4] == t[..4];
    } else {
      LeadingFull(t[4..], k - 1);
      OfRest(t, 4 * k, 4 * k + 4);
    }
  }

  lemma {:induction false} OfRest(t: string, from: nat, to: nat)
    requires 4 <= from <= to <= |t|
    ensures t[4..][from - 4..to - 4] == t[from..to]
  {
    hide *;
    var a, b := t[4..][from - 4..to - 4], t[from..to];
    assert forall i :: 0 <= i < |b| ==> a[i] == b[i];
  }

  /** What the last quartet has more than the full ones goes into the buffer. */
  lemma {:induction false} RestFits(t: string)
    requires t != "" && |t| % 4 == 0 && !NudgeOf(t).NudgeFault?
    ensures var dlen := LengthOf(t, NudgeOf(t)); dlen % 3 != 0 ==> 3 * Leading(t) + dlen % 3 <= dlen
  {
    hide Value, Leading;
    var m := |t| / 4;
    LastIsDigit(t);
    if Value(t[|t| - 1]) == PAD {
      assert Leading(t) <= m - 1;
    }
  }

  lemma {:induction false} LastIsDigit(t: string)
    requires t != "" && |t| % 4 == 0
    ensures Leading(t) <= |t| / 4
    ensures Leading(t) == |t| / 4 ==> Value(t[|t| - 1]) < PAD
  {
    hide Value;
    var m := |t| / 4;
    if Leading(t) == m {
      hide Leading;
      LeadingFull(t, m - 1);
      assert t[4 * (m - 1)..4 * (m - 1) + 4][3] == t[|t| - 1];
    }
  }

  /** The switch: the last quartet is decoded again, for one byte or for two. */
  method RedoLast(t: string, dbuf: array<Octet>, d: nat, rest: nat) returns (r: Decoding)
    requires |t| >= 4 && rest < 3 && d + rest <= dbuf.Length
    modifies dbuf
    ensures r == Tail(t[|t| - 4..], old(dbuf[..d]), rest)
  {
    hide Value;
    ghost var q, body := t[|t| - 4..], dbuf[..d];
    var n := |t|;
    assert q[0] == t[n - 4] && q[1] == t[n - 3] && q[2] == t[n - 2] && q[3] == t[n - 1];
    if rest == 0 {
      return Decoded(dbuf[..d]);
    }
    var hextet := Value(t[n - 4]);
    if hextet >= PAD {
      return if hextet == OUTSIDE then DecodeFault else Rejected;
    }
    var first := hextet;
    hextet := Value(t[n - 3]);
    if hextet >= PAD {
      return if hextet == OUTSIDE then DecodeFault else Rejected;
    }
    dbuf[d] := first * 4 + hextet / 16;
    if rest == 1 {
      hextet := Value(t[n - 2]);
      if hextet == PAD {
        hextet := Value(t[n - 1]);
      }
      if hextet != PAD {
        return if hextet == OUTSIDE then DecodeFault else Rejected;
      }
    } else {
      var second := hextet;
      hextet := Value(t[n - 2]);
      if hextet >= PAD {
        return if hextet == OUTSIDE then DecodeFault else Rejected;
      }
      dbuf[d + 1] := second % 16 * 16 + hextet / 4;
      hextet := Value(t[n - 1]);
      if hextet != PAD {
        return if hextet == OUTSIDE then DecodeFault else Rejected;
      }
    }
    r := Decoded(dbuf[..d + rest]);
  }

  /** `base64_decode`. */
  method DecodeBuffer(t: string) returns (r: Decoding)
    ensures r == Decode(t)
  {
    hide Value, Triple, NudgeOf, Tail, Full, Stop, Body, Leading, LengthOf;
    if |t| % 4 != 0 {
      return Rejected;
    } else if t == "" {
      return DecodeFault;
    }
    var faults, dlen := DecodedLen(t);
    if faults {
      r := DecodeFault;
    } else {
      RestFits(t);
      var dbuf := new Octet[dlen + 1](_ => 0);
      var fits, d, hextet := DecodeQuartets(t, dbuf);
      ghost var n := Leading(t);
      if 4 * n < |t| {
        StopIsLarge(t[4 * n..4 * n + 4]);
      }
      if !fits || hextet == OUTSIDE {
        r := DecodeFault;
      } else if hextet > PAD {
        r := Rejected;
      } else {
        r := RedoLast(t, dbuf, d, dlen % 3);
      }
    }
  }

  /** A full quartet after full quartets. */
  lemma {:induction false} LeadingMore(t: string, k: nat)
    requires k <= Leading(t) && 4 * k + 4 <= |t| && Full(t[4 * k..4 * k + 4])
    ensures k + 1 <= Leading(t) && Body(t, k + 1) == Body(t, k) + Triple(t[4 * k..4 * k + 4])
  {
    hide Value, Triple;
    if k > 0 {
      OfRest(t, 4 * k, 4 * k + 4);
      LeadingMore(t[4..], k - 1);
    }
  }

  lemma {:induction false} LeadingEnds(t: string, k: nat)
    requires k <= Leading(t) && 4 * k <= |t| && (4 * k + 4 <= |t| ==> !Full(t[4 * k..4 * k + 4]))
    ensures |t| % 4 == 0 ==> k == Leading(t)
  {
    hide *;
    LeadingUnfolds(t);
    if k > 0 {
      if 4 * k + 4 <= |t| {
        OfRest(t, 4 * k, 4 * k + 4);
      }
      LeadingEnds(t[4..], k - 1);
    } else if |t| >= 4 {
      assert t[0..4] == t[..4];
    }
  }

  lemma {:induction false} LeadingUnfolds(t: string)
    ensures Leading(t) == if |t| < 4 || !Full(t[..4]) then 0 else Leading(t[4..]) + 1
  {
    hide Full;
  }

  // ---------------------------------------------------------------- round trips

  lemma {:induction false} SextetsBack(b0: Octet, b1: Octet, b2: Octet)
    ensures b0 / 4 < 64 && b0 % 4 * 16 + b1 / 16 < 64 && b1 % 16 * 4 + b2 / 64 < 64 && b2 % 64 < 64
    ensures var v0, v1, v2, v3 := b0 / 4, b0 % 4 * 16 + b1 / 16, b1 % 16 * 4 + b2 / 64, b2 % 64;
      && v0 * 4 + v1 / 16 == b0 && v1 % 16 * 16 + v2 / 4 == b1 && v2 % 4 * 64 + v3 == b2
  {
    DivMod(b0 % 4 * 16 + b1 / 16, 16, b0 % 4, b1 / 16);
    DivMod(b1 % 16 * 4 + b2 / 64, 4, b1 % 16, b2 / 64);
  }

  lemma {:induction false} TripleOfQuad(b0: Octet, b1: Octet, b2: Octet)
    ensures Full(Quad(b0, b1, b2)) && Triple(Quad(b0, b1, b2)) == [b0, b1, b2]
  {
    hide Value, CharOf;
    SextetsBack(b0, b1, b2);
    ValueOfChar(b0 / 4);
    ValueOfChar(b0 % 4 * 16 + b1 / 16);
    ValueOfChar(b1 % 16 * 4 + b2 / 64);
    ValueOfChar(b2 % 64);
  }

  /** The whole groups of a text. */
  lemma {:induction false} LeadingOfEncoded(b: seq<Octet>)
    ensures var n := |b| / 3; Leading(Encode(b)) == n && Body(Encode(b), n) == b[..3 * n]
  {
    hide *;
    if |b| < 3 {
      LeadingOfLast(b);
    } else {
      TripleOfQuad(b[0], b[1], b[2]);
      EncodeSteps(b);
      LeadingOfEncoded(b[3..]);
      BodySteps(Encode(b), |b[3..]| / 3);
      FirstBytes(b, |b[3..]| / 3);
    }
  }

  lemma {:induction false} LeadingOfLast(b: seq<Octet>)
    requires |b| < 3
    ensures Leading(Encode(b)) == 0 && Body(Encode(b), 0) == []
  {
    var t := Encode(b);
    hide *;
    LastQuartet(b);
    LeadingUnfolds(t);
    BodyStarts(t);
    assert t[..|t|] == t;
  }

  lemma {:induction false} FirstBytes(b: seq<Octet>, n: nat)
    requires 3 * n + 3 <= |b|
    ensures b[..3 * (n + 1)] == [b[0], b[1], b[2]] + b[3..][..3 * n]
  {
  }

  lemma {:induction false} EncodeSteps(b: seq<Octet>)
    requires |b| >= 3
    ensures |Encode(b)| >= 4 && Encode(b)[..4] == Quad(b[0], b[1], b[2]) && Encode(b)[4..] == Encode(b[3..])
  {
    hide CharOf;
  }

  lemma {:induction false} BodySteps(t: string, k: nat)
    requires |t| >= 4 && Full(t[..4]) && k <= Leading(t[4..])
    ensures Leading(t) == 1 + Leading(t[4..]) && Body(t, k + 1) == Triple(t[..4]) + Body(t[4..], k)
  {
    hide Full, Triple;
  }

  /** One or two bytes make a quartet that is not full. */
  lemma {:induction false} LastQuartet(b: seq<Octet>)
    requires |b| < 3
    ensures b != [] ==> var t := Encode(b);
      |t| == 4 && !Full(t) && Stop(t) == PAD && Tail(t, [], |b|) == Decoded(b)
      && NudgeOf(t) == Nudge(3 - |b|) && LengthOf(t, NudgeOf(t)) == |b|
  {
    if |b| == 1 {
      LastOne(b[0]);
    } else if |b| == 2 {
      LastTwo(b[0], b[1]);
    }
  }

  lemma {:induction false} LastOne(b0: Octet)
    ensures var t := [CharOf(b0 / 4), CharOf(b0 % 4 * 16), CharOf(PAD), CharOf(PAD)];
      !Full(t) && Stop(t) == PAD && Tail(t, [], 1) == Decoded([b0]) && NudgeOf(t) == Nudge(2)
  {
    hide Value, CharOf;
    SextetsBack(b0, 0, 0);
    ValueOfChar(b0 / 4);
    ValueOfChar(b0 % 4 * 16);
    ValueOfChar(PAD);
  }

  lemma {:induction false} LastTwo(b0: Octet, b1: Octet)
    ensures var t := [CharOf(b0 / 4), CharOf(b0 % 4 * 16 + b1 / 16), CharOf(b1 % 16 * 4), CharOf(PAD)];
      !Full(t) && Stop(t) == PAD && Tail(t, [], 2) == Decoded([b0, b1]) && NudgeOf(t) == Nudge(1)
  {
    hide Value, CharOf;
    SextetsBack(b0, b1, 0);
    ValueOfChar(b0 / 4);
    ValueOfChar(b0 % 4 * 16 + b1 / 16);
    ValueOfChar(b1 % 16 * 4);
    ValueOfChar(PAD);
  }

  lemma {:induction false} TailOnBody(q: string, body: seq<Octet>, rest: nat)
    requires |q| == 4 && Tail(q, [], rest).Decoded?
    ensures Tail(q, body, rest) == Decoded(body + Tail(q, [], rest).bytes)
  {
    hide Value;
  }

  /** The bytes that the last quartet holds. */
  function Last(b: seq<Octet>): (l: seq<Octet>)
    requires b != []
    ensures 1 <= |l| <= 3 && |b| % 3 == |l| % 3
  {
    if |b| > 3 then Last(b[3..]) else b
  }

  /** The end of a text is the encoding of the end of the bytes. */
  lemma {:induction false} EndOfEncoded(b: seq<Octet>)
    requires b != []
    ensures var t := Encode(b); |t| >= 4 && t[|t| - 4..] == Encode(Last(b))
    ensures b == b[..|b| - |Last(b)|] + Last(b)
  {
    hide CharOf, Quad, Encode;
    if |b| > 3 {
      EndOfEncoded(b[3..]);
      EncodeFrom(b, 0);
      assert b[0..] == b;
      EndOfBoth(Quad(b[0], b[1], b[2]), Encode(b[3..]));
      assert b == b[..3] + b[3..];
    } else {
      OneQuartet(b);
    }
  }

  lemma {:induction false} EndOfBoth(q: string, u: string)
    requires |u| >= 4
    ensures var t := q + u; |t| >= 4 && t[|t| - 4..] == u[|u| - 4..]
  {
  }

  lemma {:induction false} OneQuartet(b: seq<Octet>)
    requires 1 <= |b| <= 3
    ensures |Encode(b)| == 4 && Encode(b)[0..] == Encode(b)
  {
    hide CharOf, Quad, Encode;
  }

  lemma {:induction false} NudgeIsOfTheEnd(t: string)
    requires |t| >= 4
    ensures NudgeOf(t) == NudgeOf(t[|t| - 4..])
  {
    hide Value;
  }

  lemma {:induction false} LastFull(b: seq<Octet>)
    requires |b| == 3
    ensures NudgeOf(Encode(b)) == Nudge(0)
  {
    hide Value, CharOf;
    SextetsBack(b[0], b[1], b[2]);
    ValueOfChar(b[2] % 64);
    assert b[3..] == [];
    assert Encode(b) == Quad(b[0], b[1], b[2]);
  }

  /** A text of full quartets. */
  lemma {:induction false} DecodeFull(t: string, n: nat)
    requires t != "" && |t| == 4 * n && NudgeOf(t) == Nudge(0) && Leading(t) == n
    ensures Decode(t) == Decoded(Body(t, n))
  {
    hide Value, Triple, Full, Leading, Body, NudgeOf, Tail, Stop;
    TailAtRest(t[|t| - 4..], Body(t, n));
    DivMod(3 * n, 3, n, 0);
  }

  /** A text whose last quartet is padded. */
  lemma {:induction false} DecodePadded(t: string, n: nat, k: nat)
    requires |t| == 4 * n + 4 && 1 <= k <= 2 && NudgeOf(t) == Nudge(3 - k) && Leading(t) == n
    requires Stop(t[4 * n..4 * n + 4]) == PAD && Tail(t[4 * n..], [], k).Decoded?
    ensures Decode(t) == Decoded(Body(t, n) + Tail(t[4 * n..], [], k).bytes)
  {
    hide Value, Triple, Full, Leading, Body, NudgeOf, Tail, Stop;
    assert LengthOf(t, NudgeOf(t)) == 3 * n + k;
    DivMod(3 * n + k, 3, n, k);
    TailOnBody(t[4 * n..], Body(t, n), k);
  }

  lemma {:induction false} Sizes(b: seq<Octet>)
    ensures var n := |b| / 3;
      && |Encode(b)| == (if |b| % 3 == 0 then 4 * n else 4 * n + 4) && |b| == 3 * n + |b| % 3 && |b| % 3 < 3
  {
    hide Encode;
    var n, r := |b| / 3, |b| % 3;
    if r == 0 {
      DivMod(|b| + 2, 3, n, 2);
    } else {
      DivMod(|b| + 2, 3, n + 1, r - 1);
    }
  }

  lemma {:induction false} EncodedWhole(b: seq<Octet>)
    requires b != [] && |b| % 3 == 0
    ensures Decode(Encode(b)) == Decoded(b)
  {
    hide *;
    var t, n := Encode(b), |b| / 3;
    Sizes(b);
    LeadingOfEncoded(b);
    EndOfEncoded(b);
    NudgeIsOfTheEnd(t);
    assert |Last(b)| == 3;
    LastFull(Last(b));
    DecodeFull(t, n);
    assert b[..3 * n] == b;
  }

  lemma {:induction false} EncodedPadded(b: seq<Octet>)
    requires b != [] && |b| % 3 != 0
    ensures Decode(Encode(b)) == Decoded(b)
  {
    hide *;
    var t, n, last := Encode(b), |b| / 3, Last(b);
    Sizes(b);
    LeadingOfEncoded(b);
    EndOfEncoded(b);
    NudgeIsOfTheEnd(t);
    assert |last| < 3;
    LastQuartet(last);
    assert t[4 * n..4 * n + 4] == t[4 * n..] == t[|t| - 4..];
    DecodePadded(t, n, |last|);
    assert |b| - |last| == 3 * n;
  }

  /** Decoding undoes encoding. */
  lemma {:induction false} DecodeOfEncoded(b: seq<Octet>)
    requires b != []
    ensures Decode(Encode(b)) == Decoded(b)
  {
    hide *;
    if |b| % 3 == 0 {
      EncodedWhole(b);
    } else {
      EncodedPadded(b);
    }
  }

  lemma {:induction false} TailAtRest(q: string, body: seq<Octet>)
    requires |q| == 4
    ensures Tail(q, body, 0) == Decoded(body)
  {
  }

  /** The texts that the standard's encoder makes: full quartets, and a last one that is full
      or padded at its end, with no bits left over. */
  predicate Canonical(t: string) {
    && |t| >= 4
    && if |t| == 4 then CanonicalEnd(t) else Full(t[..4]) && Canonical(t[4..])
  }

  predicate CanonicalEnd(q: string)
    requires |q| == 4
  {
    || Full(q)
    || (Value(q[0]) < PAD && Value(q[1]) < PAD && Value(q[2]) < PAD && Value(q[2]) % 4 == 0 && Value(q[3]) == PAD)
    || (Value(q[0]) < PAD && Value(q[1]) < PAD && Value(q[1]) % 16 == 0 && Value(q[2]) == PAD && Value(q[3]) == PAD)
  }

  lemma {:induction false} EncodedIsCanonical(b: seq<Octet>)
    requires b != []
    ensures Canonical(Encode(b))
  {
    if |b| > 3 {
      TripleOfQuad(b[0], b[1], b[2]);
      EncodedIsCanonical(b[3..]);
      hide Value, CharOf, Quad, Full;
      assert Encode(b)[..4] == Quad(b[0], b[1], b[2]) && Encode(b)[4..] == Encode(b[3..]);
    } else if |b| == 3 {
      TripleOfQuad(b[0], b[1], b[2]);
      hide Value, CharOf, Quad, Full;
      assert b[3..] == [] && Encode(b) == Quad(b[0], b[1], b[2]);
    } else if |b| == 2 {
      hide Value, CharOf;
      SextetsBack(b[0], b[1], 0);
      ValueOfChar(b[0] / 4);
      ValueOfChar(b[0] % 4 * 16 + b[1] / 16);
      ValueOfChar(b[1] % 16 * 4);
      ValueOfChar(PAD);
    } else {
      hide Value, CharOf;
      SextetsBack(b[0], 0, 0);
      ValueOfChar(b[0] / 4);
      ValueOfChar(b[0] % 4 * 16);
      ValueOfChar(PAD);
    }
  }

  /** The bytes a canonical text stands for. */
  function Raw(t: string): (b: seq<Octet>)
    requires Canonical(t)
    ensures b != []
  {
    if |t| > 4 then Triple(t[..4]) + Raw(t[4..])
    else if Full(t) then Triple(t)
    else if Value(t[2]) < PAD then [Value(t[0]) * 4 + Value(t[1]) / 16, Value(t[1]) % 16 * 16 + Value(t[2]) / 4]
    else [Value(t[0]) * 4 + Value(t[1]) / 16]
  }

  lemma {:induction false} ValuesBack(v0: nat, v1: nat, v2: nat, v3: nat)
    requires v0 < 64 && v1 < 64 && v2 < 64 && v3 < 64
    ensures var b0, b1, b2 := v0 * 4 + v1 / 16, v1 % 16 * 16 + v2 / 4, v2 % 4 * 64 + v3;
      && b0 < 256 && b1 < 256 && b2 < 256
      && b0 / 4 == v0 && b0 % 4 * 16 + b1 / 16 == v1 && b1 % 16 * 4 + b2 / 64 == v2 && b2 % 64 == v3
  {
    var b0, b1, b2 := v0 * 4 + v1 / 16, v1 % 16 * 16 + v2 / 4, v2 % 4 * 64 + v3;
    DivMod(b0, 4, v0, v1 / 16);
    DivMod(b1, 16, v1 % 16, v2 / 4);
    DivMod(b2, 64, v2 % 4, v3);
  }

  lemma {:induction false} QuadOfTriple(q: string)
    requires |q| == 4 && Full(q)
    ensures var b := Triple(q); Quad(b[0], b[1], b[2]) == q
  {
    hide Value, CharOf;
    ValuesBack(Value(q[0]), Value(q[1]), Value(q[2]), Value(q[3]));
    CharOfValue(q[0]);
    CharOfValue(q[1]);
    CharOfValue(q[2]);
    CharOfValue(q[3]);
  }

  lemma {:induction false} EncodeOfRaw(t: string)
    requires Canonical(t)
    ensures Encode(Raw(t)) == t
  {
    var b := Raw(t);
    if |t| > 4 {
      QuadOfTriple(t[..4]);
      EncodeOfRaw(t[4..]);
      hide Value, CharOf, Quad, Full, Triple;
      assert b[3..] == Raw(t[4..]);
      assert t == t[..4] + t[4..];
    } else if Full(t) {
      QuadOfTriple(t);
      hide Value, CharOf, Quad, Full, Triple;
      assert b[3..] == [] && Encode([]) == "";
      assert t + "" == t;
    } else {
      EndOfRaw(t);
    }
  }

  lemma {:induction false} EndOfRaw(t: string)
    requires |t| == 4 && Canonical(t) && !Full(t)
    ensures Encode(Raw(t)) == t
  {
    hide Value, CharOf;
    CharOfValue(t[0]);
    CharOfValue(t[1]);
    CharOfValue(t[2]);
    CharOfValue(t[3]);
    if Value(t[2]) < PAD {
      ValuesBack(Value(t[0]), Value(t[1]), Value(t[2]), 0);
    } else {
      ValuesBack(Value(t[0]), Value(t[1]), 0, 0);
    }
  }

  /** What was decoded encodes back to the text exactly if the text was canonical; and every
      canonical text is decoded. */
  lemma {:induction false} EncodeOfDecoded(t: string)
    ensures Canonical(t) ==> Decode(t).Decoded?
    ensures Decode(t).Decoded? ==> (Encode(Decode(t).bytes) == t <==> Canonical(t))
  {
    hide Value, CharOf, Quad, Full, Triple, CanonicalEnd, Decode;
    if Canonical(t) {
      EncodeOfRaw(t);
      DecodeOfEncoded(Raw(t));
    } else if Decode(t).Decoded? && Encode(Decode(t).bytes) == t {
      DecodedOfNothing();
      EncodedIsCanonical(Decode(t).bytes);
    }
  }

  lemma {:induction false} DecodedOfNothing()
    ensures Encode([]) == "" && Decode("") == DecodeFault
  {
  }
}
