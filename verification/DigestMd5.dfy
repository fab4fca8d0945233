/** The answer to a DIGEST-MD5 challenge (src/sasl.c:219-337), against section 2.1.2.1 of
    RFC 2831. */
module DigestMd5 {
  import opened Common
  import opened Words
  import opened Streams
  import opened Narrowing
  import opened Directives
  import Base64
  import Buckets
  import Md5Contexts
  import Md5Vectors

  // ------------------------------------------------------------- the response value

  function BytesOf(s: string): (b: seq<Byte>)
    ensures |b| == |s|
  {
    seq(|s|, i requires 0 <= i < |s| => (s[i] as int % 256) as Byte)
  }

  function HexDigit(n: Byte): char {
    if n == 0 then '0' else if n == 1 then '1' else if n == 2 then '2' else if n == 3 then '3'
    else if n == 4 then '4' else if n == 5 then '5' else if n == 6 then '6' else if n == 7 then '7'
    else if n == 8 then '8' else if n == 9 then '9' else if n == 10 then 'a' else if n == 11 then 'b'
    else if n == 12 then 'c' else if n == 13 then 'd' else if n == 14 then 'e' else 'f'
  }

  /** Section 2.1.2.1: 32 hexadecimal digits for 16 bytes, always in lower case. */
  function Hex(b: seq<Byte>): (t: string)
    ensures |t| == 2 * |b|
  {
    if b == [] then "" else [HexDigit((b[0] >> 4) & 0x0F), HexDigit(b[0] & 0x0F)] + Hex(b[1..])
  }

  function H(b: seq<Byte>): (d: seq<Byte>)
    ensures |d| == 16
  {
    Md5Contexts.Hash(b)
  }

  /** KD(k, s) is H of k, a colon, and s. */
  function KD(k: string, s: string): seq<Byte> {
    H(BytesOf(k + ":" + s))
  }

  function A1(username: string, realm: string, passwd: string, nonce: string, cnonce: string): seq<Byte> {
    H(BytesOf(username + ":" + realm + ":" + passwd)) + BytesOf(":" + nonce + ":" + cnonce)
  }

  function A2(uri: string, qop: string): string {
    "AUTHENTICATE:" + uri + (if qop == "auth" then "" else ":00000000000000000000000000000000")
  }

  /** response-value. */
  function ResponseValue(username: string, realm: string, passwd: string, nonce: string, cnonce: string, nc: string, qop: string, uri: string): string {
    Hex(KD(Hex(H(A1(username, realm, passwd, nonce, cnonce))),
      nonce + ":" + nc + ":" + cnonce + ":" + qop + ":" + Hex(H(BytesOf(A2(uri, qop))))))
  }

  lemma {:induction false} BytesJoin(a: string, b: string)
    ensures BytesOf(a + b) == BytesOf(a) + BytesOf(b)
  {
  }

  method ArrayOf(b: seq<Byte>) returns (data: array<Byte>)
    ensures fresh(data) && data[..] == b && data[..|b|] == b
  {
    data := new Byte[|b|](i requires 0 <= i < |b| => b[i]);
  }

  /** `MD5Update` with some bytes. */
  method FeedBytes(c: Md5Contexts.Context, ghost m: seq<Byte>, b: seq<Byte>)
    requires c.Absorbed(m) && |b| < TWO32
    modifies c, c.buf, c.input
    ensures c.Absorbed(m + b)
  {
    hide Md5Contexts.Context.Absorbed;
    var data := ArrayOf(b);
    c.Update(m, data, |b|);
  }

  /** `MD5Update` with a string. */
  method Feed(c: Md5Contexts.Context, ghost m: seq<Byte>, s: string)
    requires c.Absorbed(m) && |s| < TWO32
    modifies c, c.buf, c.input
    ensures c.Absorbed(m + BytesOf(s))
  {
    hide Md5Contexts.Context.Absorbed;
    FeedBytes(c, m, BytesOf(s));
  }

  /** What a context was fed, string by string. */
  method FeedAll(c: Md5Contexts.Context, ghost m: seq<Byte>, parts: seq<string>)
    requires c.Absorbed(m) && forall i :: 0 <= i < |parts| ==> |parts[i]| < TWO32
    modifies c, c.buf, c.input
    ensures c.Absorbed(m + BytesOf(Together(parts)))
  {
    hide Md5Contexts.Context.Absorbed, BytesOf;
    var i := 0;
    assert m + BytesOf("") == m by { NoBytes(); }
    while i < |parts|
      invariant 0 <= i <= |parts| && c.Absorbed(m + BytesOf(Together(parts[..i])))
    {
      assert parts[..i + 1][..i] == parts[..i];
      BytesJoin(Together(parts[..i]), parts[i]);
      assert m + (BytesOf(Together(parts[..i])) + BytesOf(parts[i])) == m + BytesOf(Together(parts[..i])) + BytesOf(parts[i]);
      Feed(c, m + BytesOf(Together(parts[..i])), parts[i]);
      i := i + 1;
    }
    assert parts[..|parts|] == parts;
  }

  function Together(parts: seq<string>): string {
    if parts == [] then "" else Together(parts[..|parts| - 1]) + parts[|parts| - 1]
  }

  lemma {:induction false} NoBytes()
    ensures BytesOf("") == []
  {
  }

  lemma {:induction false} TogetherMore(parts: seq<string>, x: string)
    ensures Together(parts + [x]) == Together(parts) + x
  {
    assert (parts + [x])[..|parts|] == parts;
  }

  lemma {:induction false} TogetherTwo(a: string, b: string)
    ensures Together([a, b]) == a + b
  {
    hide Together;
    assert Together([]) == "" && Together([a]) == a by { TogetherOne(a); }
    TogetherMore([a], b);
    assert [a] + [b] == [a, b];
  }

  lemma {:induction false} TogetherOne(a: string)
    ensures Together([]) == "" && Together([a]) == a
  {
    assert [a][..0] == [];
  }

  lemma {:induction false} TogetherFour(a: string, b: string, c: string, d: string)
    ensures Together([a, b, c]) == a + b + c && Together([a, b, c, d]) == a + b + c + d
  {
    hide Together;
    TogetherTwo(a, b);
    TogetherMore([a, b], c);
    TogetherMore([a, b, c], d);
    assert [a, b] + [c] == [a, b, c] && [a, b, c] + [d] == [a, b, c, d];
  }

  lemma {:induction false} TogetherFive(a: string, b: string, c: string, d: string, e: string)
    ensures Together([a, b, c, d, e]) == a + b + c + d + e
  {
    hide Together;
    TogetherFour(a, b, c, d);
    TogetherMore([a, b, c, d], e);
    assert [a, b, c, d] + [e] == [a, b, c, d, e];
  }

  lemma {:induction false} TogetherSplit(a: seq<string>, b: seq<string>)
    ensures Together(a + b) == Together(a) + Together(b)
    decreases |b|
  {
    if b == [] {
      assert a + b == a;
    } else {
      var n := |b| - 1;
      assert a + b == (a + b[..n]) + [b[n]];
      TogetherSplit(a, b[..n]);
      TogetherMore(a + b[..n], b[n]);
      assert Together(a) + (Together(b[..n]) + b[n]) == (Together(a) + Together(b[..n])) + b[n];
    }
  }

  /** The eleven strings of the response, and the text that the formula names. */
  lemma {:induction false} TogetherAll(k: string, nonce: string, nc: string, cnonce: string, qop: string, h2: string)
    ensures Together([k, ":", nonce, ":", nc, ":", cnonce, ":", qop, ":", h2])
      == k + ":" + (nonce + ":" + nc + ":" + cnonce + ":" + qop + ":" + h2)
  {
    hide Together;
    TogetherTwo(k, ":");
    TogetherFive(nonce, ":", nc, ":", cnonce);
    TogetherFour(":", qop, ":", h2);
    TogetherSplit([nonce, ":", nc, ":", cnonce], [":", qop, ":", h2]);
    TogetherSplit([k, ":"], [nonce, ":", nc, ":", cnonce] + [":", qop, ":", h2]);
    assert [k, ":"] + ([nonce, ":", nc, ":", cnonce] + [":", qop, ":", h2]) == [k, ":", nonce, ":", nc, ":", cnonce, ":", qop, ":", h2];
    assert nonce + ":" + nc + ":" + cnonce + (":" + qop + ":" + h2) == nonce + ":" + nc + ":" + cnonce + ":" + qop + ":" + h2;
  }

  /** A context from start to end. */
  method Digest(first: seq<Byte>, parts: seq<string>) returns (d: seq<Byte>)
    requires |first| < TWO32 && forall i :: 0 <= i < |parts| ==> |parts[i]| < TWO32
    ensures d == H(first + BytesOf(Together(parts)))
  {
    hide Md5Contexts.Context.Absorbed, Md5Contexts.Hash, BytesOf, Together;
    var c := new Md5Contexts.Context();
    FeedBytes(c, [], first);
    assert [] + first == first;
    FeedAll(c, first, parts);
    var digest := new Byte[16];
    c.Final(first + BytesOf(Together(parts)), digest);
    d := digest[..];
  }

  /** The digest of strings alone. */
  method DigestOf(parts: seq<string>) returns (d: seq<Byte>)
    requires forall i :: 0 <= i < |parts| ==> |parts[i]| < TWO32
    ensures d == H(BytesOf(Together(parts)))
  {
    hide H, BytesOf;
    d := Digest([], parts);
    assert [] + BytesOf(Together(parts)) == BytesOf(Together(parts));
  }

  method DigestA2(uri: string, qop: string) returns (d: seq<Byte>)
    requires |uri| < TWO32
    ensures d == H(BytesOf(A2(uri, qop)))
  {
    hide H, BytesOf;
    if qop == "auth" {
      d := DigestOf(["AUTHENTICATE:", uri]);
      TogetherTwo("AUTHENTICATE:", uri);
      assert "AUTHENTICATE:" + uri + "" == "AUTHENTICATE:" + uri;
    } else {
      d := DigestOf(["AUTHENTICATE:", uri, ":00000000000000000000000000000000"]);
      TogetherFour("AUTHENTICATE:", uri, ":00000000000000000000000000000000", "");
    }
  }

  method DigestA1(username: string, realm: string, passwd: string, nonce: string, cnonce: string) returns (d: seq<Byte>)
    requires |username| < TWO32 && |realm| < TWO32 && |passwd| < TWO32 && |nonce| < TWO32 && |cnonce| < TWO32
    ensures d == H(A1(username, realm, passwd, nonce, cnonce))
  {
    hide H, BytesOf;
    var secret := DigestOf([username, ":", realm, ":", passwd]);
    TogetherFive(username, ":", realm, ":", passwd);
    d := Digest(secret, [":", nonce, ":", cnonce]);
    TogetherFour(":", nonce, ":", cnonce);
  }

  /** The digests of `sasl_digest_md5`. */
  method Value(username: string, realm: string, passwd: string, nonce: string, cnonce: string, nc: string, qop: string, uri: string) returns (r: string)
    requires |username| < TWO32 && |realm| < TWO32 && |passwd| < TWO32 && |nonce| < TWO32 && |cnonce| < TWO32
    requires |nc| < TWO32 && |qop| < TWO32 && |uri| < TWO32
    ensures r == ResponseValue(username, realm, passwd, nonce, cnonce, nc, qop, uri)
  {
    hide H, Hex, BytesOf, A1, A2, Together;
    var ha1 := DigestA1(username, realm, passwd, nonce, cnonce);
    var ha2 := DigestA2(uri, qop);
    var h1, h2 := Hex(ha1), Hex(ha2);
    var digest := DigestOf([h1, ":", nonce, ":", nc, ":", cnonce, ":", qop, ":", h2]);
    TogetherAll(h1, nonce, nc, cnonce, qop, h2);
    r := Hex(digest);
  }

  // --------------------------------------------------------------------- the answer

  /** A text, NULL, or no return: a NULL string is measured, or a table is written at a
      negative index. */
  datatype Answer = Response(text: string) | NoAnswer | Faults

  const CNONCE := "00DEADBEEF00"
  const NC := "00000001"
  const QOP := "auth"

  /** The string that a decoded challenge is: it ends before the first zero byte. */
  function CString(b: seq<Base64.Octet>): string {
    if b == [] || b[0] == 0 then "" else [b[0] as char] + CString(b[1..])
  }

  predicate Bytewise(s: string) {
    forall i :: 0 <= i < |s| ==> 0 < s[i] as int < 256
  }

  function Octets(s: string): (b: seq<Base64.Octet>)
    ensures |b| == |s|
  {
    seq(|s|, i requires 0 <= i < |s| => s[i] as int % 256)
  }

  lemma {:induction false} CStringOfOctets(s: string)
    requires Bytewise(s)
    ensures CString(Octets(s)) == s
  {
    if s != "" {
      assert Octets(s)[1..] == Octets(s[1..]);
      CStringOfOctets(s[1..]);
      assert 0 < s[0] as int < 256;
    }
  }

  /** The keys of a challenge have a place in its table of ten buckets (see Buckets). */
  predicate Hashable(pairs: seq<Pair>) {
    forall i :: 0 <= i < |pairs| ==> Buckets.Index(pairs[i].key, 10) >= 0
  }

  function ValueOf(table: map<string, string>, key: string): string {
    if key in table then table[key] else ""
  }

  /** The realm of the challenge, or the domain. */
  function RealmOf(table: map<string, string>, domain: string): string {
    if ValueOf(table, "realm") == "" then domain else table["realm"]
  }

  /** The items of the answer, in their order. */
  function ItemsOf(table: map<string, string>, node: string, domain: string, password: string): seq<Item>
    requires "nonce" in table
  {
    var realm, uri := RealmOf(table, domain), "xmpp/" + domain;
    var value := ResponseValue(node, realm, password, table["nonce"], CNONCE, NC, QOP, uri);
    [Item("username", node, true), Item("realm", realm, true), Item("nonce", table["nonce"], true),
     Item("cnonce", CNONCE, true), Item("nc", NC, false), Item("qop", QOP, false), Item("digest-uri", uri, true),
     Item("response", value, false), Item("charset", ValueOf(table, "charset"), false)]
  }

  /** `sasl_digest_md5`. */
  function AnswerOf(challenge: string, node: Option<string>, domain: string, password: Option<string>): Answer {
    match Base64.Decode(challenge)
    case Rejected => NoAnswer
    case DecodeFault => Faults
    case Decoded(bytes) =>
      var pairs := Pairs(CString(bytes));
      var table := TableOf(pairs);
      if !Hashable(pairs) || node.None? || password.None? || "nonce" !in table then Faults
      else Response(Base64.Encode(Octets(Text(ItemsOf(table, node.value, domain, password.value)))))
  }

  /** `hash_add` of each pair in turn. */
  method Fill(pairs: seq<Pair>) returns (table: map<string, string>)
    ensures table == TableOf(pairs)
  {
    table := map[];
    var i := 0;
    while i < |pairs|
      invariant 0 <= i <= |pairs| && table == TableOf(pairs[..i])
    {
      assert pairs[..i + 1][..i] == pairs[..i];
      table := table[pairs[i].key := pairs[i].value];
      i := i + 1;
    }
    assert pairs[..|pairs|] == pairs;
  }

  /** The items printed one after the other. */
  method Print(items: seq<Item>) returns (text: string)
    ensures text == Text(items)
  {
    hide AddKey;
    text := "";
    var i := 0;
    while i < |items|
      invariant 0 <= i <= |items| && text == Text(items[..i])
    {
      assert items[..i + 1][..i] == items[..i];
      text := AddKeyTo(text, items[i]);
      i := i + 1;
    }
    assert items[..|items|] == items;
  }

  /** The strings are shorter than 2^32, as `MD5Update` takes them. */
  predicate Measured(table: map<string, string>, node: string, domain: string, password: string) {
    && |node| < TWO32 && |password| < TWO32 && |domain| + 5 < TWO32
    && |ValueOf(table, "nonce")| < TWO32 && |ValueOf(table, "realm")| < TWO32
  }

  method Items(table: map<string, string>, node: string, domain: string, password: string) returns (items: seq<Item>)
    requires "nonce" in table && Measured(table, node, domain, password)
    ensures items == ItemsOf(table, node, domain, password)
  {
    hide ResponseValue;
    var t := table;
    if "realm" !in t || t["realm"] == "" {
      t := t["realm" := domain];
    }
    var realm, nonce := t["realm"], t["nonce"];
    t := t["username" := node]["cnonce" := CNONCE]["nc" := NC]["qop" := QOP]["digest-uri" := "xmpp/" + domain];
    var value := Value(node, realm, password, nonce, t["cnonce"], t["nc"], t["qop"], t["digest-uri"]);
    items := [Item("username", t["username"], true), Item("realm", realm, true), Item("nonce", nonce, true),
              Item("cnonce", t["cnonce"], true), Item("nc", t["nc"], false), Item("qop", t["qop"], false),
              Item("digest-uri", t["digest-uri"], true), Item("response", value, false),
              Item("charset", if "charset" in t then t["charset"] else "", false)];
  }

  /** `sasl_digest_md5`, after the challenge was parsed. */
  method Answered(pairs: seq<Pair>, node: Option<string>, domain: string, password: Option<string>) returns (r: Answer)
    requires node.Some? && password.Some? ==> Measured(TableOf(pairs), node.value, domain, password.value)
    ensures r == if !Hashable(pairs) || node.None? || password.None? || "nonce" !in TableOf(pairs) then Faults
      else Response(Base64.Encode(Octets(Text(ItemsOf(TableOf(pairs), node.value, domain, password.value)))))
  {
    hide ItemsOf, Base64.Encode, Measured;
    var table := Fill(pairs);
    if !Hashable(pairs) || node.None? || password.None? || "nonce" !in table {
      r := Faults;
    } else {
      var items := Items(table, node.value, domain, password.value);
      var text := Print(items);
      r := Response(Base64.Encode(Octets(text)));
    }
  }

  /** The characters of the decoded challenge up to its first zero byte. */
  method ReadString(bytes: seq<Base64.Octet>) returns (s: string)
    ensures s == CString(bytes)
  {
    s := "";
    var i := 0;
    assert bytes[0..] == bytes;
    while i < |bytes| && bytes[i] != 0
      invariant 0 <= i <= |bytes| && s + CString(bytes[i..]) == CString(bytes)
    {
      assert bytes[i..][1..] == bytes[i + 1..];
      s := s + [bytes[i] as char];
      i := i + 1;
    }
  }

  /** The whole of `sasl_digest_md5`: the challenge is decoded, parsed and answered. */
  method AnswerTo(challenge: string, node: Option<string>, domain: string, password: Option<string>) returns (r: Answer)
    requires Base64.Decode(challenge).Decoded? && node.Some? && password.Some? ==>
      Measured(TableOf(Pairs(CString(Base64.Decode(challenge).bytes))), node.value, domain, password.value)
    ensures r == AnswerOf(challenge, node, domain, password)
  {
    hide ItemsOf, Base64.Encode, Base64.Decode, Measured, TableOf, Pairs, CString, Text;
    var decoded := Base64.DecodeBuffer(challenge);
    match decoded
    case Rejected => r := NoAnswer;
    case DecodeFault => r := Faults;
    case Decoded(bytes) =>
      var text := ReadString(bytes);
      var pairs := Parse(text);
      r := Answered(pairs, node, domain, password);
  }

  // -------------------------------------------------------------- what comes of it

  /** Whatever items were printed and encoded, a challenge of them is read back: each pair,
      in order, and so the table in which later bindings win. */
  lemma {:induction false} ChallengeReadBack(items: seq<Item>)
    requires items != [] && Bytewise(Text(items)) && forall i :: 0 <= i < |items| ==> Plain(items[i])
    ensures var d := Base64.Decode(Base64.Encode(Octets(Text(items))));
      d.Decoded? && Pairs(CString(d.bytes)) == PairsOf(items) && TableOf(Pairs(CString(d.bytes))) == TableOf(PairsOf(items))
  {
    var text := Text(items);
    assert text != "" by { TextIsSome(items); }
    hide Base64.Encode, Base64.Decode, Text;
    Base64.DecodeOfEncoded(Octets(text));
    CStringOfOctets(text);
    ParseOfPrinted(items);
  }

  lemma {:induction false} TextIsSome(items: seq<Item>)
    requires items != []
    ensures Text(items) != ""
  {
    hide Printed;
    PrintedIsSome(items[|items| - 1]);
  }

  /** An answer is the nine directives of section 2.1.2, and a server that reads it finds in
      it the response-value of section 2.1.2.1, if no value breaks its quotes. */
  lemma {:induction false} AnswerIsResponse(challenge: string, node: string, domain: string, password: string)
    requires AnswerOf(challenge, Some(node), domain, Some(password)).Response?
    ensures Base64.Decode(challenge).Decoded?
    ensures var table := TableOf(Pairs(CString(Base64.Decode(challenge).bytes)));
      && "nonce" in table
      && var items := ItemsOf(table, node, domain, password);
         (Bytewise(Text(items)) && (forall i :: 0 <= i < |items| ==> Plain(items[i]))) ==>
           var d := Base64.Decode(AnswerOf(challenge, Some(node), domain, Some(password)).text);
           && d.Decoded? && Pairs(CString(d.bytes)) == PairsOf(items)
           && Pairs(CString(d.bytes))[7].value
              == ResponseValue(node, RealmOf(table, domain), password, table["nonce"], CNONCE, NC, QOP, "xmpp/" + domain)
  {
    hide Base64.Decode, Base64.Encode, Text, Plain, ResponseValue, Pairs, TableOf, CString, Octets, Bytewise;
    var table := TableOf(Pairs(CString(Base64.Decode(challenge).bytes)));
    var items := ItemsOf(table, node, domain, password);
    if Bytewise(Text(items)) && forall i :: 0 <= i < |items| ==> Plain(items[i]) {
      ChallengeReadBack(items);
    }
  }

  // --------------------------------------------------------------- known answers

  /** Two digits for each byte, the high one first. */
  lemma {:induction false} HexOfByte(h: Byte, l: Byte)
    requires h < 16 && l < 16
    ensures Hex([16 * h + l]) == [HexDigit(h), HexDigit(l)]
  {
    assert ((16 * h + l) >> 4) & 0x0F == h && (16 * h + l) & 0x0F == l;
    assert [16 * h + l][1..] == [];
    hide HexDigit;
  }

  lemma {:induction false} HexDigits()
    ensures HexDigit(0) == '0' && HexDigit(1) == '1' && HexDigit(2) == '2' && HexDigit(3) == '3' && HexDigit(4) == '4'
    ensures HexDigit(5) == '5' && HexDigit(6) == '6' && HexDigit(7) == '7' && HexDigit(8) == '8' && HexDigit(9) == '9'
    ensures HexDigit(10) == 'a' && HexDigit(11) == 'b' && HexDigit(12) == 'c' && HexDigit(13) == 'd'
    ensures HexDigit(14) == 'e' && HexDigit(15) == 'f'
  {
  }

  lemma {:induction false} HexJoins(a: seq<Byte>, b: seq<Byte>)
    ensures Hex(a + b) == Hex(a) + Hex(b)
  {
    hide HexDigit;
    if a == [] {
      assert a + b == b;
    } else {
      assert (a + b)[1..] == a[1..] + b;
      HexJoins(a[1..], b);
    }
  }

  /** The bytes of a text are its characters. */
  lemma {:induction false} BytesAre(s: string, i: nat, b: Byte)
    requires i < |s| && s[i] as int % 256 == b as int
    ensures BytesOf(s)[i] == b
  {
    NarrowBack(b);
    assert Wide(b) == b as int && BytesOf(s)[i] == Narrow(s[i] as int % 256);
  }

  lemma {:induction false} AbcBytes(s: string)
    requires s == ['a', 'b', 'c']
    ensures BytesOf(s) == Md5Vectors.ABC
  {
    LettersAreBytes();
    assert BytesOf(s)[0] == Narrow(0x61) && BytesOf(s)[1] == Narrow(0x62) && BytesOf(s)[2] == Narrow(0x63);
    hide Narrow;
  }

  lemma {:induction false} HexOfFour(a: Byte, b: Byte, c: Byte, d: Byte)
    ensures Hex([a, b, c, d]) == Hex([a]) + Hex([b]) + Hex([c]) + Hex([d])
  {
    hide Hex;
    assert [a, b, c, d] == [a] + [b] + [c] + [d];
    HexJoins([a] + [b] + [c], [d]);
    HexJoins([a] + [b], [c]);
    HexJoins([a], [b]);
  }

  lemma {:induction false} HexPart0()
    ensures Hex([0x90, 0x01, 0x50, 0x98]) == "90015098"
  {
    HexDigits();
    hide HexDigit;
    HexOfByte(9, 0);
    HexOfByte(0, 1);
    HexOfByte(5, 0);
    HexOfByte(9, 8);
    HexOfFour(0x90, 0x01, 0x50, 0x98);
  }

  lemma {:induction false} HexPart1()
    ensures Hex([0x3c, 0xd2, 0x4f, 0xb0]) == "3cd24fb0"
  {
    HexDigits();
    hide HexDigit;
    HexOfByte(3, 12);
    HexOfByte(13, 2);
    HexOfByte(4, 15);
    HexOfByte(11, 0);
    HexOfFour(0x3c, 0xd2, 0x4f, 0xb0);
  }

  lemma {:induction false} HexPart2()
    ensures Hex([0xd6, 0x96, 0x3f, 0x7d]) == "d6963f7d"
  {
    HexDigits();
    hide HexDigit;
    HexOfByte(13, 6);
    HexOfByte(9, 6);
    HexOfByte(3, 15);
    HexOfByte(7, 13);
    HexOfFour(0xd6, 0x96, 0x3f, 0x7d);
  }

  lemma {:induction false} HexPart3()
    ensures Hex([0x28, 0xe1, 0x7f, 0x72]) == "28e17f72"
  {
    HexDigits();
    hide HexDigit;
    HexOfByte(2, 8);
    HexOfByte(14, 1);
    HexOfByte(7, 15);
    HexOfByte(7, 2);
    HexOfFour(0x28, 0xe1, 0x7f, 0x72);
  }

  lemma {:induction false} AbcDigest(a: seq<Byte>, b: seq<Byte>, c: seq<Byte>, d: seq<Byte>)
    requires a == [0x90, 0x01, 0x50, 0x98] && b == [0x3C, 0xD2, 0x4F, 0xB0]
    requires c == [0xD6, 0x96, 0x3F, 0x7D] && d == [0x28, 0xE1, 0x7F, 0x72]
    ensures H(BytesOf("abc")) == a + b + c + d
  {
    assert "abc" == ['a', 'b', 'c'];
    AbcBytes("abc");
    Md5Vectors.Abc();
    hide Md5Contexts.Hash, BytesOf;
  }

  /** The digest of "abc" as it goes into a response: the known answer of RFC 1321. */
  lemma {:induction false} AbcInHex()
    ensures Hex(H(BytesOf("abc"))) == "90015098" + "3cd24fb0" + "d6963f7d" + "28e17f72"
  {
    var a, b: seq<Byte> := [0x90, 0x01, 0x50, 0x98], [0x3C, 0xD2, 0x4F, 0xB0];
    var c, d: seq<Byte> := [0xD6, 0x96, 0x3F, 0x7D], [0x28, 0xE1, 0x7F, 0x72];
    AbcDigest(a, b, c, d);
    hide *;
    HexPart0();
    HexPart1();
    HexPart2();
    HexPart3();
    HexJoins(a + b + c, d);
    HexJoins(a + b, c);
    HexJoins(a, b);
  }

  /** A challenge ends the run for the sake of a key if and only if that key has an odd number
      of bytes of 128 or more and its hash is no multiple of ten. */
  lemma {:induction false} HashableIff(pairs: seq<Pair>)
    ensures Hashable(pairs) <==> forall i :: 0 <= i < |pairs| ==>
      Buckets.HighBytes(pairs[i].key, 0) % 2 == 0 || Buckets.Signed(Buckets.Mixed(0, pairs[i].key, 0)) % 10 == 0
  {
    hide Buckets.Index, Buckets.HighBytes, Buckets.Signed, Buckets.Mixed;
    forall i | 0 <= i < |pairs| ensures Buckets.Index(pairs[i].key, 10) < 0 <==>
      Buckets.HighBytes(pairs[i].key, 0) % 2 == 1 && Buckets.Signed(Buckets.Mixed(0, pairs[i].key, 0)) % 10 != 0 {
      Buckets.IndexInRange(pairs[i].key, 10);
    }
  }

  /** What an answer says of itself, whatever the challenge was. */
  lemma {:induction false} AnswerSays(table: map<string, string>, node: string, domain: string, password: string)
    requires "nonce" in table
    ensures var items := ItemsOf(table, node, domain, password);
      && |items| == 9
      && items[0] == Item("username", node, true) && items[1].key == "realm" && items[1].quote
      && items[2] == Item("nonce", table["nonce"], true) && items[3] == Item("cnonce", "00DEADBEEF00", true)
      && items[4] == Item("nc", "00000001", false) && items[5] == Item("qop", "auth", false)
      && items[6] == Item("digest-uri", "xmpp/" + domain, true) && items[7].key == "response" && !items[7].quote
      && items[8].key == "charset" && !items[8].quote
    ensures ItemsOf(table, node, domain, password)[1].value
      == if "realm" in table && table["realm"] != "" then table["realm"] else domain
  {
    hide ResponseValue;
  }
}
