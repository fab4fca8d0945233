/** The key and value pairs of DIGEST-MD5 (src/sasl.c:98-217): the parser of a challenge,
    the printer of a response, and that the first undoes the second. */
module Directives {
  import opened Common
  import opened Base64

  /** A pair that was read. */
  datatype Pair = Pair(key: string, value: string)

  predicate Separator(c: char) {
    c == ',' || c == ' '
  }

  predicate Quote(c: char) {
    c == '\'' || c == '"'
  }

  /** The number of separators at the start. */
  function Skip(s: string): (n: nat)
    ensures n <= |s| && (n < |s| ==> !Separator(s[n]))
    ensures forall i :: 0 <= i < n ==> Separator(s[i])
  {
    if s == "" || !Separator(s[0]) then 0 else Skip(s[1..]) + 1
  }

  /** The place of the first c, or the end. */
  function Until(s: string, c: char): (n: nat)
    ensures n <= |s| && (n < |s| ==> s[n] == c)
    ensures forall i :: 0 <= i < n ==> s[i] != c
  {
    if s == "" || s[0] == c then 0 else Until(s[1..], c) + 1
  }

  /** The value at the start of s, and how much of s it takes with its quotes. */
  function ValueAt(s: string): (v: (string, nat))
    ensures v.1 <= |s|
  {
    if s != "" && Quote(s[0]) then
      var n := Until(s[1..], s[0]);
      (s[1..n + 1], if n + 1 < |s| then n + 2 else n + 1)
    else
      (s[..Until(s, ',')], Until(s, ','))
  }

  /** A pair whose key starts here, and how much of the text it takes; None if the text ends
      within the key. */
  function KeyAt(t: string): (r: Option<(Pair, nat)>)
    ensures r.Some? ==> 0 < r.value.1 <= |t|
  {
    var e := Until(t, '=');
    if e == |t| then None
    else
      var v := ValueAt(t[e + 1..]);
      Some((Pair(t[..e], v.0), e + 1 + v.1))
  }

  /** The first pair of a text, after separators. */
  function FirstPair(s: string): (r: Option<(Pair, nat)>)
    ensures r.Some? ==> 0 < r.value.1 <= |s|
  {
    match KeyAt(s[Skip(s)..])
    case None => None
    case Some(p) => Some((p.0, Skip(s) + p.1))
  }

  /** All pairs of a text. */
  function Pairs(s: string): seq<Pair>
    decreases |s|
  {
    match FirstPair(s)
    case None => []
    case Some(first) => [first.0] + Pairs(s[first.1..])
  }

  // --------------------------------------------------------------------- parsing

  /** A walk over the characters that are passed. */
  method SkipFrom(text: string, s: nat) returns (t: nat)
    requires s <= |text|
    ensures s <= t <= |text| && t == s + Skip(text[s..])
  {
    t := s;
    while t < |text| && Separator(text[t])
      invariant s <= t <= |text| && Skip(text[s..]) == t - s + Skip(text[t..])
    {
      t := t + 1;
    }
  }

  method UntilFrom(text: string, s: nat, c: char) returns (t: nat)
    requires s <= |text|
    ensures s <= t <= |text| && t == s + Until(text[s..], c)
  {
    t := s;
    while t < |text| && text[t] != c
      invariant s <= t <= |text| && Until(text[s..], c) == t - s + Until(text[t..], c)
    {
      t := t + 1;
    }
  }

  /** The value at a place: what is between quotes, or what comes before a comma. */
  method ReadValue(text: string, s: nat) returns (value: string, next: nat)
    requires s <= |text|
    ensures s <= next <= |text| && (value, next - s) == ValueAt(text[s..])
  {
    hide Until;
    ghost var here := text[s..];
    if s < |text| && Quote(text[s]) {
      assert here[1..] == text[s + 1..];
      var t := UntilFrom(text, s + 1, text[s]);
      value := text[s + 1..t];
      assert value == here[1..t - s];
      next := if t < |text| then t + 1 else t;
    } else {
      var t := UntilFrom(text, s, ',');
      value := text[s..t];
      assert value == here[..t - s];
      next := t;
    }
  }

  /** One pair: a key that ends at '=', and its value. */
  method ReadPair(text: string, s: nat) returns (r: Option<Pair>, next: nat)
    requires s <= |text|
    ensures match FirstPair(text[s..])
            case None => r == None
            case Some(first) => r == Some(first.0) && next == s + first.1
  {
    hide Skip, Until, ValueAt;
    var k := SkipFrom(text, s);
    assert text[s..][k - s..] == text[k..];
    ghost var here := text[k..];
    var t := UntilFrom(text, k, '=');
    if t == |text| {
      r, next := None, t;
    } else {
      assert here[t - k + 1..] == text[t + 1..] && here[..t - k] == text[k..t];
      var value: string;
      value, next := ReadValue(text, t + 1);
      r := Some(Pair(text[k..t], value));
    }
  }

  /** `_parse_digest_challenge`, after the text was decoded. */
  method Parse(text: string) returns (pairs: seq<Pair>)
    ensures pairs == Pairs(text)
  {
    hide FirstPair;
    var s := 0;
    pairs := [];
    assert text[0..] == text;
    while s < |text|
      invariant 0 <= s <= |text|
      invariant Pairs(text) == pairs + Pairs(text[s..])
      decreases |text| - s
    {
      ghost var here := text[s..];
      var pair, next := ReadPair(text, s);
      if pair.None? {
        break;
      }
      assert here[next - s..] == text[next..];
      pairs := pairs + [pair.value];
      s := next;
    }
    assert s == |text| ==> Pairs(text[s..]) == [] by { NoPair(); }
  }

  lemma {:induction false} NoPair()
    ensures Pairs("") == []
  {
  }

  // -------------------------------------------------------------------- printing

  /** An item to print: its value in quotes or not. */
  datatype Item = Item(key: string, value: string, quote: bool)

  function Printed(x: Item): string {
    x.key + "=" + (if x.quote then "\"" + x.value + "\"" else x.value)
  }

  /** `_add_key`: the item is appended, after a comma if it is not the first. */
  function AddKey(buf: string, x: Item): string {
    buf + (if buf == "" then "" else ",") + Printed(x)
  }

  function Text(items: seq<Item>): string {
    if items == [] then "" else AddKey(Text(items[..|items| - 1]), items[|items| - 1])
  }

  /** `_add_key` on the buffers of the code: lengths first, then the bytes. */
  method AddKeyTo(buf: string, x: Item) returns (r: string)
    ensures r == AddKey(buf, x)
  {
    var qvalue := if x.quote then "\"" + x.value + "\"" else x.value;
    var olen := |buf|;
    var nlen := (if olen != 0 then 1 else 0) + |x.key| + 1 + |qvalue|;
    var out := new char[olen + nlen];
    var c := Put(out, 0, buf);
    if olen != 0 {
      out[c] := ',';
      c := c + 1;
    }
    assert out[..c] == buf + (if buf == "" then "" else ",");
    c := Put(out, c, x.key);
    ghost var done := out[..c];
    out[c] := '=';
    c := c + 1;
    assert out[..c] == done + "=";
    c := Put(out, c, qvalue);
    assert c == out.Length && out[..c] == out[..];
    r := out[..];
    Regroups(buf + (if buf == "" then "" else ","), x.key, "=", qvalue);
  }

  lemma {:induction false} Regroups(a: string, b: string, c: string, d: string)
    ensures ((a + b) + c) + d == a + (b + c + d)
  {
  }

  method Put(out: array<char>, at: nat, s: string) returns (c: nat)
    requires at + |s| <= out.Length
    modifies out
    ensures c == at + |s| && out[..c] == old(out[..at]) + s
  {
    c := at;
    while c < at + |s|
      invariant at <= c <= at + |s| && out[..c] == old(out[..at]) + s[..c - at]
    {
      out[c] := s[c - at];
      c := c + 1;
    }
  }

  // ------------------------------------------------------------------ round trip

  /** What can be read back: a key without '=' that does not start with a separator, a
      quoted value without a quotation mark, another value without a comma that does not
      start with a quote. */
  predicate Plain(x: Item) {
    && '=' !in x.key && (x.key != "" ==> !Separator(x.key[0]))
    && if x.quote then '"' !in x.value else ',' !in x.value && (x.value != "" ==> !Quote(x.value[0]))
  }

  function PairOf(x: Item): Pair {
    Pair(x.key, x.value)
  }

  function PairsOf(items: seq<Item>): (p: seq<Pair>)
    ensures |p| == |items| && forall i :: 0 <= i < |p| ==> p[i] == PairOf(items[i])
  {
    seq(|items|, i requires 0 <= i < |items| => PairOf(items[i]))
  }

  /** What may follow an item. */
  predicate Follows(s: string) {
    s == "" || s[0] == ','
  }

  lemma {:induction false} SkipNone(s: string)
    requires s != "" ==> !Separator(s[0])
    ensures Skip(s) == 0
  {
  }

  lemma {:induction false} UntilAfter(a: string, c: char, b: string)
    requires c !in a && (b == "" || b[0] == c)
    ensures Until(a + b, c) == |a|
  {
    if a != "" {
      assert (a + b)[1..] == a[1..] + b;
      UntilAfter(a[1..], c, b);
    } else {
      assert a + b == b;
    }
  }

  lemma {:induction false} ValueReadBack(x: Item, rest: string)
    requires Plain(x) && Follows(rest)
    ensures var v := (if x.quote then "\"" + x.value + "\"" else x.value);
      ValueAt(v + rest) == (x.value, |v|)
  {
    hide Until;
    if x.quote {
      var s := "\"" + x.value + "\"" + rest;
      assert s[1..] == x.value + ("\"" + rest);
      UntilAfter(x.value, '"', "\"" + rest);
      assert s[1..|x.value| + 1] == x.value;
    } else {
      UntilAfter(x.value, ',', rest);
      assert (x.value + rest)[..|x.value|] == x.value;
    }
  }

  lemma {:induction false} KeyAtIs(t: string, key: string, u: string)
    requires t == key + ("=" + u) && '=' !in key
    ensures var v := ValueAt(u); KeyAt(t) == Some((Pair(key, v.0), |key| + 1 + v.1))
  {
    UntilAfter(key, '=', "=" + u);
    hide Until, ValueAt;
    assert t[|key| + 1..] == u && t[..|key|] == key;
  }

  lemma {:induction false} FirstPairIs(s: string)
    requires Skip(s) == 0
    ensures FirstPair(s) == KeyAt(s)
  {
    hide Skip, KeyAt;
    assert s[0..] == s;
  }

  lemma {:induction false} NoSeparator(x: Item, rest: string)
    requires Plain(x)
    ensures var s := x.key + ("=" + rest); Skip(s) == 0 && '=' !in x.key
  {
    var s := x.key + ("=" + rest);
    hide Skip;
    assert x.key == "" ==> s[0] == '=';
    assert x.key != "" ==> s[0] == x.key[0];
    SkipNone(s);
  }

  function Shown(x: Item): string {
    if x.quote then "\"" + x.value + "\"" else x.value
  }

  lemma {:induction false} PrintedIs(x: Item, rest: string)
    ensures Printed(x) + rest == x.key + ("=" + (Shown(x) + rest)) && |Printed(x)| == |x.key| + 1 + |Shown(x)|
    ensures PairOf(x) == Pair(x.key, x.value)
  {
    assert Printed(x) == x.key + "=" + Shown(x);
    hide Shown, Printed;
  }

  /** One item is read back, whatever follows it. */
  lemma {:induction false} ItemReadBack(x: Item, rest: string)
    requires Plain(x) && Follows(rest)
    ensures FirstPair(Printed(x) + rest) == Some((PairOf(x), |Printed(x)|))
  {
    ValueReadBack(x, rest);
    assert Shown(x) == if x.quote then "\"" + x.value + "\"" else x.value;
    hide *;
    PrintedIs(x, rest);
    NoSeparator(x, Shown(x) + rest);
    FirstPairIs(Printed(x) + rest);
    KeyAtIs(Printed(x) + rest, x.key, Shown(x) + rest);
  }

  lemma {:induction false} FirstAfterComma(s: string)
    ensures FirstPair(s).None? ==> FirstPair("," + s).None?
    ensures FirstPair(s).Some? ==> FirstPair("," + s) == Some((FirstPair(s).value.0, FirstPair(s).value.1 + 1))
  {
    var u := "," + s;
    assert u[1..] == s;
    assert Skip(u) == Skip(s) + 1;
    hide Skip, KeyAt;
    assert u[Skip(s) + 1..] == s[Skip(s)..];
  }

  /** A comma before a text is skipped. */
  lemma {:induction false} CommaSkipped(s: string)
    ensures Pairs("," + s) == Pairs(s)
  {
    FirstAfterComma(s);
    hide FirstPair;
    if FirstPair(s).Some? {
      var n := FirstPair(s).value.1;
      assert ("," + s)[n + 1..] == s[n..];
    }
  }

  /** The same text from its front. */
  function Joined(items: seq<Item>): string {
    if items == [] then "" else Printed(items[0]) + (if |items| == 1 then "" else "," + Joined(items[1..]))
  }

  lemma {:induction false} TextIsJoined(items: seq<Item>)
    ensures Text(items) == Joined(items)
    decreases |items|
  {
    hide Printed;
    if items == [] {
    } else if |items| == 1 {
      assert items[..0] == [];
      assert "" + "" + Printed(items[0]) == Printed(items[0]) + "";
    } else {
      var n := |items| - 1;
      TextIsJoined(items[..n]);
      JoinedLast(items[..n], items[n]);
      assert items[..n] + [items[n]] == items;
    }
  }

  lemma {:induction false} PrintedIsSome(x: Item)
    ensures Printed(x) != ""
  {
  }

  lemma {:induction false} JoinedLast(items: seq<Item>, x: Item)
    requires items != []
    ensures Joined(items) != "" && Joined(items + [x]) == Joined(items) + "," + Printed(x)
  {
    hide Printed;
    PrintedIsSome(items[0]);
    var more := items + [x];
    if |items| == 1 {
      assert more[1..] == [x];
      assert Joined([x]) == Printed(x) + "";
      assert Printed(items[0]) + ("," + (Printed(x) + "")) == (Printed(items[0]) + "") + "," + Printed(x);
    } else {
      assert more[1..] == items[1..] + [x];
      JoinedLast(items[1..], x);
      assert Printed(items[0]) + ("," + (Joined(items[1..]) + "," + Printed(x)))
        == (Printed(items[0]) + ("," + Joined(items[1..]))) + "," + Printed(x);
    }
  }

  /** Parsing undoes printing: of any plain items, all pairs come back, in order. */
  lemma {:induction false} ParseOfPrinted(items: seq<Item>)
    requires forall i :: 0 <= i < |items| ==> Plain(items[i])
    ensures Pairs(Text(items)) == PairsOf(items)
  {
    TextIsJoined(items);
    PairsOfJoined(items);
  }

  lemma {:induction false} PairsOfJoined(items: seq<Item>)
    requires forall i :: 0 <= i < |items| ==> Plain(items[i])
    ensures Pairs(Joined(items)) == PairsOf(items)
  {
    hide Printed, Plain, FirstPair;
    if items == [] {
      NoPair();
    } else {
      var p := Printed(items[0]);
      var rest := if |items| == 1 then "" else "," + Joined(items[1..]);
      ItemReadBack(items[0], rest);
      assert (p + rest)[|p|..] == rest;
      if |items| == 1 {
        NoPair();
      } else {
        CommaSkipped(Joined(items[1..]));
        PairsOfJoined(items[1..]);
      }
      assert PairsOf(items) == [PairOf(items[0])] + PairsOf(items[1..]);
    }
  }

  /** The table that the pairs are put in: later bindings win. */
  function TableOf(pairs: seq<Pair>): map<string, string> {
    if pairs == [] then map[] else TableOf(pairs[..|pairs| - 1])[pairs[|pairs| - 1].key := pairs[|pairs| - 1].value]
  }

  // ------------------------------------------------------- what a challenge says

  /** Commas and spaces before a pair are passed. */
  lemma {:induction false} GapIsSkipped(gap: string, t: string)
    requires (forall i :: 0 <= i < |gap| ==> gap[i] == ',' || gap[i] == ' ') && (t != "" ==> t[0] != ',' && t[0] != ' ')
    ensures Skip(gap + t) == |gap|
  {
    if gap == "" {
      assert gap + t == t;
    } else {
      assert (gap + t)[1..] == gap[1..] + t;
      GapIsSkipped(gap[1..], t);
    }
  }

  /** A value between two quotation marks or two apostrophes, or up to a comma. */
  lemma {:induction false} ValueIsRead(value: string, mark: string, rest: string)
    requires mark == "\"" || mark == "'" || mark == ""
    requires if mark != "" then mark[0] !in value else
      ',' !in value && (value != "" ==> value[0] != '"' && value[0] != '\'') && (rest == "" || rest[0] == ',')
    ensures var v := mark + value + mark; ValueAt(v + rest) == (value, |v|)
  {
    hide Until;
    var s := mark + value + mark + rest;
    if mark != "" {
      assert s[1..] == value + (mark + rest);
      UntilAfter(value, mark[0], mark + rest);
      assert s[1..|value| + 1] == value;
    } else {
      assert s == value + rest;
      UntilAfter(value, ',', rest);
      assert s[..|value|] == value;
    }
  }

  /** A pair is read wherever it stands, in quotes of one kind or the other or in none, and
      what comes after it is read next. */
  lemma {:induction false} PairIsRead(gap: string, key: string, value: string, mark: string, rest: string)
    requires forall i :: 0 <= i < |gap| ==> gap[i] == ',' || gap[i] == ' '
    requires '=' !in key && key != "" && key[0] != ',' && key[0] != ' '
    requires mark == "\"" || mark == "'" || mark == ""
    requires if mark != "" then mark[0] !in value else
      ',' !in value && (value != "" ==> value[0] != '"' && value[0] != '\'') && (rest == "" || rest[0] == ',')
    ensures Pairs(gap + (key + ("=" + (mark + value + mark + rest)))) == [Pair(key, value)] + Pairs(rest)
  {
    var v := mark + value + mark;
    var t := key + ("=" + (v + rest));
    hide *;
    AfterGap(gap, key, v, rest);
    GapIsSkipped(gap, t);
    ValueIsRead(value, mark, rest);
    KeyAtIs(t, key, v + rest);
    SkippedPair(gap + t, t, Pair(key, value), |key| + 1 + |v|);
  }

  lemma {:induction false} AfterGap(gap: string, key: string, v: string, rest: string)
    requires key != ""
    ensures var t := key + ("=" + (v + rest));
      t[0] == key[0] && (gap + t)[|gap|..] == t && (gap + t)[|gap| + (|key| + 1 + |v|)..] == rest
  {
    var s := gap + (key + ("=" + (v + rest)));
    assert s == gap + key + "=" + v + rest;
  }

  lemma {:induction false} SkippedPair(s: string, t: string, p: Pair, n: nat)
    requires t == s[Skip(s)..] && KeyAt(t) == Some((p, n))
    ensures Skip(s) + n <= |s| && Pairs(s) == [p] + Pairs(s[Skip(s) + n..])
  {
    hide Skip, KeyAt;
  }
}
