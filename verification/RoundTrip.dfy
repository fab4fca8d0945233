/** Printing a stanza (src/stanza.c) and building it again from the events of the printed
    text (src/parser_expat.c) undo each other. */
module RoundTrip {
  import opened Common
  import opened Buckets
  import opened Stanzas
  import opened Xml
  import opened Building

  // -------------------------------------------------- reading printed text back

  /** A stanza that XML can express: known types, names of tags and attributes that are
      XML names, and legal characters. */
  ghost predicate Expressible(st: Stanza) {
    && st.kind != UnknownKind && st.data.Some?
    && (st.kind == TextKind ==> AllChars(st.data.value))
    && (st.kind == TagKind ==>
      && IsName(st.data.value)
      && (forall i :: 0 <= i < |Shown(st)| ==> IsName(Shown(st)[i].0) && AllChars(Shown(st)[i].1))
      && (forall i, j :: 0 <= i < j < |Shown(st)| ==> Shown(st)[i].0 != Shown(st)[j].0)
      && (forall i :: 0 <= i < |st.children| ==> Expressible(st.children[i])))
  }

  predicate AllChars(s: string) {
    forall i :: 0 <= i < |s| ==> IsChar(s[i])
  }

  /** No character that XML reads as another one: no carriage return in texts, and no
      tab, carriage return or line feed in attribute values. */
  ghost predicate Clean(st: Stanza) {
    && (st.kind == TextKind && st.data.Some? ==> '\r' !in st.data.value)
    && (st.kind == TagKind ==>
      && (forall i :: 0 <= i < |Shown(st)| ==> CleanValue(Shown(st)[i].1))
      && (forall i :: 0 <= i < |st.children| ==> Clean(st.children[i])))
  }

  predicate CleanValue(s: string) {
    forall i :: 0 <= i < |s| ==> s[i] !in "\t\r\n"
  }

  /** The document a stanza prints as, character data one character at a time. */
  function DocsOf(st: Stanza): seq<Doc>
    decreases st, 0
  {
    if st.kind == TextKind then Chunks(if st.data.Some? then st.data.value else "")
    else [Elem(if st.data.Some? then st.data.value else "", Shown(st), DocsOfAll(st.children))]
  }

  function DocsOfAll(children: seq<Stanza>): seq<Doc>
    decreases children, 1
  {
    if children == [] then [] else DocsOf(children[0]) + DocsOfAll(children[1..])
  }

  function Chunks(s: string): seq<Doc> {
    if s == "" then [] else [Chunk([s[0]])] + Chunks(s[1..])
  }

  lemma {:induction false} EventsAppend(a: seq<Doc>, b: seq<Doc>)
    ensures EventsAll(a + b) == EventsAll(a) + EventsAll(b)
    decreases a
  {
    if a == [] {
      assert a + b == b;
    } else {
      assert (a + b)[0] == a[0] && (a + b)[1..] == a[1..] + b;
      EventsAppend(a[1..], b);
    }
  }

  lemma {:induction false} BeforeTwice(a: seq<Event>, b: seq<Event>, r: Option<seq<Event>>)
    ensures Before(a, Before(b, r)) == Before(a + b, r)
    ensures Before([], r) == r
  {
    if r.Some? {
      assert a + (b + r.value) == a + b + r.value && [] + r.value == r.value;
    }
  }

  lemma {:induction false} NameEnds(name: string, rest: string)
    requires (forall i :: 0 <= i < |name| ==> NameChar(name[i])) && (rest == "" || !NameChar(rest[0]))
    ensures NameLength(name + rest) == |name|
  {
    if name == "" {
      assert name + rest == rest;
    } else {
      assert (name + rest)[0] == name[0] && (name + rest)[1..] == name[1..] + rest;
      NameEnds(name[1..], rest);
    }
  }

  /** An escaped character is read back as the character. */
  lemma {:induction false} EntityOf(c: char, rest: string)
    requires c in "<>&\""
    ensures EscapedChar(c)[0] == '&' && Entity(EscapedChar(c) + rest) == Some((c, rest))
  {
    var e := EscapedChar(c);
    var s := e + rest;
    assert s[..|e|] == e && s[|e|..] == rest;
    if c == '>' || c == '&' || c == '"' {
      assert s[1] == e[1];
    }
  }

  lemma {:induction false} EscapeFirst(s: string, rest: string)
    requires s != ""
    ensures Escape(s) + rest == EscapedChar(s[0]) + (Escape(s[1..]) + rest)
  {
  }

  lemma {:induction false} LexChar(c: char, more: string)
    requires IsChar(c) && c != '\r'
    ensures Lex(EscapedChar(c) + more) == Before([Chars([c])], Lex(more))
  {
    hide Lex, Entity;
    var s := EscapedChar(c) + more;
    if c in "<>&\"" {
      EntityOf(c, more);
      assert s[0] == '&';
      LexReference(s);
    } else {
      assert s[0] == c && s[1..] == more;
      LexPlain(s);
    }
  }

  lemma {:induction false} LexText(text: string, rest: string)
    requires AllChars(text) && '\r' !in text
    ensures Lex(Escape(text) + rest) == Before(EventsAll(Chunks(text)), Lex(rest))
    decreases text
  {
    if text == "" {
      assert Escape(text) + rest == rest;
      BeforeTwice([], [], Lex(rest));
    } else {
      hide Lex, EscapedChar, IsChar;
      var c, more := text[0], Escape(text[1..]) + rest;
      EscapeFirst(text, rest);
      LexText(text[1..], rest);
      LexChar(c, more);
      assert EventsOf(Chunk([c])) == [Chars([c])];
      BeforeTwice([Chars([c])], EventsAll(Chunks(text[1..])), Lex(rest));
    }
  }

  lemma {:induction false} ValueChar(c: char, more: string)
    requires IsChar(c) && c !in "\t\r\n"
    ensures AttValue(EscapedChar(c) + more, '"') == WithFirst(c, AttValue(more, '"'))
  {
    var s := EscapedChar(c) + more;
    if c in "<>&\"" {
      EntityOf(c, more);
      assert s[0] == '&';
    } else {
      assert s[0] == c && s[1..] == more;
    }
  }

  lemma {:induction false} LexValue(value: string, rest: string)
    requires AllChars(value) && CleanValue(value)
    ensures AttValue(Escape(value) + ("\"" + rest), '"') == Some((value, rest))
    decreases value
  {
    var s := Escape(value) + ("\"" + rest);
    if value == "" {
      assert s == "\"" + rest && s[1..] == rest;
    } else {
      hide AttValue, EscapedChar, IsChar;
      var c, more := value[0], Escape(value[1..]) + ("\"" + rest);
      EscapeFirst(value, "\"" + rest);
      LexValue(value[1..], rest);
      ValueChar(c, more);
      assert [c] + value[1..] == value;
    }
  }

  /** How a printed start tag ends. */
  function Closing(empty: bool): string {
    if empty then "/>" else ">"
  }

  lemma {:induction false} LexClosing(shown: Attrs, empty: bool, rest: string)
    ensures Attributes(Closing(empty) + rest, shown) == Some(TagEnd(shown, empty, rest))
  {
    var tail := Closing(empty) + rest;
    if empty {
      assert tail[..1][0] == '/' && !StartsWith(tail, ">");
      assert tail[..2] == "/>" && tail[2..] == rest;
    } else {
      assert tail[..1] == ">" && tail[1..] == rest;
    }
  }

  lemma {:induction false} PiecesEnd(shown: Attrs, tail: string)
    ensures Concat(AttributePieces(shown[|shown|..])) + tail == tail && shown[..|shown|] == shown
  {
    assert "" + tail == tail;
  }

  lemma {:induction false} PiecesNext(shown: Attrs, i: nat, tail: string)
    requires i < |shown|
    ensures Concat(AttributePieces(shown[i..])) + tail == AttributePiece(shown[i]) + (Concat(AttributePieces(shown[i + 1..])) + tail)
    ensures shown[..i] + [shown[i]] == shown[..i + 1]
  {
    var pieces := AttributePieces(shown[i..]);
    assert pieces[0] == AttributePiece(shown[i]) && pieces[1..] == AttributePieces(shown[i + 1..]);
    assert Concat(pieces) == pieces[0] + Concat(pieces[1..]);
    hide *;
    assert pieces[0] + Concat(pieces[1..]) + tail == pieces[0] + (Concat(pieces[1..]) + tail);
  }

  lemma {:induction false} LexAttributes(shown: Attrs, i: nat, empty: bool, rest: string)
    requires i <= |shown|
    requires forall k :: 0 <= k < |shown| ==> IsName(shown[k].0) && AllChars(shown[k].1) && CleanValue(shown[k].1)
    requires forall j, k :: 0 <= j < k < |shown| ==> shown[j].0 != shown[k].0
    ensures Attributes(Concat(AttributePieces(shown[i..])) + (Closing(empty) + rest), shown[..i])
      == Some(TagEnd(shown, empty, rest))
    decreases |shown| - i
  {
    hide *;
    var tail := Closing(empty) + rest;
    if i == |shown| {
      PiecesEnd(shown, tail);
      LexClosing(shown, empty, rest);
    } else {
      var (key, value) := shown[i];
      PiecesNext(shown, i, tail);
      LexAttribute(key, value, shown[..i], Concat(AttributePieces(shown[i + 1..])) + tail);
      LexAttributes(shown, i + 1, empty, rest);
    }
  }

  lemma {:induction false} LexAttribute(key: string, value: string, seen: Attrs, more: string)
    requires IsName(key) && AllChars(value) && CleanValue(value)
    requires forall k :: 0 <= k < |seen| ==> seen[k].0 != key
    ensures Attributes(AttributePiece((key, value)) + more, seen) == Attributes(more, seen + [(key, value)])
  {
    hide AttValue, NameLength, Escape, Attributes;
    var s := AttributePiece((key, value)) + more;
    var u := "=\"" + (Escape(value) + ("\"" + more));
    assert s == " " + (key + u) && s[0] == ' ' && s[1..] == key + u;
    assert SkipSpace(s) == key + u && (key + u)[0] == key[0];
    NameEnds(key, u);
    assert (key + u)[..|key|] == key && (key + u)[|key|..] == u;
    assert u[0] == '=' && u[..1] == "=";
    var v := "\"" + (Escape(value) + ("\"" + more));
    assert u[1..] == v && SkipSpace(u) == u && SkipSpace(v) == v && v[1..] == Escape(value) + ("\"" + more);
    LexValue(value, more);
    AttributesNext(s, seen, key, v);
  }

  lemma {:induction false} LexStart(name: string, shown: Attrs, empty: bool, rest: string)
    requires IsName(name)
    requires forall k :: 0 <= k < |shown| ==> IsName(shown[k].0) && AllChars(shown[k].1) && CleanValue(shown[k].1)
    requires forall j, k :: 0 <= j < k < |shown| ==> shown[j].0 != shown[k].0
    ensures Lex("<" + name + (Concat(AttributePieces(shown)) + (Closing(empty) + rest)))
      == Before([StartTag(name, shown)] + (if empty then [EndTag(name)] else []), Lex(rest))
  {
    hide Attributes, Lex, NameLength, Concat;
    var t := Concat(AttributePieces(shown)) + (Closing(empty) + rest);
    var s := "<" + name + t;
    assert s[1..] == name + t && s[0] == '<' && s[1] == name[0] && name[0] != '/';
    FirstAfterName(shown, empty, rest);
    NameEnds(name, t);
    assert (name + t)[..|name|] == name && (name + t)[|name|..] == t;
    assert shown[0..] == shown && shown[..0] == [];
    LexAttributes(shown, 0, empty, rest);
    LexStartTag(s);
  }

  lemma {:induction false} FirstAfterName(shown: Attrs, empty: bool, rest: string)
    ensures var t := Concat(AttributePieces(shown)) + (Closing(empty) + rest);
      t != "" && !NameChar(t[0])
  {
    if shown != [] {
      assert AttributePieces(shown)[0] == AttributePiece(shown[0]);
    }
  }

  lemma {:induction false} LexEnd(name: string, rest: string)
    requires IsName(name)
    ensures Lex("</" + name + ">" + rest) == Before([EndTag(name)], Lex(rest))
  {
    hide Lex, NameLength;
    var t := ">" + rest;
    var s := "</" + name + ">" + rest;
    assert s[..2] == "</" && s[2..] == name + t;
    NameEnds(name, t);
    assert (name + t)[..|name|] == name && (name + t)[|name|..] == t;
    assert t[..1] == ">" && t[1..] == rest && SkipSpace(t) == t;
    LexEndTag(s);
  }

  lemma {:induction false} ConcatOne(piece: string)
    ensures Concat([piece]) == piece
  {
    assert [piece][1..] == [] && piece + "" == piece;
  }

  /** The text of a tag, put together from its pieces. */
  lemma {:induction false} TagText(name: string, shown: Attrs, kids: seq<string>, rest: string)
    ensures Concat(["<" + name] + AttributePieces(shown) + ["/>"]) + rest
      == "<" + name + (Concat(AttributePieces(shown)) + (Closing(true) + rest))
    ensures Concat(["<" + name] + AttributePieces(shown) + [">"] + kids + ["</" + name + ">"]) + rest
      == "<" + name + (Concat(AttributePieces(shown)) + (Closing(false) + (Concat(kids) + ("</" + name + ">" + rest))))
  {
    hide Concat, AttributePieces;
    var a := AttributePieces(shown);
    ConcatOne("<" + name);
    ConcatOne("/>");
    ConcatOne(">");
    ConcatOne("</" + name + ">");
    ConcatAppend(["<" + name], a);
    ConcatAppend(["<" + name] + a, ["/>"]);
    ConcatAppend(["<" + name] + a, [">"]);
    ConcatAppend(["<" + name] + a + [">"], kids);
    ConcatAppend(["<" + name] + a + [">"] + kids, ["</" + name + ">"]);
  }

  /** The printed text of a stanza is read back as the stanza's own events. */
  lemma {:induction false} LexPrinted(st: Stanza, rest: string)
    requires Expressible(st) && Clean(st)
    ensures Render(st).Pieces?
    ensures Lex(Concat(Render(st).pieces) + rest) == Before(EventsAll(DocsOf(st)), Lex(rest))
    decreases st, 0
  {
    hide Lex, Concat, AttributePieces, Escape, Shown;
    var data := st.data.value;
    if st.kind == TextKind {
      ConcatOne(Escape(data));
      LexText(data, rest);
    } else {
      var shown := Shown(st);
      EventsOfTag(data, shown, DocsOfAll(st.children));
      if st.children == [] {
        TagText(data, shown, [], rest);
        LexStart(data, shown, true, rest);
      } else {
        var after := "</" + data + ">" + rest;
        LexPrintedAll(st.children, after);
        var kids := RenderAll(st.children).pieces;
        TagText(data, shown, kids, rest);
        LexStart(data, shown, false, Concat(kids) + after);
        LexEnd(data, rest);
        BeforeTwice(EventsAll(DocsOfAll(st.children)), [EndTag(data)], Lex(rest));
        BeforeTwice([StartTag(data, shown)] + [], EventsAll(DocsOfAll(st.children)) + [EndTag(data)], Lex(rest));
      }
    }
  }

  lemma {:induction false} EventsOfTag(name: string, attrs: Attrs, kids: seq<Doc>)
    ensures EventsAll([Elem(name, attrs, kids)]) == [StartTag(name, attrs)] + [] + (EventsAll(kids) + [EndTag(name)])
    ensures kids == [] ==> EventsAll([Elem(name, attrs, kids)]) == [StartTag(name, attrs)] + [EndTag(name)]
  {
    assert [Elem(name, attrs, kids)][1..] == [];
  }

  lemma {:induction false} Regrouped(a: string, b: string, c: string)
    ensures a + b + c == a + (b + c)
  {
  }

  lemma {:induction false} LexPrintedAll(children: seq<Stanza>, rest: string)
    requires forall i :: 0 <= i < |children| ==> Expressible(children[i]) && Clean(children[i])
    ensures RenderAll(children).Pieces?
    ensures Lex(Concat(RenderAll(children).pieces) + rest) == Before(EventsAll(DocsOfAll(children)), Lex(rest))
    decreases children, 1
  {
    assert Concat([]) + rest == rest;
    hide Lex, Concat, Render, DocsOf, Expressible, Clean;
    if children == [] {
      BeforeTwice([], [], Lex(rest));
    } else {
      LexPrintedAll(children[1..], rest);
      var more := Concat(RenderAll(children[1..]).pieces) + rest;
      LexPrinted(children[0], more);
      ConcatAppend(Render(children[0]).pieces, RenderAll(children[1..]).pieces);
      Regrouped(Concat(Render(children[0]).pieces), Concat(RenderAll(children[1..]).pieces), rest);
      EventsAppend(DocsOf(children[0]), DocsOfAll(children[1..]));
      BeforeTwice(EventsAll(DocsOf(children[0])), EventsAll(DocsOfAll(children[1..])), Lex(rest));
    }
  }

  // ---------------------------------------- trees up to the cutting of character data

  /** A tree with its attributes as a map; see Join for its texts. */
  datatype Tree = Tag(name: string, attrs: map<string, string>, kids: seq<Tree>) | Txt(text: string)

  /** One more tree in front: an empty text is dropped, a text merges with a text. */
  function Join(k: Tree, rest: seq<Tree>): seq<Tree> {
    if k.Tag? then [k] + rest
    else if k.text == "" then rest
    else if rest != [] && rest[0].Txt? then [Txt(k.text + rest[0].text)] + rest[1..]
    else [k] + rest
  }

  function MapOf(m: map<string, string>, attrs: Attrs): map<string, string>
    decreases attrs
  {
    if attrs == [] then m else MapOf(m[attrs[0].0 := attrs[0].1], attrs[1..])
  }

  /** The trees of a document, however its character data is cut into chunks. */
  function OfDocs(ds: seq<Doc>): seq<Tree>
    decreases ds, 0
  {
    if ds == [] then []
    else
      match ds[0]
      case Chunk(text) => Join(Txt(text), OfDocs(ds[1..]))
      case Elem(name, attrs, kids) => Join(Tag(name, MapOf(map[], attrs), OfDocs(kids)), OfDocs(ds[1..]))
  }

  /** The trees of stanzas: with the attributes the iterator shows, or with all of them. */
  function OfStanzas(children: seq<Stanza>, all: bool): seq<Tree>
    decreases children, 0
  {
    if children == [] then [] else Join(OfStanza(children[0], all), OfStanzas(children[1..], all))
  }

  function OfStanza(st: Stanza, all: bool): Tree
    decreases st, 1
  {
    var data := if st.data.Some? then st.data.value else "";
    if st.kind == TextKind then Txt(data)
    else Tag(data, if all then AllAttributes(st) else MapOf(map[], Shown(st)), OfStanzas(st.children, all))
  }

  function AllAttributes(st: Stanza): map<string, string> {
    if st.attributes.None? then map[] else Contents(st.attributes.value)
  }

  lemma {:induction false} AddAllIsMapOf(t: Table<string>, attrs: Attrs)
    requires |t| == AttributeBuckets && WellFormed(t) && Hashable(attrs)
    ensures WellFormed(AddAll(t, attrs)) && Contents(AddAll(t, attrs)) == MapOf(Contents(t), attrs)
    decreases attrs
  {
    if attrs != [] {
      AddIsUpdate(t, attrs[0].0, attrs[0].1);
      AddAllIsMapOf(Add(t, attrs[0].0, attrs[0].1), attrs[1..]);
    }
  }

  lemma {:induction false} NothingInEmpty(n: nat)
    ensures Contents(Empty<string>(n)) == map[]
    ensures n > 0 ==> WellFormed(Empty<string>(n))
  {
    if n > 0 {
      assert Empty<string>(n)[1..] == Empty<string>(n - 1);
      NothingInEmpty(n - 1);
    }
  }

  /** The built trees have the attributes and the texts of the document. */
  lemma {:induction false} BuiltTrees(ds: seq<Doc>)
    requires forall i :: 0 <= i < |ds| ==> HashableDoc(ds[i])
    ensures OfStanzas(BuiltAll(ds), true) == OfDocs(ds)
    decreases ds
  {
    if ds != [] {
      BuiltTrees(ds[1..]);
      assert BuiltAll(ds)[0] == Built(ds[0]) && BuiltAll(ds)[1..] == BuiltAll(ds[1..]);
      if ds[0].Elem? {
        BuiltTrees(ds[0].kids);
        NothingInEmpty(AttributeBuckets);
        AddAllIsMapOf(Empty(AttributeBuckets), ds[0].attrs);
      }
    }
  }

  lemma {:induction false} ChunksJoin(s: string, ds: seq<Doc>)
    ensures OfDocs(Chunks(s) + ds) == Join(Txt(s), OfDocs(ds))
    decreases s
  {
    if s == "" {
      assert Chunks(s) + ds == ds;
    } else {
      assert (Chunks(s) + ds)[0] == Chunk([s[0]]) && (Chunks(s) + ds)[1..] == Chunks(s[1..]) + ds;
      ChunksJoin(s[1..], ds);
      JoinTwice([s[0]], s[1..], OfDocs(ds));
      assert [s[0]] + s[1..] == s;
    }
  }

  lemma {:induction false} JoinTwice(s: string, t: string, rest: seq<Tree>)
    requires s != ""
    ensures Join(Txt(s), Join(Txt(t), rest)) == Join(Txt(s + t), rest)
  {
    if t == "" {
      assert s + t == s;
    } else if rest != [] && rest[0].Txt? {
      assert s + (t + rest[0].text) == s + t + rest[0].text;
      assert ([Txt(t + rest[0].text)] + rest[1..])[1..] == rest[1..];
    } else {
      assert ([Txt(t)] + rest)[1..] == rest;
    }
  }

  /** The document a stanza prints as has the stanza's trees. */
  lemma {:induction false} PrintedTrees(children: seq<Stanza>, ds: seq<Doc>)
    ensures OfDocs(DocsOfAll(children) + ds) == JoinAll(children, OfDocs(ds))
    decreases children
  {
    if children == [] {
      assert DocsOfAll(children) + ds == ds;
    } else {
      var st, more := children[0], DocsOfAll(children[1..]) + ds;
      assert DocsOfAll(children) + ds == DocsOf(st) + more;
      PrintedTrees(children[1..], ds);
      if st.kind == TextKind {
        ChunksJoin(if st.data.Some? then st.data.value else "", more);
      } else {
        assert (DocsOf(st) + more)[0] == DocsOf(st)[0] && (DocsOf(st) + more)[1..] == more;
        assert DocsOfAll(st.children) + [] == DocsOfAll(st.children);
        PrintedTrees(st.children, []);
        JoinAllNothing(st.children);
      }
    }
  }

  function JoinAll(children: seq<Stanza>, rest: seq<Tree>): seq<Tree> {
    if children == [] then rest else Join(OfStanza(children[0], false), JoinAll(children[1..], rest))
  }

  lemma {:induction false} JoinAllNothing(children: seq<Stanza>)
    ensures JoinAll(children, []) == OfStanzas(children, false)
    decreases children
  {
    if children != [] {
      JoinAllNothing(children[1..]);
    }
  }

  /** A document that is a single element, but for empty chunks, is given to the owner as
      one tree. */
  lemma {:induction false} ToldOfOne(ds: seq<Doc>)
    requires (forall i :: 0 <= i < |ds| ==> HashableDoc(ds[i]))
    ensures OfDocs(ds) == [] ==> Told(ds) == []
    ensures |OfDocs(ds)| == 1 && OfDocs(ds)[0].Tag? ==>
      |Told(ds)| == 1 && Told(ds)[0].Received? && OfStanza(Told(ds)[0].st, true) == OfDocs(ds)[0]
    decreases ds
  {
    if ds != [] {
      ToldOfOne(ds[1..]);
      if ds[0].Elem? {
        BuiltTrees([ds[0]]);
        assert [ds[0]][1..] == [] && BuiltAll([ds[0]]) == [Built(ds[0])] && BuiltAll([ds[0]])[1..] == [];
        assert OfStanzas(BuiltAll([ds[0]]), true) == [OfStanza(Built(ds[0]), true)];
        assert OfDocs([ds[0]]) == [OfDocs(ds)[0]];
      }
    }
  }

  /** Printing and building undo each other. The text of a clean, expressible tag has as
      events those of a document d; whichever way the character data of d is cut up, a
      parser between stanzas gives its owner exactly one tree, and it is the printed one,
      with the attributes the iterator shows. */
  lemma {:induction false} PrintThenBuild(st: Stanza, ds: seq<Doc>, b: Builder)
    requires Expressible(st) && Clean(st) && st.kind == TagKind
    requires (forall i :: 0 <= i < |ds| ==> HashableDoc(ds[i])) && OfDocs(ds) == OfDocs(DocsOf(st))
    requires Sound(b) && b.depth == 1
    ensures Render(st).Pieces? && Lex(Concat(Render(st).pieces)) == Some(EventsAll(DocsOf(st)))
    ensures Nested(1, EventsAll(ds))
    ensures var r := Run(b, EventsAll(ds));
      && r.depth == 1 && |r.log| == |b.log| + 1 && b.log <= r.log && r.log[|b.log|].Received?
      && OfStanza(r.log[|b.log|].st, true) == OfStanza(st, false)
  {
    LexPrinted(st, "");
    assert Concat(Render(st).pieces) + "" == Concat(Render(st).pieces);
    assert EventsAll(DocsOf(st)) + [] == EventsAll(DocsOf(st));
    OneTree(st);
    ToldOfOne(ds);
    BuildsAtTop(b, ds);
  }

  lemma {:induction false} OneTree(st: Stanza)
    requires st.kind != TextKind
    ensures OfDocs(DocsOf(st)) == [OfStanza(st, false)]
  {
    PrintedTrees([st], []);
    assert [st][1..] == [] && DocsOfAll([st]) + [] == DocsOf(st);
  }

  // ------------------------------------------------- when the round trip is exact

  ghost predicate CleanEvent(e: Event) {
    match e
    case StartTag(_, attrs) => forall i :: 0 <= i < |attrs| ==> CleanValue(attrs[i].1)
    case EndTag(_) => true
    case Chars(text) => '\r' !in text
  }

  ghost predicate CleanEvents(events: seq<Event>) {
    forall i :: 0 <= i < |events| ==> CleanEvent(events[i])
  }

  /** No text of XML has these characters in its events. */
  lemma {:induction false} LexIsClean(s: string)
    ensures Lex(s).Some? ==> CleanEvents(Lex(s).value)
    decreases |s|
  {
    hide NameLength, SkipSpace, Entity, IsName;
    if s == "" {
    } else if s[0] == '&' {
      LexReference(s);
      if Entity(s).Some? {
        EntityIsClean(s);
        LexIsClean(Entity(s).value.1);
      }
    } else if !IsChar(s[0]) {
    } else if StartsWith(s, "</") {
      LexEndTag(s);
      LexIsClean(SkipSpace(s[2..][NameLength(s[2..])..])[if SkipSpace(s[2..][NameLength(s[2..])..]) == "" then 0 else 1..]);
    } else if s[0] == '<' {
      var end := Attributes(s[1..][NameLength(s[1..])..], []);
      if end.Some? {
        AttributesAreClean(s[1..][NameLength(s[1..])..], []);
        LexIsClean(end.value.rest);
      }
    } else {
      LexIsClean(s[1..]);
    }
  }

  lemma {:induction false} EntityIsClean(s: string)
    ensures Entity(s).Some? ==> Entity(s).value.0 != '\r' && |Entity(s).value.1| < |s|
  {
  }

  lemma {:induction false} AttributesAreClean(s: string, seen: Attrs)
    requires forall i :: 0 <= i < |seen| ==> CleanValue(seen[i].1)
    ensures var r := Attributes(s, seen);
      r.Some? ==> |r.value.rest| < |s| && forall i :: 0 <= i < |r.value.attrs| ==> CleanValue(r.value.attrs[i].1)
    decreases |s|
  {
    hide AttValue, NameLength, IsName;
    if StartsWith(s, ">") || StartsWith(s, "/>") || s == "" || !IsSpace(s[0]) {
    } else {
      var t := SkipSpace(s);
      if t != "" && (t[0] == '>' || t[0] == '/') {
        AttributesAreClean(t, seen);
      } else {
        var n := NameLength(t);
        var name, u := t[..n], SkipSpace(t[n..]);
        if IsName(name) && StartsWith(u, "=") {
          var v := SkipSpace(u[1..]);
          if v != "" && v[0] in "\"'" {
            var value := AttValue(v[1..], v[0]);
            if value.Some? {
              assert CleanValue(value.value.0);
              AttributesAreClean(value.value.1, seen + [(name, value.value.0)]);
            }
          }
        }
      }
    }
  }

  ghost predicate CleanTree(t: Tree) {
    match t
    case Txt(text) => '\r' !in text
    case Tag(_, attrs, kids) =>
      && CleanMap(attrs)
      && (forall i :: 0 <= i < |kids| ==> CleanTree(kids[i]))
  }

  ghost predicate CleanMap(m: map<string, string>) {
    forall key :: key in m ==> CleanValue(m[key])
  }

  ghost predicate CleanTrees(ts: seq<Tree>) {
    forall i :: 0 <= i < |ts| ==> CleanTree(ts[i])
  }

  lemma {:induction false} JoinIsClean(k: Tree, rest: seq<Tree>)
    ensures CleanTrees(Join(k, rest)) <==> CleanTree(k) && CleanTrees(rest)
  {
    var r := Join(k, rest);
    if k.Txt? && k.text != "" && rest != [] && rest[0].Txt? {
      assert forall i :: 1 <= i < |r| ==> r[i] == rest[i];
      assert CleanTrees(r) <==> CleanTree(r[0]) && CleanTrees(rest[1..]) by {
        assert r[1..] == rest[1..];
      }
      assert CleanTrees(rest) <==> CleanTree(rest[0]) && CleanTrees(rest[1..]);
    } else if r != rest {
      assert r == [k] + rest;
      assert forall i :: 0 <= i < |rest| ==> r[i + 1] == rest[i];
      assert r[0] == k;
    }
  }

  lemma {:induction false} MapOfIsClean(m: map<string, string>, attrs: Attrs)
    requires CleanMap(m) && forall i :: 0 <= i < |attrs| ==> CleanValue(attrs[i].1)
    ensures CleanMap(MapOf(m, attrs))
    decreases attrs
  {
    if attrs != [] {
      assert CleanValue(attrs[0].1);
      assert forall i :: 0 <= i < |attrs| - 1 ==> attrs[1..][i] == attrs[i + 1];
      var m1 := m[attrs[0].0 := attrs[0].1];
      MapOfIsClean(m1, attrs[1..]);
    }
  }

  /** With no name twice, every attribute is in the map. */
  lemma {:induction false} MapOfHasAll(m: map<string, string>, attrs: Attrs)
    requires forall i, j :: 0 <= i < j < |attrs| ==> attrs[i].0 != attrs[j].0
    ensures forall i :: 0 <= i < |attrs| ==> attrs[i].0 in MapOf(m, attrs) && MapOf(m, attrs)[attrs[i].0] == attrs[i].1
    ensures forall key :: key in m && (forall i :: 0 <= i < |attrs| ==> attrs[i].0 != key) ==>
      key in MapOf(m, attrs) && MapOf(m, attrs)[key] == m[key]
    ensures forall key :: key in MapOf(m, attrs) ==> key in m || exists i :: 0 <= i < |attrs| && attrs[i].0 == key
    decreases attrs
  {
    if attrs != [] {
      var m1 := m[attrs[0].0 := attrs[0].1];
      MapOfHasAll(m1, attrs[1..]);
      assert forall i :: 0 <= i < |attrs| - 1 ==> attrs[1..][i] == attrs[i + 1];
    }
  }

  lemma {:induction false} CleanDocs(ds: seq<Doc>)
    requires CleanEvents(EventsAll(ds))
    ensures CleanTrees(OfDocs(ds))
    decreases ds
  {
    if ds != [] {
      CleanAppend(EventsOf(ds[0]), EventsAll(ds[1..]));
      CleanDocs(ds[1..]);
      if ds[0].Elem? {
        var s, kids, e := [StartTag(ds[0].name, ds[0].attrs)], EventsAll(ds[0].kids), [EndTag(ds[0].name)];
        CleanAppend(s + kids, e);
        CleanAppend(s, kids);
        CleanDocs(ds[0].kids);
        assert CleanEvent(s[0]);
        MapOfIsClean(map[], ds[0].attrs);
        assert CleanTree(Tag(ds[0].name, MapOf(map[], ds[0].attrs), OfDocs(ds[0].kids)));
        JoinIsClean(Tag(ds[0].name, MapOf(map[], ds[0].attrs), OfDocs(ds[0].kids)), OfDocs(ds[1..]));
      } else {
        assert CleanEvent(EventsOf(ds[0])[0]);
        JoinIsClean(Txt(ds[0].text), OfDocs(ds[1..]));
      }
    }
  }

  lemma {:induction false} CleanAppend(a: seq<Event>, c: seq<Event>)
    ensures CleanEvents(a + c) <==> CleanEvents(a) && CleanEvents(c)
  {
    assert forall i :: 0 <= i < |a| ==> (a + c)[i] == a[i];
    assert forall i :: 0 <= i < |c| ==> (a + c)[|a| + i] == c[i];
  }

  lemma {:induction false} CleanStanzas(children: seq<Stanza>)
    requires forall i :: 0 <= i < |children| ==> Expressible(children[i])
    ensures CleanTrees(OfStanzas(children, false)) <==> forall i :: 0 <= i < |children| ==> Clean(children[i])
    decreases children, 0
  {
    if children != [] {
      CleanStanzas(children[1..]);
      CleanStanza(children[0]);
      JoinIsClean(OfStanza(children[0], false), OfStanzas(children[1..], false));
      assert forall i :: 1 <= i < |children| ==> children[i] == children[1..][i - 1];
    }
  }

  lemma {:induction false} CleanStanza(st: Stanza)
    requires Expressible(st)
    ensures CleanTree(OfStanza(st, false)) <==> Clean(st)
    decreases st, 1
  {
    if st.kind == TagKind {
      CleanStanzas(st.children);
      MapOfHasAll(map[], Shown(st));
    }
  }

  /** The events of the printed text are those of a document with the stanza's trees
      exactly when the stanza is clean. */
  lemma {:induction false} ReadsBackIffClean(st: Stanza)
    requires Expressible(st) && st.kind == TagKind && Render(st).Pieces?
    ensures Clean(st) <==> exists ds ::
      Lex(Concat(Render(st).pieces)) == Some(EventsAll(ds)) && OfDocs(ds) == [OfStanza(st, false)]
  {
    assert Lex("") == Some([]);
    hide Lex, Concat, Render;
    var text := Concat(Render(st).pieces);
    if Clean(st) {
      LexPrinted(st, "");
      assert text + "" == text;
      assert EventsAll(DocsOf(st)) + [] == EventsAll(DocsOf(st));
      OneTree(st);
      assert Lex(text) == Some(EventsAll(DocsOf(st)));
    }
    if ds :| Lex(text) == Some(EventsAll(ds)) && OfDocs(ds) == [OfStanza(st, false)] {
      LexIsClean(text);
      CleanDocs(ds);
      CleanStanza(st);
      assert CleanTree(OfDocs(ds)[0]);
    }
  }

  /** In no table of the stanza does the iterator leave out an entry. */
  ghost predicate Complete(st: Stanza) {
    st.kind != TextKind ==>
      && (st.attributes.Some? && |st.attributes.value| > 0 ==> var t := st.attributes.value; |t[|t| - 1]| <= 1)
      && forall i :: 0 <= i < |st.children| ==> Complete(st.children[i])
  }

  ghost predicate WellFormedTables(st: Stanza) {
    && (st.attributes.Some? ==> WellFormed(st.attributes.value))
    && forall i :: 0 <= i < |st.children| ==> WellFormedTables(st.children[i])
  }

  lemma {:induction false} PairsMap(keys: seq<string>, m: map<string, string>)
    requires forall i, j :: 0 <= i < j < |keys| ==> keys[i] != keys[j]
    requires forall key :: key in keys ==> key in m
    ensures MapOf(map[], Pairs(keys, m)) == m <==> forall key :: key in m ==> key in keys
  {
    var pairs := Pairs(keys, m);
    var r := MapOf(map[], pairs);
    MapOfHasAll(map[], pairs);
    assert |pairs| == |keys| && forall i :: 0 <= i < |keys| ==> pairs[i].0 == keys[i] && pairs[i].1 == m[keys[i]];
    hide MapOf, Pairs;
    forall key ensures key in r <==> key in keys {
      if key in keys {
        var i :| 0 <= i < |keys| && keys[i] == key;
        assert pairs[i].0 in r;
      }
    }
    forall key | key in r ensures r[key] == m[key] {
      var i :| 0 <= i < |keys| && keys[i] == key;
      assert r[pairs[i].0] == pairs[i].1;
    }
    if forall key :: key in m ==> key in keys {
      assert r.Keys == m.Keys;
    }
  }

  lemma {:induction false} ShownIsAll(st: Stanza)
    requires st.attributes.Some? ==> WellFormed(st.attributes.value)
    ensures MapOf(map[], Shown(st)) == AllAttributes(st)
      <==> (st.attributes.Some? ==> var t := st.attributes.value; |t[|t| - 1]| <= 1)
  {
    if st.attributes.Some? {
      var t := st.attributes.value;
      EnumeratedKeys(t);
      PairsMap(Enumerated(t), Contents(t));
    }
  }

  /** No empty text in front. */
  ghost predicate Trimmed(ts: seq<Tree>) {
    ts != [] && ts[0].Txt? ==> ts[0].text != ""
  }

  lemma {:induction false} JoinTrimmed(k: Tree, rest: seq<Tree>)
    requires Trimmed(rest)
    ensures Trimmed(Join(k, rest))
  {
  }

  lemma {:induction false} JoinInjective(k: Tree, r: seq<Tree>, k': Tree, r': seq<Tree>)
    requires Trimmed(r) && Trimmed(r')
    requires k.Txt? || k'.Txt? ==> k == k'
    ensures Join(k, r) == Join(k', r') <==> k == k' && r == r'
  {
    if Join(k, r) == Join(k', r') && k.Txt? && k.text != "" {
      var j := Join(k, r);
      assert r[if r != [] && r[0].Txt? then 1 else 0..] == j[1..] == r'[if r' != [] && r'[0].Txt? then 1 else 0..];
      var t := if r != [] && r[0].Txt? then r[0].text else "";
      var t' := if r' != [] && r'[0].Txt? then r'[0].text else "";
      assert j[0] == Txt(k.text + t) == Txt(k.text + t');
      assert t == (k.text + t)[|k.text|..] == t';
      assert r == (if t == "" then [] else [Txt(t)]) + j[1..];
      assert r' == (if t' == "" then [] else [Txt(t')]) + j[1..];
    } else if Join(k, r) == Join(k', r') && k.Tag? {
      assert r == Join(k, r)[1..] && r' == Join(k', r')[1..];
    }
  }

  lemma {:induction false} StanzasTrimmed(children: seq<Stanza>, all: bool)
    ensures Trimmed(OfStanzas(children, all))
    decreases children
  {
    if children != [] {
      StanzasTrimmed(children[1..], all);
      JoinTrimmed(OfStanza(children[0], all), OfStanzas(children[1..], all));
    }
  }

  /** What is shown of a stanza is all of it exactly when the iterator leaves nothing out,
      that is when no last bucket has two entries. So the built tree has every attribute
      of the printed one exactly then. */
  lemma {:induction false} ShownIffComplete(st: Stanza)
    requires WellFormedTables(st)
    ensures OfStanza(st, false) == OfStanza(st, true) <==> Complete(st)
    decreases st, 1
  {
    if st.kind != TextKind {
      ShownIsAll(st);
      ShownAllIffComplete(st.children);
    }
  }

  lemma {:induction false} ShownAllIffComplete(children: seq<Stanza>)
    requires forall i :: 0 <= i < |children| ==> WellFormedTables(children[i])
    ensures OfStanzas(children, false) == OfStanzas(children, true)
      <==> forall i :: 0 <= i < |children| ==> Complete(children[i])
    decreases children, 0
  {
    if children != [] {
      ShownIffComplete(children[0]);
      ShownAllIffComplete(children[1..]);
      StanzasTrimmed(children[1..], false);
      StanzasTrimmed(children[1..], true);
      JoinInjective(OfStanza(children[0], false), OfStanzas(children[1..], false),
        OfStanza(children[0], true), OfStanzas(children[1..], true));
      assert forall i :: 1 <= i < |children| ==> children[i] == children[1..][i - 1];
    }
  }
}
