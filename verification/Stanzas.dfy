/** A stanza as the tree it is: what src/stanza.c reads when it prints one, and what the
    rest of the library asks of one it received. */
module Stanzas {
  import opened Common
  import opened Buckets

  datatype Kind = UnknownKind | TextKind | TagKind

  /** `attributes` is the hash table behind the C pointer, or NULL. */
  datatype Stanza = Stanza(kind: Kind, data: Option<string>, attributes: Option<Table<string>>, children: seq<Stanza>)

  const AttributeBuckets: nat := 8

  function Text(data: string): Stanza {
    Stanza(TextKind, Some(data), None, [])
  }

  // ------------------------------------------------------------------ queries

  function Attribute(st: Stanza, key: string): Option<string> {
    if st.kind == TagKind && st.attributes.Some? then Lookup(Contents(st.attributes.value), key) else None
  }

  /** NULL for a text, as `xmpp_stanza_get_name`. */
  function Name(st: Stanza): Option<string> {
    if st.kind == TextKind then None else st.data
  }

  function Ns(st: Stanza): Option<string> {
    Attribute(st, "xmlns")
  }

  function Type(st: Stanza): Option<string> {
    Attribute(st, "type")
  }

  function Id(st: Stanza): Option<string> {
    Attribute(st, "id")
  }

  function FirstNamed(children: seq<Stanza>, name: string): Option<Stanza> {
    if children == [] then None
    else if children[0].kind == TagKind && children[0].data == Some(name) then Some(children[0])
    else FirstNamed(children[1..], name)
  }

  function ChildByName(st: Stanza, name: string): Option<Stanza> {
    FirstNamed(st.children, name)
  }

  predicate HasChildInNs(st: Stanza, ns: string) {
    exists i :: 0 <= i < |st.children| && Ns(st.children[i]) == Some(ns)
  }

  /** The texts among the children, joined. */
  function TextOf(children: seq<Stanza>): string {
    if children == [] then ""
    else
      (if children[0].kind == TextKind && children[0].data.Some? then children[0].data.value else "")
      + TextOf(children[1..])
  }

  /** `xmpp_stanza_get_text`: NULL when there is nothing to return. */
  function GetText(st: Stanza): Option<string> {
    if st.kind == TextKind then st.data
    else if TextOf(st.children) == "" then None
    else Some(TextOf(st.children))
  }

  // ------------------------------------------------------------------ printing

  /** What `_escape_xml` makes of a character. */
  function EscapedChar(c: char): string {
    if c == '<' then "&lt;"
    else if c == '>' then "&gt;"
    else if c == '&' then "&amp;"
    else if c == '"' then "&quot;"
    else [c]
  }

  function Escape(s: string): string {
    if s == "" then "" else EscapedChar(s[0]) + Escape(s[1..])
  }

  /** The attributes in the order the hash iterator shows them. */
  function Shown(st: Stanza): seq<(string, string)> {
    if st.attributes.None? || |st.attributes.value| == 0 then []
    else
      var t := st.attributes.value;
      Pairs(Enumerated(t), Contents(t))
  }

  function Pairs(keys: seq<string>, m: map<string, string>): (r: seq<(string, string)>)
    ensures |r| == |keys|
    ensures forall i :: 0 <= i < |keys| ==> r[i] == (keys[i], if keys[i] in m then m[keys[i]] else "")
  {
    seq(|keys|, i requires 0 <= i < |keys| => (keys[i], if keys[i] in m then m[keys[i]] else ""))
  }

  /** The pieces a stanza is printed in, one per call of the formatter; Invalid if a
      stanza in it has no type or no data. */
  datatype Rendering = Invalid | Pieces(pieces: seq<string>)

  function AttributePiece(a: (string, string)): string {
    " " + a.0 + "=\"" + Escape(a.1) + "\""
  }

  function AttributePieces(shown: seq<(string, string)>): (r: seq<string>)
    ensures |r| == |shown| && forall i :: 0 <= i < |r| ==> r[i] == AttributePiece(shown[i])
  {
    seq(|shown|, i requires 0 <= i < |shown| => AttributePiece(shown[i]))
  }

  function Render(st: Stanza): (r: Rendering)
    ensures r.Pieces? ==> r.pieces != []
    decreases st, 0
  {
    if st.kind == UnknownKind || st.data.None? then Invalid
    else if st.kind == TextKind then Pieces([Escape(st.data.value)])
    else
      var head := ["<" + st.data.value] + AttributePieces(Shown(st));
      if st.children == [] then Pieces(head + ["/>"])
      else
        match RenderAll(st.children)
        case Invalid => Invalid
        case Pieces(p) => Pieces(head + [">"] + p + ["</" + st.data.value + ">"])
  }

  function RenderAll(children: seq<Stanza>): Rendering
    decreases children, 1
  {
    if children == [] then Pieces([])
    else
      match Render(children[0])
      case Invalid => Invalid
      case Pieces(p) =>
        match RenderAll(children[1..])
        case Invalid => Invalid
        case Pieces(q) => Pieces(p + q)
  }

  /** The pieces that are printed before a stanza that cannot be printed is met, or all. */
  function Begun(st: Stanza): seq<string>
    decreases st, 0
  {
    if st.kind == UnknownKind || st.data.None? then []
    else if st.kind == TextKind then [Escape(st.data.value)]
    else
      var head := ["<" + st.data.value] + AttributePieces(Shown(st));
      if st.children == [] then head + ["/>"]
      else head + [">"] + BegunAll(st.children) + (if RenderAll(st.children).Invalid? then [] else ["</" + st.data.value + ">"])
  }

  function BegunAll(children: seq<Stanza>): seq<string>
    decreases children, 1
  {
    if children == [] then []
    else Begun(children[0]) + (if Render(children[0]).Invalid? then [] else BegunAll(children[1..]))
  }

  /** A stanza that can be printed is printed in whole. */
  lemma {:induction false} BegunIsWhole(st: Stanza)
    ensures Render(st).Pieces? ==> Begun(st) == Render(st).pieces
    decreases st, 0
  {
    if st.kind == TagKind && st.data.Some? && st.children != [] {
      BegunAllIsWhole(st.children);
      hide AttributePieces, Shown, RenderAll, BegunAll;
    }
  }

  lemma {:induction false} BegunAllIsWhole(children: seq<Stanza>)
    ensures RenderAll(children).Pieces? ==> BegunAll(children) == RenderAll(children).pieces
    decreases children, 1
  {
    hide Render, Begun;
    if children != [] {
      BegunIsWhole(children[0]);
      BegunAllIsWhole(children[1..]);
    }
  }

  /** Printing ends in the middle of the children. */
  lemma {:induction false} BegunUpTo(a: seq<Stanza>, st: Stanza, b: seq<Stanza>)
    requires RenderAll(a).Pieces? && Render(st).Invalid?
    ensures BegunAll(a + [st] + b) == RenderAll(a).pieces + Begun(st)
    decreases a
  {
    var all := a + [st] + b;
    hide Render, Begun;
    if a == [] {
      assert all == [st] + b;
      assert Begun(st) + [] == Begun(st) && [] + Begun(st) == Begun(st);
    } else {
      assert all[0] == a[0] && all[1..] == a[1..] + [st] + b;
      BegunIsWhole(a[0]);
      BegunUpTo(a[1..], st, b);
      assert Render(a[0]).pieces + (RenderAll(a[1..]).pieces + Begun(st)) == Render(a[0]).pieces + RenderAll(a[1..]).pieces + Begun(st);
    }
  }

  function Concat(pieces: seq<string>): string {
    if pieces == [] then "" else pieces[0] + Concat(pieces[1..])
  }

  lemma {:induction false} ConcatAppend(p: seq<string>, q: seq<string>)
    ensures Concat(p + q) == Concat(p) + Concat(q)
  {
    if p == [] {
      assert p + q == q;
    } else {
      assert (p + q)[1..] == p[1..] + q;
      ConcatAppend(p[1..], q);
    }
  }

  lemma {:induction false} RenderAllAppend(a: seq<Stanza>, b: seq<Stanza>)
    ensures RenderAll(a + b) == (
      if RenderAll(a).Invalid? || RenderAll(b).Invalid? then Invalid
      else Pieces(RenderAll(a).pieces + RenderAll(b).pieces))
  {
    if a == [] {
      assert a + b == b;
      if RenderAll(b).Pieces? {
        assert [] + RenderAll(b).pieces == RenderAll(b).pieces;
      }
    } else {
      assert (a + b)[0] == a[0] && (a + b)[1..] == a[1..] + b;
      RenderAllAppend(a[1..], b);
      hide Render;
      if Render(a[0]).Pieces? && RenderAll(a[1..]).Pieces? && RenderAll(b).Pieces? {
        var first, more, last := Render(a[0]).pieces, RenderAll(a[1..]).pieces, RenderAll(b).pieces;
        assert first + (more + last) == first + more + last;
      }
    }
  }

  lemma {:induction false} RenderAllOne(st: Stanza)
    ensures RenderAll([st]) == Render(st)
  {
    assert [st][1..] == [];
    if Render(st).Pieces? {
      assert Render(st).pieces + [] == Render(st).pieces;
    }
  }
}
