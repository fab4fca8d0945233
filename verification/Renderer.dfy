/** Printing a stanza into memory as src/stanza.c does: a cursor moves through a bounded
    buffer, and a second pass follows when the first 1024 bytes were not enough. */
module Renderers {
  import opened Common
  import opened Formats
  import opened Printers
  import opened Stanzas
  import opened Buckets
  import opened HashTables

  const XMPP_EOK := 0
  const XMPP_EINVOP := -2

  // -------------------------------------------- where a sequence of prints ends

  /** Whether one of the prints starts when exactly `left` characters were asked for
      before it; its pointer is then one past the end, and its NUL goes there. */
  function Spills(pieces: seq<string>, left: nat): bool {
    if pieces == [] then false
    else left == 0 || (|pieces[0]| <= left && Spills(pieces[1..], left - |pieces[0]|))
  }

  /** Memory after the pieces were printed one after the other from cell base, with
      `left` cells for them. */
  function Filled(start: seq<char>, base: nat, left: nat, pieces: seq<string>): (r: seq<char>)
    requires base + left < |start|
    ensures |r| == |start|
  {
    if pieces == [] then start
    else
      var m := AfterPrint(start, base, left, Concat(pieces));
      if Spills(pieces, left) then m[base + left := NUL] else m
  }

  /** Memory after one more sequence of prints, when `before` characters were asked for. */
  function FilledOn(memory: seq<char>, base: nat, left: nat, before: nat, pieces: seq<string>): seq<char>
    requires base + left < |memory|
  {
    if before > left then memory else Filled(memory, base + before, left - before, pieces)
  }

  lemma {:induction false} SpillsAppend(p: seq<string>, q: seq<string>, left: nat)
    ensures Spills(p + q, left) <==>
      Spills(p, left) || (|Concat(p)| <= left && Spills(q, left - |Concat(p)|))
    ensures Spills(p, left) ==> |Concat(p)| >= left
  {
    if p == [] {
      assert p + q == q;
    } else {
      assert (p + q)[0] == p[0] && (p + q)[1..] == p[1..] + q;
      if |p[0]| <= left {
        SpillsAppend(p[1..], q, left - |p[0]|);
      }
    }
  }

  /** Printing p and then q is printing p + q. */
  lemma {:induction false} FilledAppend(start: seq<char>, base: nat, left: nat, p: seq<string>, q: seq<string>)
    requires base + left < |start|
    ensures FilledOn(Filled(start, base, left, p), base, left, |Concat(p)|, q) == Filled(start, base, left, p + q)
  {
    hide AfterPrint;
    ConcatAppend(p, q);
    SpillsAppend(p, q, left);
    if p == [] {
      assert p + q == q;
    } else if q == [] {
      assert p + q == p;
    } else if |Concat(p)| < left {
      TextAppend(start, base, left, Concat(p), Concat(q));
    } else if |Concat(p)| == left {
      TextFull(start, base, left, Concat(p), Concat(q));
    } else {
      TextFull(start, base, left, Concat(p), Concat(q));
    }
  }

  /** Once the buffer is full, more text changes nothing in it. */
  lemma {:induction false} TextFull(start: seq<char>, base: nat, left: nat, s: string, t: string)
    requires base + left < |start| && |s| >= left
    ensures AfterPrint(start, base, left, s + t) == AfterPrint(start, base, left, s)
    ensures forall m: seq<char> :: |m| == |start| ==> AfterPrint(m, base + left, 0, t) == m[base + left := NUL]
  {
    var n := Kept(|s|, left);
    assert Kept(|s + t|, left) == n && (s + t)[..n] == s[..n];
    forall m: seq<char> | |m| == |start| ensures AfterPrint(m, base + left, 0, t) == m[base + left := NUL] {
      OnlyNul(m, base + left, t);
    }
  }

  lemma {:induction false} OnlyNul(m: seq<char>, base: nat, t: string)
    requires base < |m|
    ensures AfterPrint(m, base, 0, t) == m[base := NUL]
  {
    assert t[..0] == "";
  }

  lemma {:induction false} TextAppend(start: seq<char>, base: nat, left: nat, s: string, t: string)
    requires base + left < |start| && |s| < left
    ensures AfterPrint(AfterPrint(start, base, left, s), base + |s|, left - |s|, t) == AfterPrint(start, base, left, s + t)
  {
    var n := Kept(|t|, left - |s|);
    assert Kept(|s + t|, left) == |s| + n;
    assert (s + t)[..|s| + n] == s + t[..n];
  }

  // ------------------------------------------------------------ the formats used

  lemma {:induction false} ExpandString(f: string, i: nat, s: string, args: seq<Arg>)
    requires i + 1 < |f| && f[i] == '%' && f[i + 1] == 's'
    requires args != [] && args[0] == StrArg(Some(s))
    ensures Expand(f, i, args) == Prepend(s, Expand(f, i + 2, args[1..]))
  {
    assert f[i + 1..i + 1] == "";
    assert Str(Some(s), NoFlags, 0, -1) == s;
    assert Conversion(f, i + 1, NoFlags, 0, -1, NoSize, args) == Prepend(s, Expand(f, i + 2, args[1..]));
    assert Modifier(f, i + 1, NoFlags, 0, -1, args) == Conversion(f, i + 1, NoFlags, 0, -1, NoSize, args);
    assert Width(f, i + 1, NoFlags, 0, args) == Point(f, i + 1, NoFlags, 0, args);
  }

  /** Characters other than % stand for themselves. */
  lemma {:induction false} ExpandPlain(f: string, i: nat, j: nat, args: seq<Arg>)
    requires i <= j <= |f| && forall k :: i <= k < j ==> f[k] != '%'
    ensures Expand(f, i, args) == Prepend(f[i..j], Expand(f, j, args))
    decreases j - i
  {
    if i == j {
      PrependNothing(Expand(f, j, args));
    } else {
      ExpandPlain(f, i + 1, j, args);
      PrependTwice([f[i]], f[i + 1..j], Expand(f, j, args));
      assert [f[i]] + f[i + 1..j] == f[i..j];
    }
  }

  lemma {:induction false} PrependNothing(o: Output)
    ensures Prepend("", o) == o
  {
    if o.Printed? {
      assert "" + o.text == o.text;
    }
  }

  lemma {:induction false} ExpandNothing(f: string, i: nat)
    requires i == |f|
    ensures Expand(f, i, []) == Output.Printed("")
  {
  }

  lemma {:induction false} StartFormats(s: string)
    ensures Expand("%s", 0, [StrArg(Some(s))]) == Output.Printed(s)
    ensures Expand("<%s", 0, [StrArg(Some(s))]) == Output.Printed("<" + s)
  {
    hide Directive, Expand;
    var one := [StrArg(Some(s))];
    assert one[1..] == [];
    ExpandNothing("%s", 2);
    ExpandString("%s", 0, s, one);
    ExpandNothing("<%s", 3);
    ExpandPlain("<%s", 0, 1, one);
    ExpandString("<%s", 1, s, one);
  }

  lemma {:induction false} EndFormats(s: string)
    ensures Expand("</%s>", 0, [StrArg(Some(s))]) == Output.Printed("</" + s + ">")
    ensures Expand("/>", 0, []) == Output.Printed("/>")
    ensures Expand(">", 0, []) == Output.Printed(">")
  {
    hide Directive, Expand;
    var one := [StrArg(Some(s))];
    assert one[1..] == [];
    ExpandNothing("</%s>", 5);
    ExpandPlain("</%s>", 0, 2, one);
    ExpandString("</%s>", 2, s, one);
    ExpandPlain("</%s>", 4, 5, []);
    ExpandNothing("/>", 2);
    ExpandPlain("/>", 0, 2, []);
    ExpandNothing(">", 1);
    ExpandPlain(">", 0, 1, []);
  }

  lemma {:induction false} AttributeFormat(s: string, t: string)
    ensures Expand(" %s=\"%s\"", 0, [StrArg(Some(s)), StrArg(Some(t))])
      == Output.Printed(" " + s + "=\"" + t + "\"")
  {
    hide Directive, Expand;
    var two := [StrArg(Some(s)), StrArg(Some(t))];
    assert two[1..] == [StrArg(Some(t))] && two[1..][1..] == [];
    var f := " %s=\"%s\"";
    ExpandNothing(f, 8);
    ExpandPlain(f, 0, 1, two);
    ExpandString(f, 1, s, two);
    ExpandPlain(f, 3, 5, [StrArg(Some(t))]);
    ExpandString(f, 5, t, [StrArg(Some(t))]);
    ExpandPlain(f, 7, 8, []);
    assert f[0..1] == " " && f[3..5] == "=\"" && f[7..8] == "\"";
    AttributeText(s, t);
  }

  lemma {:induction false} AttributeText(s: string, t: string)
    ensures Prepend(" ", Prepend(s, Prepend("=\"", Prepend(t, Prepend("\"", Output.Printed(""))))))
      == Output.Printed(" " + s + "=\"" + t + "\"")
  {
    assert "\"" + "" == "\"";
    assert " " + (s + ("=\"" + (t + "\""))) == " " + s + "=\"" + t + "\"";
  }

  // ------------------------------------------------------------------- escaping

  function EscapedLength(c: char): nat {
    if c == '<' || c == '>' then 4 else if c == '&' then 5 else if c == '"' then 6 else 1
  }

  lemma {:induction false} EscapeStep(text: string, src: nat)
    requires src <= |text|
    ensures src < |text| ==> Escape(text[src..]) == EscapedChar(text[src]) + Escape(text[src + 1..])
    ensures src < |text| ==> |EscapedChar(text[src])| == EscapedLength(text[src])
    ensures src == |text| ==> Escape(text[src..]) == ""
    ensures src == 0 ==> Escape(text[src..]) == Escape(text)
  {
    if src < |text| {
      assert text[src..][0] == text[src] && text[src..][1..] == text[src + 1..];
    }
    assert text[0..] == text;
  }

  /** `_escape_xml`: the length is measured, then a block of just that length plus one
      is filled. */
  method EscapeXml(text: string) returns (buf: array<char>)
    ensures fresh(buf) && buf[..] == Escape(text) + [NUL]
  {
    hide Escape, EscapedChar, EscapedLength;
    var len, src := 0, 0;
    EscapeStep(text, 0);
    while src < |text|
      invariant 0 <= src <= |text| && len + |Escape(text[src..])| == |Escape(text)|
    {
      EscapeStep(text, src);
      len := len + EscapedLength(text[src]);
      src := src + 1;
    }
    EscapeStep(text, src);
    buf := new char[len + 1];
    var dst := FillEscaped(text, buf);
    buf[dst] := NUL;
  }

  /** The second loop of `_escape_xml`. */
  method FillEscaped(text: string, buf: array<char>) returns (dst: nat)
    requires buf.Length == |Escape(text)| + 1
    modifies buf
    ensures dst == |Escape(text)| && buf[..dst] == Escape(text)
  {
    hide Escape, EscapedChar, EscapedLength;
    var src := 0;
    dst := 0;
    EscapeStep(text, 0);
    while src < |text|
      invariant 0 <= src <= |text| && dst + |Escape(text[src..])| == |Escape(text)|
      invariant buf[..dst] + Escape(text[src..]) == Escape(text)
    {
      EscapeStep(text, src);
      var piece := EscapedChar(text[src]);
      ghost var done := buf[..dst];
      forall k | 0 <= k < |piece| {
        buf[dst + k] := piece[k];
      }
      assert buf[..dst + |piece|] == done + piece;
      dst := dst + |piece|;
      src := src + 1;
    }
    EscapeStep(text, src);
  }

  // ------------------------------------------------------------------- rendering

  /** The local variables of `_render_stanza_recursive`: `written`, `left`, and `ptr`,
      which is a cell of the memory or NULL. */
  datatype Cursor = Cursor(written: int, left: nat, ptr: nat, isNull: bool)

  /** The cursor after `total` characters were asked for, in a render that started at
      cell base (or NULL) with buflen cells. */
  function CursorAfter(base: nat, isNull: bool, buflen: nat, total: nat): Cursor {
    if isNull || total > buflen then Cursor(total, 0, 0, true)
    else Cursor(total, buflen - total, base + total, false)
  }

  function Image(start: seq<char>, base: nat, isNull: bool, buflen: nat, pieces: seq<string>): seq<char>
    requires isNull || base + buflen < |start|
  {
    if isNull then start else Filled(start, base, buflen, pieces)
  }

  lemma {:induction false} ImageAppend(start: seq<char>, base: nat, isNull: bool, buflen: nat, p: seq<string>, q: seq<string>)
    requires isNull || base + buflen < |start|
    ensures var c := CursorAfter(base, isNull, buflen, |Concat(p)|);
      && (c.isNull || c.ptr + c.left < |start|)
      && Image(Image(start, base, isNull, buflen, p), c.ptr, c.isNull, c.left, q) == Image(start, base, isNull, buflen, p + q)
    ensures |Concat(p + q)| == |Concat(p)| + |Concat(q)|
  {
    hide Concat, Filled;
    ConcatAppend(p, q);
    if !isNull {
      FilledAppend(start, base, buflen, p, q);
    }
  }

  /** `_render_update`; `length` is the size of the whole buffer, into which n characters
      were asked for before: the cursor is where it would be after all of them at once. */
  method RenderUpdate(c: Cursor, length: nat, lastwrite: nat, ghost base: nat, ghost noBuf: bool, ghost n: nat)
    returns (r: Cursor)
    requires (noBuf ==> length == 0) && c == CursorAfter(base, noBuf, length, n)
    ensures r == CursorAfter(base, noBuf, length, n + lastwrite)
  {
    var written := c.written + lastwrite;
    if written > length {
      r := Cursor(written, 0, 0, true);
    } else {
      r := Cursor(written, c.left - lastwrite, c.ptr + lastwrite, c.isNull);
    }
  }

  /** One call of the formatter and the update after it. */
  method Put(memory: array<char>, c: Cursor, buflen: nat, format: string, args: seq<Arg>,
             ghost start: seq<char>, ghost base: nat, ghost noBuf: bool, ghost before: seq<string>, ghost piece: string)
    returns (r: Cursor)
    requires |start| == memory.Length && (noBuf ==> buflen == 0) && (noBuf || base + buflen < |start|)
    requires c == CursorAfter(base, noBuf, buflen, |Concat(before)|)
    requires memory[..] == Image(start, base, noBuf, buflen, before)
    requires Expand(format, 0, args) == Output.Printed(piece)
    modifies memory
    ensures r == CursorAfter(base, noBuf, buflen, |Concat(before + [piece])|)
    ensures memory[..] == Image(start, base, noBuf, buflen, before + [piece])
  {
    hide Expand, AfterPrint;
    ghost var m := memory[..];
    ImageAppend(start, base, noBuf, buflen, before, [piece]);
    OnePiece(m, c, piece);
    var ret := Vsnprintf(memory, c.ptr, c.isNull, c.left, format, args);
    r := RenderUpdate(c, buflen, ret, base, noBuf, |Concat(before)|);
  }

  lemma {:induction false} NothingYet(start: seq<char>, base: nat, isNull: bool, buflen: nat)
    requires isNull || base + buflen < |start|
    ensures Image(start, base, isNull, buflen, []) == start && |Concat([])| == 0
  {
  }

  lemma {:induction false} OnePiece(m: seq<char>, c: Cursor, piece: string)
    requires c.isNull || c.ptr + c.left < |m|
    ensures Concat([piece]) == piece
    ensures Image(m, c.ptr, c.isNull, c.left, [piece]) == if c.isNull then m else AfterPrint(m, c.ptr, c.left, piece)
  {
    assert [piece][1..] == [] && piece + "" == piece;
    assert Spills([piece], c.left) <==> c.left == 0;
    if !c.isNull && c.left == 0 {
      assert AfterPrint(m, c.ptr, 0, piece)[c.ptr] == NUL;
      assert AfterPrint(m, c.ptr, 0, piece)[c.ptr := NUL] == AfterPrint(m, c.ptr, 0, piece);
    }
  }

  /** `_render_stanza_recursive`: what it returns does not depend on the buffer, and what
      it leaves in the buffer is as much of the text as fits. */
  method RenderRecursive(st: Stanza, memory: array<char>, base: nat, isNull: bool, buflen: nat) returns (ret: int)
    requires (isNull ==> buflen == 0 && base == 0) && (isNull || base + buflen < memory.Length)
    requires Printable(st)
    modifies memory
    ensures ret == if Render(st).Invalid? then XMPP_EINVOP else |Concat(Render(st).pieces)|
    ensures memory[..] == Image(old(memory[..]), base, isNull, buflen, Begun(st))
    decreases st, 1
  {
    hide Expand, AfterPrint, Spills, Filled, Concat, Render, RenderAll, Begun, BegunAll, Image, AttributePieces, Shown;
    ghost var start := memory[..];
    var c := Cursor(0, buflen, base, isNull);
    RenderCases(st);
    NothingYet(start, base, isNull, buflen);
    if st.kind == UnknownKind || st.data.None? {
      return XMPP_EINVOP;
    }
    var data := st.data.value;
    if st.kind == TextKind {
      var tmp := EscapeXml(data);
      StartFormats(Escape(data));
      assert tmp[..tmp.Length - 1] == Escape(data);
      c := Put(memory, c, buflen, "%s", [StrArg(Some(tmp[..tmp.Length - 1]))], start, base, isNull, [], Escape(data));
      assert [] + [Escape(data)] == [Escape(data)];
      return c.written;
    }
    StartFormats(data);
    EndFormats(data);
    ghost var p := ["<" + data];
    assert [] + ["<" + data] == p;
    c := Put(memory, c, buflen, "<%s", [StrArg(Some(data))], start, base, isNull, [], "<" + data);
    if st.attributes.Some? && |Contents(st.attributes.value)| > 0 {
      c := RenderAttributes(st, memory, c, buflen, start, base, isNull, p);
    } else {
      NothingShown(st);
      assert p + AttributePieces(Shown(st)) == p;
    }
    p := p + AttributePieces(Shown(st));
    if st.children == [] {
      c := Put(memory, c, buflen, "/>", [], start, base, isNull, p, "/>");
    } else {
      c := Put(memory, c, buflen, ">", [], start, base, isNull, p, ">");
      p := p + [">"];
      ret, c := RenderChildren(st, memory, c, buflen, start, base, isNull, p);
      if ret < 0 {
        return ret;
      }
      p := p + RenderAll(st.children).pieces;
      c := Put(memory, c, buflen, "</%s>", [StrArg(Some(data))], start, base, isNull, p, "</" + data + ">");
    }
    return c.written;
  }

  lemma {:induction false} RenderCases(st: Stanza)
    ensures st.kind == UnknownKind || st.data.None? ==> Render(st).Invalid? && Begun(st) == []
    ensures st.kind == TextKind && st.data.Some? ==>
      Render(st) == Pieces([Escape(st.data.value)]) && Begun(st) == [Escape(st.data.value)]
    ensures st.kind == TagKind && st.data.Some? ==>
      var head := ["<" + st.data.value] + AttributePieces(Shown(st));
      if st.children == [] then Render(st) == Pieces(head + ["/>"]) && Begun(st) == head + ["/>"]
      else if RenderAll(st.children).Invalid? then Render(st).Invalid? && Begun(st) == head + [">"] + BegunAll(st.children)
      else
        var all := head + [">"] + RenderAll(st.children).pieces + ["</" + st.data.value + ">"];
        Render(st) == Pieces(all) && Begun(st) == all
  {
    BegunAllIsWhole(st.children);
    hide AttributePieces, Shown, RenderAll, BegunAll, Escape;
  }

  /** The loop over the children. */
  method RenderChildren(st: Stanza, memory: array<char>, c: Cursor, buflen: nat,
                        ghost start: seq<char>, ghost base: nat, ghost noBuf: bool, ghost before: seq<string>)
    returns (ret: int, r: Cursor)
    requires Printable(st)
    requires |start| == memory.Length && (noBuf ==> buflen == 0) && (noBuf || base + buflen < |start|)
    requires c == CursorAfter(base, noBuf, buflen, |Concat(before)|)
    requires memory[..] == Image(start, base, noBuf, buflen, before)
    modifies memory
    ensures if RenderAll(st.children).Invalid? then
        ret == XMPP_EINVOP && memory[..] == Image(start, base, noBuf, buflen, before + BegunAll(st.children))
      else
        && ret >= 0
        && r == CursorAfter(base, noBuf, buflen, |Concat(before + RenderAll(st.children).pieces)|)
        && memory[..] == Image(start, base, noBuf, buflen, before + RenderAll(st.children).pieces)
    decreases st, 0
  {
    hide *;
    NoneYet(st.children, before);
    r, ret := c, 0;
    var child := 0;
    ghost var done: seq<string> := [];
    while child < |st.children|
      invariant 0 <= child <= |st.children| && ret >= 0
      invariant RenderAll(st.children[..child]) == Pieces(done)
      invariant r == CursorAfter(base, noBuf, buflen, |Concat(before + done)|)
      invariant memory[..] == Image(start, base, noBuf, buflen, before + done)
    {
      RenderNext(st.children, child);
      ChildPrintable(st, child);
      ret, r := RenderChild(st.children[child], memory, r, buflen, start, base, noBuf, before + done);
      if ret < 0 {
        StopsAt(st.children, child, before, done);
        return;
      }
      Associates(before, done, Render(st.children[child]).pieces);
      done := done + Render(st.children[child]).pieces;
      child := child + 1;
    }
    assert st.children[..child] == st.children;
  }

  lemma {:induction false} NoneYet(children: seq<Stanza>, before: seq<string>)
    ensures RenderAll(children[..0]) == Pieces([]) && before + [] == before
  {
    hide Render;
  }

  lemma {:induction false} ChildPrintable(st: Stanza, i: nat)
    requires Printable(st) && i < |st.children|
    ensures Printable(st.children[i])
  {
  }

  /** The loop ends at a child that cannot be printed. */
  lemma {:induction false} StopsAt(children: seq<Stanza>, i: nat, before: seq<string>, done: seq<string>)
    requires i < |children| && RenderAll(children[..i]) == Pieces(done) && Render(children[i]).Invalid?
    ensures before + done + Begun(children[i]) == before + BegunAll(children)
  {
    hide *;
    Associates(before, done, Begun(children[i]));
    assert children == children[..i] + [children[i]] + children[i + 1..];
    BegunUpTo(children[..i], children[i], children[i + 1..]);
  }

  lemma {:induction false} Associates(a: seq<string>, b: seq<string>, c: seq<string>)
    ensures a + b + c == a + (b + c)
  {
  }

  method RenderChild(child: Stanza, memory: array<char>, c: Cursor, buflen: nat,
                     ghost start: seq<char>, ghost base: nat, ghost noBuf: bool, ghost before: seq<string>)
    returns (ret: int, r: Cursor)
    requires Printable(child)
    requires |start| == memory.Length && (noBuf ==> buflen == 0) && (noBuf || base + buflen < |start|)
    requires c == CursorAfter(base, noBuf, buflen, |Concat(before)|)
    requires memory[..] == Image(start, base, noBuf, buflen, before)
    modifies memory
    ensures if Render(child).Invalid? then
        ret == XMPP_EINVOP && ret < 0 && memory[..] == Image(start, base, noBuf, buflen, before + Begun(child))
      else
        && ret >= 0
        && r == CursorAfter(base, noBuf, buflen, |Concat(before + Render(child).pieces)|)
        && memory[..] == Image(start, base, noBuf, buflen, before + Render(child).pieces)
    decreases child, 2
  {
    hide Expand, AfterPrint, Spills, Filled, Concat, Image, Render, RenderAll, Printable, Begun, BegunAll;
    BegunIsWhole(child);
    ImageAppend(start, base, noBuf, buflen, before, Begun(child));
    ret := RenderRecursive(child, memory, c.ptr, c.isNull, c.left);
    r := c;
    if ret >= 0 {
      r := RenderUpdate(c, buflen, ret, base, noBuf, |Concat(before)|);
    }
  }

  lemma {:induction false} NothingShown(st: Stanza)
    requires st.attributes.Some? ==> WellFormed(st.attributes.value) && |Contents(st.attributes.value)| == 0
    ensures Shown(st) == []
  {
    if st.attributes.Some? {
      var t := st.attributes.value;
      EnumeratedKeys(t);
    }
  }

  /** Up to and with one more child; a child that cannot be printed spoils the whole. */
  lemma {:induction false} RenderNext(children: seq<Stanza>, i: nat)
    requires i < |children| && RenderAll(children[..i]).Pieces?
    ensures RenderAll(children[..i + 1]) == (
      if Render(children[i]).Invalid? then Invalid
      else Pieces(RenderAll(children[..i]).pieces + Render(children[i]).pieces))
    ensures Render(children[i]).Invalid? ==> RenderAll(children).Invalid?
  {
    hide *;
    RenderAllAppend(children[..i], [children[i]]);
    RenderAllOne(children[i]);
    assert children[..i] + [children[i]] == children[..i + 1];
    RenderAllAppend(children[..i + 1], children[i + 1..]);
    assert children[..i + 1] + children[i + 1..] == children;
  }

  /** The loop over the keys the hash iterator shows. */
  method RenderAttributes(st: Stanza, memory: array<char>, c: Cursor, buflen: nat,
                          ghost start: seq<char>, ghost base: nat, ghost noBuf: bool, ghost before: seq<string>)
    returns (r: Cursor)
    requires st.attributes.Some? && |st.attributes.value| > 0
    requires |start| == memory.Length && (noBuf ==> buflen == 0) && (noBuf || base + buflen < |start|)
    requires c == CursorAfter(base, noBuf, buflen, |Concat(before)|)
    requires memory[..] == Image(start, base, noBuf, buflen, before)
    modifies memory
    ensures r == CursorAfter(base, noBuf, buflen, |Concat(before + AttributePieces(Shown(st)))|)
    ensures memory[..] == Image(start, base, noBuf, buflen, before + AttributePieces(Shown(st)))
  {
    hide Expand, AfterPrint, Spills, Filled, Concat, Image, Escape;
    var shown := Shown(st);
    ghost var pieces := AttributePieces(shown);
    var i := 0;
    r := c;
    assert before + pieces[..0] == before;
    while i < |shown|
      invariant 0 <= i <= |shown|
      invariant r == CursorAfter(base, noBuf, buflen, |Concat(before + pieces[..i])|)
      invariant memory[..] == Image(start, base, noBuf, buflen, before + pieces[..i])
    {
      var (key, value) := shown[i];
      var tmp := EscapeXml(value);
      assert tmp[..tmp.Length - 1] == Escape(value);
      AttributeFormat(key, Escape(value));
      r := Put(memory, r, buflen, " %s=\"%s\"", [StrArg(Some(key)), StrArg(Some(tmp[..tmp.Length - 1]))],
               start, base, noBuf, before + pieces[..i], pieces[i]);
      assert before + pieces[..i] + [pieces[i]] == before + pieces[..i + 1];
      i := i + 1;
    }
    assert pieces[..i] == pieces;
  }

  /** A print starts when just so many characters were printed. */
  ghost predicate PrintStartsAt(pieces: seq<string>, n: nat) {
    exists k :: 0 <= k < |pieces| && |Concat(pieces[..k])| == n
  }

  lemma {:induction false} SpillsAtBoundary(p: seq<string>, left: nat)
    ensures Spills(p, left) <==> PrintStartsAt(p, left)
  {
    if p != [] {
      assert p[..0] == [];
      if left > 0 && |p[0]| <= left {
        SpillsAtBoundary(p[1..], left - |p[0]|);
        forall k | 1 <= k <= |p| ensures |Concat(p[..k])| == |p[0]| + |Concat(p[1..][..k - 1])| {
          assert p[..k][0] == p[0] && p[..k][1..] == p[1..][..k - 1];
        }
        if k :| 0 <= k < |p| - 1 && |Concat(p[1..][..k])| == left - |p[0]| {
          assert |Concat(p[..k + 1])| == left;
        }
        if k :| 1 <= k < |p| && |Concat(p[..k])| == left {
          assert |Concat(p[1..][..k - 1])| == left - |p[0]|;
        }
      } else if left > 0 {
        forall k | 1 <= k < |p| ensures |Concat(p[..k])| > left {
          assert p[..k][0] == p[0];
        }
      }
    }
  }

  /** The buffer of `xmpp_stanza_to_text`, of the size that was allocated. */
  const DEFAULT_LENGTH: nat := 1024

  /** The bytes a block of a given size ends up with, and the byte after it, when the text
      fits: the whole text and a NUL, and nothing beyond. */
  lemma {:induction false} FitsExactly(start: seq<char>, left: nat, pieces: seq<string>)
    requires left < |start| && |Concat(pieces)| < left && pieces != []
    ensures var m := Image(start, 0, false, left, pieces); var n := |Concat(pieces)|;
      m[..n] == Concat(pieces) && m[n] == NUL && m[left] == start[left] && !Spills(pieces, left)
  {
    SpillsAppend(pieces, [], left);
    assert pieces + [] == pieces;
  }

  /** What printing leaves of the byte behind a buffer. */
  lemma {:induction false} BehindIs(start: seq<char>, left: nat, pieces: seq<string>)
    requires left < |start|
    ensures Image(start, 0, false, left, pieces)[left] == if PrintStartsAt(pieces, left) then NUL else start[left]
  {
    SpillsAtBoundary(pieces, left);
    hide Concat, PrintStartsAt;
  }

  /** `xmpp_stanza_to_text`. A block of memory is an array with one more cell, for the
      byte after it; `beyond` is that byte's value for the first block, which is set to NUL
      just if a print starts when the block is full, be it before an error is met. */
  method ToText(st: Stanza, beyond: char) returns (ret: int, buf: array<char>, buflen: nat, after: char)
    requires Printable(st)
    ensures fresh(buf)
    ensures Render(st).Invalid? ==> ret == -2
    ensures Render(st).Pieces? ==> var text := Concat(Render(st).pieces);
      && ret == 0 && buflen == |text|
      && buf.Length - 1 == (if |text| < 1024 then 1024 else |text| + 1)
      && buf[..buflen] == text && buf[buflen] == '\0'
    ensures after == if PrintStartsAt(Begun(st), 1024) then '\0' else beyond
  {
    hide Render, Concat, Spills, Printable, Begun, Image, PrintStartsAt;
    BegunIsWhole(st);
    var length := DEFAULT_LENGTH;
    buf := new char[length + 1];
    buf[length] := beyond;
    buflen := 0;
    ghost var start := buf[..];
    var n := RenderRecursive(st, buf, 0, false, length);
    after := buf[length];
    assert after == buf[..][length];
    BehindIs(start, length, Begun(st));
    if n < 0 {
      return n, buf, 0, after;
    }
    ghost var pieces := Render(st).pieces;
    if n > length - 1 {
      var tmp := new char[n + 2];
      forall i | 0 <= i < length {
        tmp[i] := buf[i];
      }
      length := n + 1;
      buf := tmp;
      start := buf[..];
      n := RenderRecursive(st, buf, 0, false, length);
      if n > length - 1 {
        // XMPP_EMEM would be returned, but the second pass always fits
        assert false;
      }
    }
    FitsExactly(start, length, pieces);
    assert buf[..n] == buf[..][..n] && buf[n] == buf[..][n];
    buf[length - 1] := NUL;
    assert buf[..n] == Concat(pieces);
    return XMPP_EOK, buf, n, after;
  }

  /** The attribute tables in a stanza are well-formed, which the hash table keeps them. */
  ghost predicate Printable(st: Stanza) {
    && (st.attributes.Some? ==> WellFormed(st.attributes.value))
    && forall i :: 0 <= i < |st.children| ==> Printable(st.children[i])
  }
}
