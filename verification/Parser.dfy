/** The SAX callbacks of src/parser_expat.c on stanza objects that are linked by parent
    and child references, tied step by step to the builder of module Building. */
module Parsers {
  import opened Common
  import opened Buckets
  import opened Stanzas
  import opened Xml
  import opened Building

  /** A stanza object; the sibling links of the C struct are the order of `children`. */
  class Node {
    var ref: int
    var kind: Kind
    var data: Option<string>
    var attributes: Option<Table<string>>
    var children: seq<Node>
    var parent: Node?

    /** `xmpp_stanza_new`. */
    constructor ()
      ensures ref == 1 && kind == UnknownKind && data == None && attributes == None && children == [] && parent == null
    {
      ref, kind, data, attributes, children, parent := 1, UnknownKind, None, None, [], null;
    }

    /** `xmpp_stanza_add_child`: the child is cloned, linked and appended. */
    method AddChild(child: Node)
      requires child != this
      modifies this`children, child`ref, child`parent
      ensures children == old(children) + [child] && child.parent == this && child.ref == old(child.ref) + 1
    {
      child.ref := child.ref + 1;
      child.parent := this;
      children := children + [child];
    }

    /** `xmpp_stanza_set_attribute`: the table is made on first use. */
    method SetAttribute(key: string, value: string)
      requires Index(key, AttributeBuckets) >= 0
      requires attributes.Some? ==> |attributes.value| == AttributeBuckets
      modifies this`attributes
      ensures attributes == Some(Add(TableOf(old(attributes)), key, value))
    {
      hide Index, Add, AddAll;
      if attributes == None {
        attributes := Some(Empty(AttributeBuckets));
      }
      attributes := Some(Add(attributes.value, key, value));
    }

    /** `_set_attributes`. */
    method SetAttributes(attrs: Attrs)
      requires attributes == None && Hashable(attrs)
      modifies this`attributes
      ensures attributes == if attrs == [] then None else Some(AddAll(Empty(AttributeBuckets), attrs))
    {
      hide Index, Add;
      var i := 0;
      assert attrs[0..] == attrs;
      while i < |attrs|
        invariant 0 <= i <= |attrs| && (i == 0 <==> attributes == None)
        invariant |TableOf(attributes)| == AttributeBuckets
        invariant AddAll(TableOf(attributes), attrs[i..]) == AddAll(Empty(AttributeBuckets), attrs)
      {
        assert attrs[i..][0] == attrs[i] && attrs[i..][1..] == attrs[i + 1..];
        SetAttribute(attrs[i].0, attrs[i].1);
        i := i + 1;
      }
      assert attrs[i..] == [];
    }
  }

  function TableOf(attributes: Option<Table<string>>): Table<string> {
    if attributes.Some? then attributes.value else Empty(AttributeBuckets)
  }

  /** The objects below e, all in nodes, have the shape and contents of the tree st. */
  ghost predicate Represents(e: Node, st: Stanza, nodes: set<Node>)
    reads nodes
    decreases st
  {
    && e in nodes
    && SameNode(e, st)
    && |e.children| == |st.children|
    && forall i :: 0 <= i < |st.children| ==> Represents(e.children[i], st.children[i], nodes)
  }

  ghost predicate SameNode(e: Node, st: Stanza)
    reads e
  {
    e.kind == st.kind && e.data == st.data && e.attributes == st.attributes
  }

  lemma {:induction false} RepresentsMore(e: Node, st: Stanza, nodes: set<Node>, more: set<Node>)
    requires Represents(e, st, nodes) && nodes <= more
    ensures Represents(e, st, more)
    decreases st
  {
    forall i | 0 <= i < |st.children| ensures Represents(e.children[i], st.children[i], more) {
      RepresentsMore(e.children[i], st.children[i], nodes, more);
    }
  }

  /** The open elements from the top-level one to the current one, as objects and as
      trees; for each, its closed children; and all closed objects. */
  datatype Shape = Shape(path: seq<Node>, open: seq<Stanza>, kids: seq<seq<Node>>, closed: set<Node>)

  ghost predicate Linked(s: Shape)
    reads s.path, s.closed
  {
    && |s.path| == |s.open| == |s.kids|
    && (forall i, j :: 0 <= i < j < |s.path| ==> s.path[i] != s.path[j])
    && (forall i :: 0 <= i < |s.path| ==> s.path[i] !in s.closed)
    && (forall i :: 0 <= i < |s.path| ==> OpenNode(s, i))
    && (forall i :: 0 <= i < |s.path| ==> AllRepresent(s.kids[i], s.open[i].children, s.closed))
  }

  /** An open element: its parent is the one opened before it, its children are closed
      ones and then the next open one if any. */
  ghost predicate OpenNode(s: Shape, i: nat)
    requires i < |s.path| == |s.open| == |s.kids|
    reads s.path[i]
  {
    var e := s.path[i];
    && e.ref == 1 && SameNode(e, s.open[i])
    && e.parent == (if i == 0 then null else s.path[i - 1])
    && e.children == if i + 1 < |s.path| then s.kids[i] + [s.path[i + 1]] else s.kids[i]
  }

  ghost predicate AllRepresent(kids: seq<Node>, children: seq<Stanza>, closed: set<Node>)
    reads closed
  {
    |kids| == |children| && forall j :: 0 <= j < |kids| ==> Represents(kids[j], children[j], closed)
  }

  twostate predicate Same(e: Node)
    reads e
  {
    && e.ref == old(e.ref) && e.kind == old(e.kind) && e.data == old(e.data) && e.attributes == old(e.attributes)
    && e.parent == old(e.parent) && e.children == old(e.children)
  }

  datatype Rooted = Rooted(e: Node, st: Stanza, nodes: set<Node>)

  twostate lemma {:induction false} StillRepresents(r: Rooted)
    requires old(Represents(r.e, r.st, r.nodes)) && forall x :: x in r.nodes ==> Same(x)
    ensures Represents(r.e, r.st, r.nodes)
    decreases r.st
  {
    assert Same(r.e);
    forall i | 0 <= i < |r.st.children| ensures Represents(r.e.children[i], r.st.children[i], r.nodes) {
      StillRepresents(Rooted(r.e.children[i], r.st.children[i], r.nodes));
    }
  }

  class Parser {
    var depth: int
    var stanza: Node?
    /** What the owner was told. */
    ghost var log: seq<Callback>
    ghost var shape: Shape

    ghost function View(): Builder
      requires depth >= 0
      reads this
    {
      Builder(depth, shape.open, log)
    }

    ghost predicate Valid()
      reads this, shape.path, shape.closed
    {
      && depth >= 0 && Sound(View())
      && stanza == (if shape.path == [] then null else shape.path[|shape.path| - 1])
      && Linked(shape)
    }

    constructor ()
      ensures Valid() && View() == Initial
    {
      depth, stanza, log, shape := 0, null, [], Shape([], [], [], {});
    }

    /** `_start_element`. */
    method StartElement(name: string, attrs: Attrs)
      requires Valid() && Hashable(attrs)
      modifies this, shape.path
      ensures Valid() && View() == Step(old(View()), StartTag(name, attrs))
    {
      hide AllRepresent, Represents;
      if depth == 0 {
        log := log + [Started(name, attrs)];
        depth := 1;
      } else if stanza == null && depth != 1 {
        // the source reports an error here; it cannot happen
        assert false;
      } else {
        var child := NewTag(name, attrs);
        Open(child, Element(name, attrs));
      }
    }

    /** A new element becomes the current one, below the one that was. */
    method Open(child: Node, ghost st: Stanza)
      requires Valid() && depth >= 1 && child !in shape.path && child !in shape.closed
      requires SameNode(child, st) && st.children == [] && child.children == [] && child.ref == 1 && child.parent == null
      modifies this, shape.path, child
      ensures Valid() && View() == Builder(old(depth) + 1, old(shape.open) + [st], old(log))
      ensures shape.path == old(shape.path) + [child]
    {
      ghost var was := shape;
      ghost var now := Extended(was, child, st);
      if stanza != null {
        stanza.AddChild(child);
        child.ref := child.ref - 1;
      }
      stanza, shape, depth := child, now, depth + 1;
      Opened(Opening(was, child, st));
    }

    /** `_end_element`. */
    method EndElement(name: string)
      requires Valid() && depth > 0
      modifies this
      ensures Valid() && View() == Step(old(View()), EndTag(name))
    {
      hide Represents, AllRepresent, SameNode, Attach, Step;
      ghost var was := shape;
      EndSteps(View(), name);
      depth := depth - 1;
      if depth == 0 {
        log := log + [Ended(name)];
      } else {
        ghost var k := |was.path| - 1;
        assert OpenNode(was, k) && (k > 0 ==> OpenNode(was, k - 1));
        Closes(was);
        if stanza.parent != null {
          stanza := stanza.parent;
          shape := Closed(was);
        } else {
          GiveStanza(stanza, was.open[0], was.closed + {stanza});
          stanza := null;
          shape := Shape([], [], [], {});
        }
      }
    }

    /** The owner is called with a complete stanza; its references are dropped after that. */
    method GiveStanza(top: Node, ghost st: Stanza, ghost nodes: set<Node>)
      requires Represents(top, st, nodes) && top.ref == 1
      modifies this`log
      ensures log == old(log) + [Received(st)]
    {
      log := log + [Received(st)];
    }

    /** `_characters`. */
    method Characters(text: string)
      requires Valid()
      modifies this, shape.path
      ensures Valid() && View() == Step(old(View()), Chars(text))
    {
      if depth < 2 {
        return;
      }
      var child := NewText(text);
      AddText(child, text);
    }

    method AddText(child: Node, ghost text: string)
      requires Valid() && depth >= 2 && child !in shape.path && child !in shape.closed
      requires SameNode(child, Text(text)) && child.children == [] && child.ref == 1
      modifies this, shape.path, child
      ensures Valid() && View() == Step(old(View()), Chars(text))
    {
      hide Represents, AllRepresent;
      stanza.AddChild(child);
      child.ref := child.ref - 1;
      ghost var was := shape;
      shape := WithText(was, child, text);
      Texted(Texting(was, child, text));
    }
  }

  /** The current element is closed and becomes a child of the one before it. */
  ghost function Closed(s: Shape): Shape
    requires |s.path| == |s.open| == |s.kids| && |s.path| > 1
  {
    var k := |s.path| - 1;
    Shape(s.path[..k], Attach(s.open[..k], s.open[k]), s.kids[..k][k - 1 := s.kids[k - 1] + [s.path[k]]], s.closed + {s.path[k]})
  }

  lemma {:induction false} Closes(s: Shape)
    requires Linked(s) && s.path != []
    ensures var k := |s.path| - 1;
      && Represents(s.path[k], s.open[k], s.closed + {s.path[k]}) && s.path[k].ref == 1
      && (k > 0 ==> Linked(Closed(s)))
  {
    hide Represents;
    var k := |s.path| - 1;
    var e, nodes := s.path[k], s.closed + {s.path[k]};
    assert OpenNode(s, k);
    MoreClosed(s.kids[k], s.open[k].children, s.closed, nodes);
    IsRepresented(e, s.open[k], nodes);
    if k > 0 {
      var now := Closed(s);
      forall i | 0 <= i < k ensures OpenNode(now, i) && AllRepresent(now.kids[i], now.open[i].children, nodes) {
        assert OpenNode(s, i);
        MoreClosed(s.kids[i], s.open[i].children, s.closed, nodes);
      }
    }
  }

  lemma {:induction false} MoreClosed(kids: seq<Node>, children: seq<Stanza>, closed: set<Node>, more: set<Node>)
    requires AllRepresent(kids, children, closed) && closed <= more
    ensures AllRepresent(kids, children, more)
  {
    forall j | 0 <= j < |kids| ensures Represents(kids[j], children[j], more) {
      RepresentsMore(kids[j], children[j], closed, more);
    }
  }

  lemma {:induction false} IsRepresented(e: Node, st: Stanza, nodes: set<Node>)
    requires e in nodes && SameNode(e, st) && AllRepresent(e.children, st.children, nodes)
    ensures Represents(e, st, nodes)
  {
  }

  /** A text is added to the current element. */
  ghost function WithText(s: Shape, child: Node, text: string): Shape
    requires |s.path| == |s.open| == |s.kids| && s.path != []
  {
    var k := |s.path| - 1;
    Shape(s.path, Attach(s.open, Text(text)), s.kids[k := s.kids[k] + [child]], s.closed + {child})
  }

  datatype Texting = Texting(was: Shape, child: Node, text: string)

  twostate lemma Texted(t: Texting)
    requires var was := t.was;
      && old(Linked(was)) && was.path != [] && (forall e :: e in was.closed ==> Same(e))
      && (forall i :: 0 <= i < |was.path| - 1 ==> Same(was.path[i]))
      && Gained(was.path[|was.path| - 1], t.child)
    requires t.child !in t.was.closed && t.child !in t.was.path
    requires SameNode(t.child, Text(t.text)) && t.child.children == []
    ensures Linked(WithText(t.was, t.child, t.text))
  {
    hide Represents;
    var was := t.was;
    var n, now := |was.path|, WithText(was, t.child, t.text);
    IsRepresented(t.child, Text(t.text), now.closed);
    forall i | 0 <= i < n
      ensures OpenNode(now, i) && AllRepresent(now.kids[i], now.open[i].children, now.closed)
    {
      assert old(OpenNode(was, i));
      forall j | 0 <= j < |was.kids[i]| ensures Represents(was.kids[i][j], was.open[i].children[j], was.closed) {
        StillRepresents(Rooted(was.kids[i][j], was.open[i].children[j], was.closed));
      }
      MoreClosed(was.kids[i], was.open[i].children, was.closed, now.closed);
    }
  }

  lemma {:induction false} EndSteps(b: Builder, name: string)
    requires Sound(b) && b.depth > 0
    ensures var last, r := |b.open| - 1, Step(b, EndTag(name));
      if b.depth == 1 then r == Builder(0, [], b.log + [Ended(name)])
      else if last == 0 then r == Builder(1, [], b.log + [Received(b.open[0])])
      else r == Builder(b.depth - 1, Attach(b.open[..last], b.open[last]), b.log)
  {
    hide Attach;
  }

  method NewText(text: string) returns (child: Node)
    ensures fresh(child) && child.ref == 1 && child.parent == null && child.children == []
    ensures SameNode(child, Text(text))
  {
    child := new Node();
    child.kind, child.data := TextKind, Some(text);
  }

  method NewTag(name: string, attrs: Attrs) returns (child: Node)
    requires Hashable(attrs)
    ensures fresh(child) && child.ref == 1 && child.parent == null && child.children == []
    ensures SameNode(child, Element(name, attrs))
  {
    child := new Node();
    child.kind, child.data := TagKind, Some(name);
    child.SetAttributes(attrs);
  }

  ghost function Extended(s: Shape, child: Node, st: Stanza): Shape {
    Shape(s.path + [child], s.open + [st], s.kids + [[]], s.closed)
  }

  /** The only change to a node is one more child. */
  twostate predicate Gained(e: Node, child: Node)
    reads e
  {
    && e.ref == old(e.ref) && e.kind == old(e.kind) && e.data == old(e.data) && e.attributes == old(e.attributes)
    && e.parent == old(e.parent) && e.children == old(e.children) + [child]
  }

  /** A new element, with the tree it is, to be linked below the open ones. */
  datatype Opening = Opening(was: Shape, child: Node, st: Stanza)

  twostate lemma Opened(o: Opening)
    requires var was := o.was;
      && old(Linked(was)) && (forall e :: e in was.closed ==> Same(e))
      && (forall i :: 0 <= i < |was.path| - 1 ==> Same(was.path[i]))
      && (was.path != [] ==> Gained(was.path[|was.path| - 1], o.child))
    requires o.child !in o.was.closed && o.child !in o.was.path
    requires o.child.ref == 1 && o.child.children == [] && SameNode(o.child, o.st) && o.st.children == []
    requires o.child.parent == if o.was.path == [] then null else o.was.path[|o.was.path| - 1]
    ensures Linked(Extended(o.was, o.child, o.st))
  {
    var was := o.was;
    var n, now := |was.path|, Extended(was, o.child, o.st);
    hide Represents;
    forall i | 0 <= i < n
      ensures OpenNode(now, i) && AllRepresent(now.kids[i], now.open[i].children, now.closed)
    {
      assert old(OpenNode(was, i));
      forall j | 0 <= j < |was.kids[i]| ensures Represents(was.kids[i][j], was.open[i].children[j], was.closed) {
        StillRepresents(Rooted(was.kids[i][j], was.open[i].children[j], was.closed));
      }
    }
  }
}
