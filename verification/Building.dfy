/** What the SAX callbacks of src/parser_expat.c make of a stream of events, as steps on
    the list of elements that are open. */
module Building {
  import opened Common
  import opened Buckets
  import opened Stanzas
  import opened Xml

  /** The calls the owner of the parser receives. */
  datatype Callback = Started(name: string, attrs: Attrs) | Received(st: Stanza) | Ended(name: string)

  /** `open` holds the elements from the top-level stanza to the current one, each with
      the children it has so far except the next open one. */
  datatype Builder = Builder(depth: nat, open: seq<Stanza>, log: seq<Callback>)

  const Initial := Builder(0, [], [])

  /** Every attribute name has a place in the hash table (see Buckets.IndexInRange). */
  ghost predicate Hashable(attrs: Attrs) {
    forall i :: 0 <= i < |attrs| ==> Index(attrs[i].0, AttributeBuckets) >= 0
  }

  ghost predicate Acceptable(e: Event) {
    e.StartTag? ==> Hashable(e.attrs)
  }

  function AddAll(t: Table<string>, attrs: Attrs): (r: Table<string>)
    requires |t| == AttributeBuckets && Hashable(attrs)
    ensures |r| == AttributeBuckets
    decreases attrs
  {
    if attrs == [] then t else AddAll(Add(t, attrs[0].0, attrs[0].1), attrs[1..])
  }

  /** An element as `_start_element` makes it. */
  function Element(name: string, attrs: Attrs): Stanza
    requires Hashable(attrs)
  {
    Stanza(TagKind, Some(name), if attrs == [] then None else Some(AddAll(Empty(AttributeBuckets), attrs)), [])
  }

  function Attach(open: seq<Stanza>, child: Stanza): (r: seq<Stanza>)
    requires open != []
    ensures |r| == |open|
  {
    var last := |open| - 1;
    open[last := open[last].(children := open[last].children + [child])]
  }

  /** There is a current stanza exactly when two or more elements are open, and it then
      has depth - 2 ancestors. */
  ghost predicate Sound(b: Builder) {
    |b.open| == if b.depth >= 2 then b.depth - 1 else 0
  }

  function Change(e: Event): int {
    if e.StartTag? then 1 else if e.EndTag? then -1 else 0
  }

  function Step(b: Builder, e: Event): (r: Builder)
    requires Sound(b) && Acceptable(e) && (e.EndTag? ==> b.depth > 0)
    ensures Sound(r) && r.depth == b.depth + Change(e)
  {
    match e
    case StartTag(name, attrs) =>
      if b.depth == 0 then Builder(1, [], b.log + [Started(name, attrs)])
      else Builder(b.depth + 1, b.open + [Element(name, attrs)], b.log)
    case EndTag(name) =>
      if b.depth == 1 then Builder(0, [], b.log + [Ended(name)])
      else
        var last := |b.open| - 1;
        if last == 0 then Builder(1, [], b.log + [Received(b.open[0])])
        else Builder(b.depth - 1, Attach(b.open[..last], b.open[last]), b.log)
    case Chars(text) =>
      if b.depth < 2 then b else b.(open := Attach(b.open, Text(text)))
  }

  // ------------------------------------------------------------ whole streams

  /** Start tags minus end tags. */
  function Balance(events: seq<Event>): int {
    if events == [] then 0 else Change(events[0]) + Balance(events[1..])
  }

  /** No prefix closes more elements than are open. */
  ghost predicate Nested(depth: nat, events: seq<Event>)
    decreases events
  {
    events == [] || (Acceptable(events[0]) && depth + Change(events[0]) >= 0 && Nested(depth + Change(events[0]), events[1..]))
  }

  function Run(b: Builder, events: seq<Event>): (r: Builder)
    requires Sound(b) && Nested(b.depth, events)
    ensures Sound(r)
    decreases events
  {
    hide Step, Sound, Acceptable;
    if events == [] then b else Run(Step(b, events[0]), events[1..])
  }

  /** The depth is the number of open elements, at every point of every stream. */
  lemma {:induction false} DepthIsBalance(b: Builder, events: seq<Event>)
    requires Sound(b) && Nested(b.depth, events)
    ensures Run(b, events).depth == b.depth + Balance(events)
    decreases events
  {
    hide Step;
    if events != [] {
      DepthIsBalance(Step(b, events[0]), events[1..]);
    }
  }

  lemma {:induction false} FirstEvent(depth: nat, e: Event, rest: seq<Event>)
    ensures Balance([e] + rest) == Change(e) + Balance(rest)
    ensures Nested(depth, [e] + rest) <==>
      Acceptable(e) && depth + Change(e) >= 0 && Nested(depth + Change(e), rest)
  {
    hide Acceptable, Change;
    assert ([e] + rest)[1..] == rest;
  }

  lemma {:induction false} NestedAppend(depth: nat, a: seq<Event>, c: seq<Event>)
    requires Nested(depth, a) && depth + Balance(a) >= 0 && Nested(depth + Balance(a), c)
    ensures Nested(depth, a + c) && Balance(a + c) == Balance(a) + Balance(c)
    decreases a
  {
    if a == [] {
      assert a + c == c;
    } else {
      var e, rest := a[0], a[1..];
      hide *;
      assert a == [e] + rest && a + c == [e] + (rest + c);
      FirstEvent(depth, e, rest);
      FirstEvent(depth, e, rest + c);
      NestedAppend(depth + Change(e), rest, c);
    }
  }

  lemma {:induction false} RunAppend(b: Builder, a: seq<Event>, c: seq<Event>)
    requires Sound(b) && Nested(b.depth, a) && Nested(Run(b, a).depth, c)
    ensures Nested(b.depth, a + c) && Run(b, a + c) == Run(Run(b, a), c)
    decreases a
  {
    hide Step, Balance;
    DepthIsBalance(b, a);
    NestedAppend(b.depth, a, c);
    if a == [] {
      assert a + c == c;
    } else {
      assert (a + c)[0] == a[0] && (a + c)[1..] == a[1..] + c;
      RunAppend(Step(b, a[0]), a[1..], c);
    }
  }

  // ------------------------------------------------------- documents and trees

  /** A well-nested piece of a stream: an element with its contents, or a chunk of
      character data (a tokenizer may cut character data into chunks as it likes). */
  datatype Doc = Elem(name: string, attrs: Attrs, kids: seq<Doc>) | Chunk(text: string)

  function EventsOf(d: Doc): seq<Event>
    decreases d, 0
  {
    match d
    case Chunk(text) => [Chars(text)]
    case Elem(name, attrs, kids) => [StartTag(name, attrs)] + EventsAll(kids) + [EndTag(name)]
  }

  function EventsAll(ds: seq<Doc>): seq<Event>
    decreases ds, 1
  {
    if ds == [] then [] else EventsOf(ds[0]) + EventsAll(ds[1..])
  }

  ghost predicate HashableDoc(d: Doc) {
    d.Elem? ==> Hashable(d.attrs) && forall i :: 0 <= i < |d.kids| ==> HashableDoc(d.kids[i])
  }

  /** The tree a document stands for, built recursively. */
  function Built(d: Doc): Stanza
    requires HashableDoc(d)
    decreases d, 0
  {
    match d
    case Chunk(text) => Text(text)
    case Elem(name, attrs, kids) => Element(name, attrs).(children := BuiltAll(kids))
  }

  function BuiltAll(ds: seq<Doc>): (r: seq<Stanza>)
    requires forall i :: 0 <= i < |ds| ==> HashableDoc(ds[i])
    ensures |r| == |ds| && forall i :: 0 <= i < |ds| ==> r[i] == Built(ds[i])
    decreases ds, 1
  {
    if ds == [] then [] else [Built(ds[0])] + BuiltAll(ds[1..])
  }

  /** What the owner is told of the pieces of a stream: the elements, not the text. */
  function Told(ds: seq<Doc>): seq<Callback>
    requires forall i :: 0 <= i < |ds| ==> HashableDoc(ds[i])
  {
    if ds == [] then []
    else (if ds[0].Elem? then [Received(Built(ds[0]))] else []) + Told(ds[1..])
  }

  function AttachAll(open: seq<Stanza>, children: seq<Stanza>): (r: seq<Stanza>)
    requires open != []
    ensures |r| == |open|
  {
    var last := |open| - 1;
    open[last := open[last].(children := open[last].children + children)]
  }

  lemma {:induction false} NestedDoc(depth: nat, d: Doc)
    requires HashableDoc(d)
    ensures Nested(depth, EventsOf(d)) && Balance(EventsOf(d)) == 0
    decreases d, 0
  {
    if d.Elem? {
      var s, m, e := [StartTag(d.name, d.attrs)], EventsAll(d.kids), [EndTag(d.name)];
      NestedDocs(depth + 1, d.kids);
      assert s[1..] == [] && e[1..] == [];
      NestedAppend(depth, s, m);
      NestedAppend(depth, s + m, e);
    } else {
      assert EventsOf(d)[1..] == [];
    }
  }

  lemma {:induction false} NestedDocs(depth: nat, ds: seq<Doc>)
    requires forall i :: 0 <= i < |ds| ==> HashableDoc(ds[i])
    ensures Nested(depth, EventsAll(ds)) && Balance(EventsAll(ds)) == 0
    decreases ds, 1
  {
    if ds != [] {
      NestedDoc(depth, ds[0]);
      NestedDocs(depth, ds[1..]);
      NestedAppend(depth, EventsOf(ds[0]), EventsAll(ds[1..]));
    }
  }

  /** An element whose contents add so much to it. */
  lemma {:induction false} RunsElement(b: Builder, d: Doc)
    requires Sound(b) && b.depth >= 1 && HashableDoc(d) && d.Elem?
    requires var b1 := Step(b, StartTag(d.name, d.attrs));
      Nested(b1.depth, EventsAll(d.kids)) && Run(b1, EventsAll(d.kids)) == b1.(open := AttachAll(b1.open, BuiltAll(d.kids)))
    ensures Nested(b.depth, EventsOf(d))
    ensures Run(b, EventsOf(d)) == Step(Builder(b.depth + 1, b.open + [Built(d)], b.log), EndTag(d.name))
  {
    Opens(b, d);
    hide Run, Nested, Step, EventsAll, HashableDoc, BuiltAll, AttachAll, Element, Acceptable;
    var s, m, e := StartTag(d.name, d.attrs), EventsAll(d.kids), EndTag(d.name);
    var b1 := Step(b, s);
    var b2 := Builder(b.depth + 1, b.open + [Built(d)], b.log);
    RunOne(b, s);
    RunOne(b2, e);
    RunAppend(b, [s], m);
    RunAppend(b, [s] + m, [e]);
  }

  /** The current element after its start tag and its contents. */
  lemma {:induction false} Opens(b: Builder, d: Doc)
    requires Sound(b) && b.depth >= 1 && HashableDoc(d) && d.Elem?
    ensures Acceptable(StartTag(d.name, d.attrs)) && Acceptable(EndTag(d.name))
    ensures forall i :: 0 <= i < |d.kids| ==> HashableDoc(d.kids[i])
    ensures EventsOf(d) == [StartTag(d.name, d.attrs)] + EventsAll(d.kids) + [EndTag(d.name)]
    ensures var b1 := Step(b, StartTag(d.name, d.attrs));
      && b1.open != [] && b1.depth == b.depth + 1 && Sound(b1)
      && b1.(open := AttachAll(b1.open, BuiltAll(d.kids))) == Builder(b.depth + 1, b.open + [Built(d)], b.log)
  {
    hide EventsAll, BuiltAll, AttachAll, Built, Element, HashableDoc, Hashable;
    HashableParts(d);
    BuiltIs(d);
    AttachLast(b.open, Element(d.name, d.attrs), BuiltAll(d.kids));
  }

  lemma {:induction false} BuiltIs(d: Doc)
    requires HashableDoc(d) && d.Elem?
    ensures Hashable(d.attrs) && forall i :: 0 <= i < |d.kids| ==> HashableDoc(d.kids[i])
    ensures Element(d.name, d.attrs).children == []
    ensures Built(d) == Element(d.name, d.attrs).(children := BuiltAll(d.kids))
  {
    hide AddAll, BuiltAll;
  }

  lemma {:induction false} AttachLast(open: seq<Stanza>, e: Stanza, kids: seq<Stanza>)
    requires e.children == []
    ensures AttachAll(open + [e], kids) == open + [e.(children := kids)]
  {
    assert [] + kids == kids;
  }

  lemma {:induction false} HashableParts(d: Doc)
    requires HashableDoc(d) && d.Elem?
    ensures Hashable(d.attrs) && forall i :: 0 <= i < |d.kids| ==> HashableDoc(d.kids[i])
  {
  }

  /** Inside a stanza, the events of a document add its tree to the current element. */
  lemma {:induction false} BuildsInside(b: Builder, d: Doc)
    requires Sound(b) && b.depth >= 2 && HashableDoc(d)
    ensures Nested(b.depth, EventsOf(d))
    ensures Run(b, EventsOf(d)) == b.(open := Attach(b.open, Built(d)))
    decreases d, 0
  {
    hide Run, Nested;
    if d.Elem? {
      var b1 := Step(b, StartTag(d.name, d.attrs));
      BuildsAllInside(b1, d.kids);
      RunsElement(b, d);
      assert (b.open + [Built(d)])[..|b.open|] == b.open;
    } else {
      RunOne(b, Chars(d.text));
    }
  }

  lemma {:induction false} RunOne(b: Builder, e: Event)
    requires Sound(b) && Acceptable(e) && (e.EndTag? ==> b.depth > 0)
    ensures Nested(b.depth, [e]) && Run(b, [e]) == Step(b, e)
  {
    assert [e][1..] == [];
  }

  lemma {:induction false} BuildsAllInside(b: Builder, ds: seq<Doc>)
    requires Sound(b) && b.depth >= 2 && forall i :: 0 <= i < |ds| ==> HashableDoc(ds[i])
    ensures Nested(b.depth, EventsAll(ds))
    ensures Run(b, EventsAll(ds)) == b.(open := AttachAll(b.open, BuiltAll(ds)))
    decreases ds, 1
  {
    var last := |b.open| - 1;
    if ds == [] {
      assert b.open[last].children + [] == b.open[last].children;
    } else {
      FirstDoc(ds);
      hide Run, Nested, Step, EventsAll, EventsOf, HashableDoc, Built, BuiltAll;
      BuildsInside(b, ds[0]);
      var b1 := b.(open := Attach(b.open, Built(ds[0])));
      BuildsAllInside(b1, ds[1..]);
      RunAppend(b, EventsOf(ds[0]), EventsAll(ds[1..]));
      AttachedAll(b.open, Built(ds[0]), BuiltAll(ds[1..]));
    }
  }

  lemma {:induction false} FirstDoc(ds: seq<Doc>)
    requires ds != [] && forall i :: 0 <= i < |ds| ==> HashableDoc(ds[i])
    ensures EventsAll(ds) == EventsOf(ds[0]) + EventsAll(ds[1..])
    ensures BuiltAll(ds) == [Built(ds[0])] + BuiltAll(ds[1..])
    ensures Told(ds) == (if ds[0].Elem? then [Received(Built(ds[0]))] else []) + Told(ds[1..])
  {
    hide EventsOf, Built, HashableDoc;
  }

  lemma {:induction false} LogsJoin(a: seq<Callback>, b: seq<Callback>, c: seq<Callback>)
    ensures a + b + c == a + (b + c)
  {
  }

  lemma {:induction false} AttachedAll(open: seq<Stanza>, child: Stanza, more: seq<Stanza>)
    requires open != []
    ensures AttachAll(Attach(open, child), more) == AttachAll(open, [child] + more)
  {
    var last := |open| - 1;
    assert open[last].children + [child] + more == open[last].children + ([child] + more);
  }

  /** Between stanzas, the owner is given the tree of each element, once and in order. */
  lemma {:induction false} BuildsAtTop(b: Builder, ds: seq<Doc>)
    requires Sound(b) && b.depth == 1 && forall i :: 0 <= i < |ds| ==> HashableDoc(ds[i])
    ensures Nested(1, EventsAll(ds))
    ensures Run(b, EventsAll(ds)) == b.(log := b.log + Told(ds))
    decreases ds
  {
    if ds == [] {
      assert b.log + [] == b.log;
    } else {
      FirstDoc(ds);
      hide Run, Nested, Step, EventsAll, EventsOf, HashableDoc, Built, BuiltAll, Told;
      var d := ds[0];
      var told := if d.Elem? then [Received(Built(d))] else [];
      BuildsOneAtTop(b, d);
      BuildsAtTop(b.(log := b.log + told), ds[1..]);
      RunAppend(b, EventsOf(d), EventsAll(ds[1..]));
      LogsJoin(b.log, told, Told(ds[1..]));
    }
  }

  lemma {:induction false} BuildsOneAtTop(b: Builder, d: Doc)
    requires Sound(b) && b.depth == 1 && HashableDoc(d)
    ensures Nested(1, EventsOf(d))
    ensures Run(b, EventsOf(d)) == b.(log := b.log + if d.Elem? then [Received(Built(d))] else [])
  {
    hide Run, Nested;
    if d.Elem? {
      var b1 := Step(b, StartTag(d.name, d.attrs));
      BuildsAllInside(b1, d.kids);
      RunsElement(b, d);
      assert b.open + [Built(d)] == [Built(d)];
    } else {
      RunOne(b, Chars(d.text));
      assert b.log + [] == b.log;
    }
  }

  /** A whole stream: the owner is told of its start, of every top-level tree in order,
      and of its end. */
  lemma {:induction false} BuildsStream(name: string, attrs: Attrs, ds: seq<Doc>)
    requires Hashable(attrs) && forall i :: 0 <= i < |ds| ==> HashableDoc(ds[i])
    ensures var events := EventsOf(Elem(name, attrs, ds));
      && Nested(0, events)
      && Run(Initial, events) == Builder(0, [], [Started(name, attrs)] + Told(ds) + [Ended(name)])
  {
    hide Run, Nested;
    var s, m, e := [StartTag(name, attrs)], EventsAll(ds), [EndTag(name)];
    var b1 := Step(Initial, s[0]);
    RunOne(Initial, s[0]);
    BuildsAtTop(b1, ds);
    RunAppend(Initial, s, m);
    RunOne(Run(b1, m), e[0]);
    RunAppend(Initial, s + m, e);
  }
}
