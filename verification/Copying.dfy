/** Copying a stanza (src/stanza.c): what the copy is, and what of the original it lacks. */
module Copying {
  import opened Common
  import opened Buckets
  import opened Stanzas
  import opened Building
  import opened RoundTrip
  import opened Parsers

  /** The attribute tables have the size and the order `hash_add` gives them. */
  ghost predicate Tables(st: Stanza) {
    && (st.attributes.Some? ==> WellFormed(st.attributes.value) && |st.attributes.value| == AttributeBuckets)
    && forall i :: 0 <= i < |st.children| ==> Tables(st.children[i])
  }

  /** The entries a walk with the iterator finds. */
  function Found(t: Table<string>): seq<(string, string)>
    requires |t| > 0
  {
    Pairs(Enumerated(t), Contents(t))
  }

  lemma {:induction false} FoundIsHashable(t: Table<string>)
    requires WellFormed(t) && |t| == AttributeBuckets
    ensures Hashable(Found(t))
  {
    EnumeratedKeys(t);
    AllKeysAreTheKeys(t, |t|, 0);
    forall i | 0 <= i < |Found(t)| ensures Index(Found(t)[i].0, AttributeBuckets) >= 0 {
      assert Enumerated(t)[i] in Enumerated(t);
    }
  }

  ghost function CopyOf(st: Stanza): Stanza
    requires Tables(st)
    decreases st, 0
  {
    Stanza(st.kind, st.data, CopiedTable(st.attributes), CopyAll(st.children))
  }

  ghost function CopiedTable(attributes: Option<Table<string>>): Option<Table<string>>
    requires attributes.Some? ==> WellFormed(attributes.value) && |attributes.value| == AttributeBuckets
  {
    if attributes.None? then None
    else
      FoundIsHashable(attributes.value);
      Some(AddAll(Empty(AttributeBuckets), Found(attributes.value)))
  }

  ghost function CopyAll(children: seq<Stanza>): (r: seq<Stanza>)
    requires forall i :: 0 <= i < |children| ==> Tables(children[i])
    ensures |r| == |children| && forall i :: 0 <= i < |r| ==> r[i] == CopyOf(children[i])
    decreases children, 1
  {
    if children == [] then [] else [CopyOf(children[0])] + CopyAll(children[1..])
  }

  lemma {:induction false} CopiedContents(t: Table<string>)
    requires WellFormed(t) && |t| == AttributeBuckets
    ensures Hashable(Found(t)) && var c := AddAll(Empty(AttributeBuckets), Found(t));
      WellFormed(c) && |c| == AttributeBuckets && Contents(c) == MapOf(map[], Found(t))
  {
    hide WellFormed, Contents, MapOf, Found, Hashable, AddAll;
    FoundIsHashable(t);
    NothingInEmpty(AttributeBuckets);
    AddAllIsMapOf(Empty(AttributeBuckets), Found(t));
  }

  lemma {:induction false} CopyHasTables(st: Stanza)
    requires Tables(st)
    ensures Tables(CopyOf(st))
    decreases st
  {
    hide WellFormed, AddAll, Found;
    if st.attributes.Some? {
      CopiedContents(st.attributes.value);
    }
    forall i | 0 <= i < |st.children| ensures Tables(CopyOf(st).children[i]) {
      CopyHasTables(st.children[i]);
    }
  }

  /** A copy has everything that printing shows of the original, and no more. */
  lemma {:induction false} CopyIsWhatIsShown(st: Stanza)
    requires Tables(st)
    ensures OfStanza(CopyOf(st), true) == OfStanza(st, false)
    decreases st, 1
  {
    hide WellFormed, AddAll, Found, Contents, Enumerated, MapOf, Hashable;
    CopiesAreWhatIsShown(st.children);
    if st.attributes.Some? {
      CopiedContents(st.attributes.value);
      ShownIsFound(st);
    } else {
      ShownNothing(st);
    }
  }

  lemma {:induction false} ShownIsFound(st: Stanza)
    requires st.attributes.Some? && |st.attributes.value| > 0
    ensures Shown(st) == Found(st.attributes.value)
  {
  }

  lemma {:induction false} ShownNothing(st: Stanza)
    requires st.attributes.None?
    ensures MapOf(map[], Shown(st)) == map[]
  {
  }

  lemma {:induction false} CopiesAreWhatIsShown(children: seq<Stanza>)
    requires forall i :: 0 <= i < |children| ==> Tables(children[i])
    ensures OfStanzas(CopyAll(children), true) == OfStanzas(children, false)
    decreases children, 0
  {
    hide Tables, CopyOf, OfStanza;
    if children != [] {
      CopyIsWhatIsShown(children[0]);
      CopiesAreWhatIsShown(children[1..]);
      assert CopyAll(children)[1..] == CopyAll(children[1..]);
    }
  }

  lemma {:induction false} TablesAreWellFormed(st: Stanza)
    requires Tables(st)
    ensures WellFormedTables(st)
    decreases st
  {
    hide WellFormed;
    forall i | 0 <= i < |st.children| ensures WellFormedTables(st.children[i]) {
      TablesAreWellFormed(st.children[i]);
    }
  }

  /** The copy is the original, as a tree with all its attributes, exactly when no table
      of the original has two entries in its last bucket. */
  lemma {:induction false} CopyIsSameIff(st: Stanza)
    requires Tables(st)
    ensures OfStanza(CopyOf(st), true) == OfStanza(st, true) <==> Complete(st)
  {
    hide OfStanza, CopyOf, Complete, Tables;
    CopyIsWhatIsShown(st);
    TablesAreWellFormed(st);
    ShownIffComplete(st);
  }

  // -------------------------------------------------------------- copies of copies

  lemma {:induction false} KeysOfBuckets(t: Table<string>, n: int, from: nat, key: string)
    requires n > 0 && KeysIn(t, n, from) && key in AllKeys(t)
    ensures from <= Index(key, n) < from + |t|
    decreases |t|
  {
    hide Index;
    assert forall i :: 0 <= i < |t| - 1 ==> t[1..][i] == t[i + 1];
    if key in Keys(t[0]) {
      var j :| 0 <= j < |t[0]| && t[0][j].key == key;
      assert Index(t[0][j].key, n) == from;
    } else {
      KeysOfBuckets(t[1..], n, from + 1, key);
    }
  }

  /** Of the keys that belong in the last bucket, the iterator finds one. */
  lemma {:induction false} OneLastKey(t: Table<string>, k: string, k': string)
    requires WellFormed(t) && k in Enumerated(t) && k' in Enumerated(t)
    requires Index(k, |t|) == |t| - 1 == Index(k', |t|)
    ensures k == k'
  {
    hide Index, AllKeys;
    var n := |t|;
    assert KeysIn(t[..n - 1], n, 0);
    if k in AllKeys(t[..n - 1]) {
      KeysOfBuckets(t[..n - 1], n, 0, k);
    }
    if k' in AllKeys(t[..n - 1]) {
      KeysOfBuckets(t[..n - 1], n, 0, k');
    }
  }

  lemma {:induction false} LastKeyIsFound(t: Table<string>, c: Table<string>, j: nat)
    requires WellFormed(t) && WellFormed(c) && |c| == |t| && Contents(c) == MapOf(map[], Found(t))
    requires j < |c[|c| - 1]|
    ensures var k := c[|c| - 1][j].key; k in Enumerated(t) && Index(k, |t|) == |t| - 1
  {
    hide Index, Find, Enumerated, AllKeys;
    var last := |c| - 1;
    var k := c[last][j].key;
    assert Index(k, |c|) == last;
    LookupInBucket(c, k);
    KeysOfChain(c[last], k);
    EnumeratedKeys(t);
    MapOfHasAll(map[], Found(t));
    var i :| 0 <= i < |Found(t)| && Found(t)[i].0 == k;
    assert Enumerated(t)[i] == k;
  }

  /** In the table of a copy the last bucket has no second entry. */
  lemma {:induction false} LastBucketOfCopy(t: Table<string>)
    requires WellFormed(t) && |t| == AttributeBuckets
    ensures Hashable(Found(t)) && |AddAll(Empty(AttributeBuckets), Found(t))[AttributeBuckets - 1]| <= 1
  {
    CopiedContents(t);
    hide AddAll, Contents, MapOf, Found, Hashable, Enumerated, KeysIn, Index;
    var c := AddAll(Empty(AttributeBuckets), Found(t));
    var last := c[AttributeBuckets - 1];
    if |last| > 1 {
      LastKeyIsFound(t, c, 0);
      LastKeyIsFound(t, c, 1);
      OneLastKey(t, last[0].key, last[1].key);
    }
  }

  lemma {:induction false} CopyIsComplete(st: Stanza)
    requires Tables(st)
    ensures Complete(CopyOf(st))
    decreases st
  {
    hide WellFormed, AddAll, Found, Hashable;
    if st.attributes.Some? {
      LastBucketOfCopy(st.attributes.value);
    }
    forall i | 0 <= i < |st.children| ensures Complete(CopyOf(st).children[i]) {
      CopyIsComplete(st.children[i]);
    }
  }

  /** So copying a copy, or printing it, loses nothing more. */
  lemma {:induction false} CopyOfCopy(st: Stanza)
    requires Tables(st)
    ensures Tables(CopyOf(st)) && OfStanza(CopyOf(CopyOf(st)), true) == OfStanza(CopyOf(st), true)
    ensures OfStanza(CopyOf(st), false) == OfStanza(st, false)
  {
    hide *;
    CopyHasTables(st);
    CopyIsComplete(st);
    CopyIsSameIff(CopyOf(st));
    CopyIsWhatIsShown(CopyOf(st));
    CopyIsWhatIsShown(st);
  }

  // ----------------------------------------------------------------- making a copy

  /** New objects that make up a tree: each has one reference and knows its parent. */
  ghost predicate Made(e: Node, st: Stanza, nodes: set<Node>, parent: Node?)
    reads nodes
    decreases st
  {
    && e in nodes
    && SameNode(e, st) && e.ref == 1 && e.parent == parent
    && |e.children| == |st.children|
    && forall i :: 0 <= i < |st.children| ==> Made(e.children[i], st.children[i], nodes - {e}, e)
  }

  lemma {:induction false} MadeMore(e: Node, st: Stanza, nodes: set<Node>, parent: Node?, more: set<Node>)
    requires Made(e, st, nodes, parent) && nodes <= more
    ensures Made(e, st, more, parent)
    decreases st
  {
    forall i | 0 <= i < |st.children| ensures Made(e.children[i], st.children[i], more - {e}, e) {
      MadeMore(e.children[i], st.children[i], nodes - {e}, e, more - {e});
    }
  }

  ghost predicate AllMade(kids: seq<Node>, children: seq<Stanza>, nodes: set<Node>, parent: Node)
    reads nodes
  {
    |kids| == |children| && forall i :: 0 <= i < |kids| ==> Made(kids[i], children[i], nodes, parent)
  }

  lemma {:induction false} OneMoreMade(kids: seq<Node>, children: seq<Stanza>, nodes: set<Node>, parent: Node,
                                       kid: Node, child: Stanza, made: set<Node>)
    requires AllMade(kids, children, nodes, parent) && Made(kid, child, made, parent)
    ensures AllMade(kids + [kid], children + [child], nodes + made, parent)
  {
    hide Made;
    forall i | 0 <= i < |kids| ensures Made(kids[i], children[i], nodes + made, parent) {
      MadeMore(kids[i], children[i], nodes, parent, nodes + made);
    }
    MadeMore(kid, child, made, parent, nodes + made);
  }

  lemma {:induction false} MadeWhole(e: Node, st: Stanza, nodes: set<Node>)
    requires SameNode(e, st) && e.ref == 1 && e.parent == null && e !in nodes
    requires AllMade(e.children, st.children, nodes, e)
    ensures Made(e, st, nodes + {e}, null)
  {
    assert nodes + {e} - {e} == nodes;
  }

  /** A made tree, but for the parent of its top. */
  ghost predicate Loose(e: Node, st: Stanza, nodes: set<Node>)
    reads nodes
  {
    && e in nodes && SameNode(e, st) && e.ref == 1
    && AllMade(e.children, st.children, nodes - {e}, e)
  }

  lemma {:induction false} MadeIsLoose(e: Node, st: Stanza, nodes: set<Node>, parent: Node?)
    ensures Made(e, st, nodes, parent) <==> Loose(e, st, nodes) && e.parent == parent
  {
  }

  /** The attributes the iterator finds are added to a new table. */
  method CopyAttributes(copy: Node, e: Node)
    requires e.attributes.Some? ==> WellFormed(e.attributes.value) && |e.attributes.value| == AttributeBuckets
    requires copy != e && copy.attributes == None
    modifies copy`attributes
    ensures copy.attributes == CopiedTable(e.attributes)
  {
    hide WellFormed, AddAll, Add, Found, Contents, Enumerated;
    if e.attributes.Some? {
      var found := Found(e.attributes.value);
      FoundIsHashable(e.attributes.value);
      var table := Empty<string>(AttributeBuckets);
      var i := 0;
      assert found[0..] == found;
      while i < |found|
        invariant i <= |found| && |table| == AttributeBuckets
        invariant AddAll(table, found[i..]) == AddAll(Empty(AttributeBuckets), found)
      {
        AddNext(table, found, i);
        table := Add(table, found[i].0, found[i].1);
        i := i + 1;
      }
      NothingToAdd(table, found);
      copy.attributes := Some(table);
    }
  }

  lemma {:induction false} AddNext(t: Table<string>, found: seq<(string, string)>, i: nat)
    requires |t| == AttributeBuckets && Hashable(found) && i < |found|
    ensures Index(found[i].0, |t|) >= 0 && |Add(t, found[i].0, found[i].1)| == AttributeBuckets
    ensures AddAll(t, found[i..]) == AddAll(Add(t, found[i].0, found[i].1), found[i + 1..])
  {
    hide Add, Index;
    assert found[i..][1..] == found[i + 1..] && found[i..][0] == found[i];
  }

  lemma {:induction false} NothingToAdd(t: Table<string>, found: seq<(string, string)>)
    requires |t| == AttributeBuckets
    ensures AddAll(t, found[|found|..]) == t
  {
  }

  lemma {:induction false} CopyParts(st: Stanza, copy: Stanza)
    requires Tables(st) && copy == CopyOf(st)
    ensures copy.kind == st.kind && copy.data == st.data && copy.attributes == CopiedTable(st.attributes)
    ensures copy.children == CopyAll(st.children)
  {
  }

  lemma {:induction false} NextCopied(st: Stanza, i: nat)
    requires Tables(st) && i < |st.children|
    ensures CopyAll(st.children)[..i + 1] == CopyAll(st.children)[..i] + [CopyOf(st.children[i])]
  {
    hide CopyOf, Tables;
    TablesOfAll(st);
    var all := CopyAll(st.children);
    assert all[..i + 1] == all[..i] + [all[i]];
  }

  lemma {:induction false} ChildTables(st: Stanza, i: nat)
    requires Tables(st) && i < |st.children|
    ensures Tables(st.children[i])
  {
  }

  lemma {:induction false} NothingMade(copy: Node, children: seq<Stanza>)
    ensures AllMade([], children[..0], {}, copy)
  {
  }

  lemma {:induction false} RepresentedParts(e: Node, st: Stanza, nodes: set<Node>)
    requires Represents(e, st, nodes)
    ensures e in nodes && SameNode(e, st) && |e.children| == |st.children|
    ensures forall i :: 0 <= i < |st.children| ==> Represents(e.children[i], st.children[i], nodes)
  {
  }

  lemma {:induction false} MadeTop(e: Node, st: Stanza, nodes: set<Node>, parent: Node?)
    requires Made(e, st, nodes, parent)
    ensures e in nodes
  {
  }

  /** A copied child is linked to the copy, after the ones before it. */
  method Append(copy: Node, copychild: Node, ghost children: seq<Stanza>, ghost made: set<Node>, ghost child: Stanza,
                ghost m: set<Node>)
    requires AllMade(copy.children, children, made, copy) && Made(copychild, child, m, null)
    requires copy !in made && copy !in m && made !! m
    modifies copy`children, copychild`parent
    ensures AllMade(copy.children, children + [child], made + m, copy)
  {
    hide Made, AllMade;
    MadeTop(copychild, child, m, null);
    MadeIsLoose(copychild, child, m, null);
    ghost var kids := copy.children;
    copychild.parent := copy;
    copy.children := copy.children + [copychild];
    MadeIsLoose(copychild, child, m, copy);
    OneMoreMade(kids, children, made, copy, copychild, child, m);
  }

  lemma {:induction false} SameNodeIs(e: Node, st: Stanza)
    ensures SameNode(e, st) <==> e.kind == st.kind && e.data == st.data && e.attributes == st.attributes
  {
  }

  lemma {:induction false} TablesOfAll(st: Stanza)
    requires Tables(st)
    ensures forall i :: 0 <= i < |st.children| ==> Tables(st.children[i])
  {
  }

  /** `xmpp_stanza_copy`. */
  method Copy(e: Node, ghost st: Stanza, ghost nodes: set<Node>) returns (copy: Node, ghost made: set<Node>)
    requires Represents(e, st, nodes) && Tables(st)
    ensures fresh(made) && Made(copy, CopyOf(st), made, null)
    decreases st
  {
    hide Made, AllMade, Loose, CopyOf, CopyAll, Tables, WellFormed, Represents, CopiedTable, SameNode;
    RepresentedParts(e, st, nodes);
    SameNodeIs(e, st);
    TopTable(st);
    TablesOfAll(st);
    copy := new Node();
    copy.kind, copy.data := e.kind, e.data;
    CopyAttributes(copy, e);
    ghost var copies := CopyAll(st.children);
    made := {};
    NothingMade(copy, copies);
    assert copies[..0] == [];
    var i := 0;
    while i < |e.children|
      invariant i <= |e.children| && fresh(made) && copy !in made && |copies| == |st.children|
      invariant AllMade(copy.children, copies[..i], made, copy)
      invariant copy.kind == e.kind && copy.data == e.data && copy.attributes == CopiedTable(e.attributes)
      invariant copy.ref == 1 && copy.parent == null
      modifies copy
    {
      ChildTables(st, i);
      RepresentedParts(e, st, nodes);
      var copychild, m := Copy(e.children[i], st.children[i], nodes);
      MadeTop(copychild, CopyOf(st.children[i]), m, null);
      Append(copy, copychild, copies[..i], made, CopyOf(st.children[i]), m);
      NextCopied(st, i);
      made := made + m;
      i := i + 1;
    }
    CopyParts(st, CopyOf(st));
    SameNodeIs(copy, CopyOf(st));
    assert copies[..i] == copies;
    MadeWhole(copy, CopyOf(st), made);
    made := made + {copy};
  }

  lemma {:induction false} TopTable(st: Stanza)
    requires Tables(st)
    ensures st.attributes.Some? ==> WellFormed(st.attributes.value) && |st.attributes.value| == AttributeBuckets
  {
  }
}
