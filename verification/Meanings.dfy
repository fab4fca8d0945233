/** What a stanza says, by its own attributes, children and texts: the meaning of the queries
    that src/auth.c and src/handler.c make, and of what stream features offer. */
module Meanings {
  import opened Common
  import opened Buckets
  import opened Stanzas
  import opened Negotiation
  import Building

  // ------------------------------------------------------------------ one stanza

  /** A tag has an attribute with a value. */
  predicate Bears(st: Stanza, key: string, value: string) {
    && st.kind == TagKind && st.attributes.Some?
    && key in Contents(st.attributes.value) && Contents(st.attributes.value)[key] == value
  }

  predicate IsTag(st: Stanza, name: string) {
    st.kind == TagKind && st.data == Some(name)
  }

  /** The four queries, for every value they may have. */
  lemma {:induction false} QueriesAre(st: Stanza, v: string)
    ensures Name(st) == Some(v) <==> st.kind != TextKind && st.data == Some(v)
    ensures Ns(st) == Some(v) <==> Bears(st, "xmlns", v)
    ensures Type(st) == Some(v) <==> Bears(st, "type", v)
    ensures Id(st) == Some(v) <==> Bears(st, "id", v)
  {
    hide Contents;
  }

  /** An element that the parser made bears its attribute. */
  lemma {:induction false} ElementBears(name: string, key: string, value: string)
    requires SevenBit(key)
    ensures Building.Hashable([(key, value)])
    ensures var e := Building.Element(name, [(key, value)]);
      IsTag(e, name) && Bears(e, key, value) && e.children == [] && |e.attributes.value| == 8
  {
    IndexInRange(key, AttributeBuckets);
    hide Index, SevenBit, Contents, Add, Mixed, HighBytes;
    var t := Empty<string>(AttributeBuckets);
    AddIsUpdate(t, key, value);
    assert [(key, value)][1..] == [];
    assert Building.AddAll(t, [(key, value)]) == Add(t, key, value);
  }

  /** The text of a stanza is the texts among its children, one after the other. */
  lemma {:induction false} TextOfOne(c: Stanza)
    ensures c.kind == TextKind && c.data.Some? ==> TextOf([c]) == c.data.value
    ensures c.kind != TextKind || c.data.None? ==> TextOf([c]) == ""
    ensures TextOf([]) == ""
  {
    assert [c][1..] == [];
  }

  lemma {:induction false} TextsJoin(a: seq<Stanza>, b: seq<Stanza>)
    ensures TextOf(a + b) == TextOf(a) + TextOf(b)
  {
    if a == [] {
      assert a + b == b;
    } else {
      assert (a + b)[1..] == a[1..] + b;
      TextsJoin(a[1..], b);
    }
  }

  // ------------------------------------------------------------ children by name

  /** The first child of a name is the i-th. */
  predicate FirstIs(children: seq<Stanza>, name: string, i: int) {
    0 <= i < |children| && IsTag(children[i], name) && forall j :: 0 <= j < i ==> !IsTag(children[j], name)
  }

  lemma {:induction false} FirstTail(children: seq<Stanza>, name: string, i: int)
    requires children != [] && !IsTag(children[0], name)
    ensures FirstIs(children, name, i) <==> FirstIs(children[1..], name, i - 1)
  {
    hide IsTag;
    var rest := children[1..];
    assert forall k :: 0 <= k < |rest| ==> rest[k] == children[k + 1];
    if FirstIs(rest, name, i - 1) {
      forall j | 0 <= j < i ensures !IsTag(children[j], name) {
        assert j > 0 ==> rest[j - 1] == children[j];
      }
    }
  }

  lemma {:induction false} FirstAt(children: seq<Stanza>, name: string, i: int)
    requires FirstIs(children, name, i)
    ensures FirstNamed(children, name) == Some(children[i])
  {
    if i > 0 {
      FirstTail(children, name, i);
      FirstAt(children[1..], name, i - 1);
    }
  }

  lemma {:induction false} FirstFound(children: seq<Stanza>, name: string) returns (i: int)
    ensures FirstNamed(children, name).None? ==> forall j :: 0 <= j < |children| ==> !IsTag(children[j], name)
    ensures FirstNamed(children, name).Some? ==> FirstIs(children, name, i) && FirstNamed(children, name) == Some(children[i])
  {
    i := 0;
    if children != [] && !IsTag(children[0], name) {
      i := FirstFound(children[1..], name);
      i := i + 1;
      FirstTail(children, name, i);
    }
  }

  /** A feature is offered: the first child of its name is in its namespace. */
  ghost predicate Offers(st: Stanza, name: string, ns: string) {
    exists i :: FirstIs(st.children, name, i) && Bears(st.children[i], "xmlns", ns)
  }

  /** The run ends at a feature whose namespace is missing. */
  ghost predicate Nameless(st: Stanza, name: string) {
    exists i :: FirstIs(st.children, name, i) && forall v :: !Bears(st.children[i], "xmlns", v)
  }

  lemma {:induction false} OfferRead(st: Stanza, name: string, ns: string)
    ensures InNs(ChildByName(st, name), ns) == if Nameless(st, name) then None else Some(Offers(st, name, ns))
  {
    hide Bears, IsTag, Ns, FirstNamed, FirstIs;
    var child := ChildByName(st, name);
    var i := FirstFound(st.children, name);
    if child.None? {
      NoFirst(st.children, name);
    } else {
      FirstBounds(st.children, name, i);
      OnlyFirst(st.children, name, i);
      NamespaceRead(child.value, ns);
    }
  }

  lemma {:induction false} NamespaceRead(c: Stanza, ns: string)
    ensures Ns(c).None? <==> forall v :: !Bears(c, "xmlns", v)
    ensures Ns(c) == Some(ns) <==> Bears(c, "xmlns", ns)
  {
    if Ns(c).Some? {
      QueriesAre(c, Ns(c).value);
    }
    hide *;
    forall v ensures Ns(c) == Some(v) <==> Bears(c, "xmlns", v) {
      QueriesAre(c, v);
    }
  }

  lemma {:induction false} FirstBounds(children: seq<Stanza>, name: string, i: int)
    requires FirstIs(children, name, i)
    ensures 0 <= i < |children|
  {
  }

  lemma {:induction false} NoFirst(children: seq<Stanza>, name: string)
    requires forall j :: 0 <= j < |children| ==> !IsTag(children[j], name)
    ensures forall i :: !FirstIs(children, name, i)
  {
    hide IsTag;
  }

  lemma {:induction false} OnlyFirst(children: seq<Stanza>, name: string, i: int)
    requires FirstIs(children, name, i)
    ensures forall j :: FirstIs(children, name, j) ==> j == i
  {
    hide IsTag;
  }

  // ------------------------------------------------------------------ mechanisms

  /** The names of section 2 of RFC 4616, section 2 of RFC 2831 and section 1 of RFC 4505. */
  function NameOf(m: Mechanism): string {
    match m
    case Plain => "PLAIN"
    case DigestMd5 => "DIGEST-MD5"
    case Anonymous => "ANONYMOUS"
  }

  /** The same characters, but for letters that may be the small ones of the capital
      letters of the name: those are 32 above them. */
  predicate Spells(text: string, name: string) {
    && |text| == |name|
    && forall i :: 0 <= i < |text| ==>
         text[i] == name[i] || ('A' <= name[i] <= 'Z' && text[i] as int == name[i] as int + 32)
  }

  /** A `<mechanism/>` whose text is the name of the mechanism. */
  predicate Names(c: Stanza, m: Mechanism) {
    c.kind != TextKind && c.data == Some("mechanism") && Spells(TextOf(c.children), NameOf(m))
  }

  /** The mechanism is in the list of `<mechanisms/>`, in the namespace of SASL. */
  ghost predicate Lists(st: Stanza, m: Mechanism) {
    exists i :: FirstIs(st.children, "mechanisms", i)
      && Bears(st.children[i], "xmlns", "urn:ietf:params:xml:ns:xmpp-sasl") && NamedAmong(st.children[i].children, m)
  }

  predicate NamedAmong(children: seq<Stanza>, m: Mechanism) {
    exists k :: 0 <= k < |children| && Names(children[k], m)
  }

  /** A child that ends the run: it has no name, or is a `<mechanism/>` without text. */
  predicate Unreadable(c: Stanza) {
    c.kind == TextKind || c.data.None? || (c.data == Some("mechanism") && TextOf(c.children) == "")
  }

  predicate UnreadableAmong(children: seq<Stanza>) {
    exists k :: 0 <= k < |children| && Unreadable(children[k])
  }

  lemma {:induction false} LowerIs(c: char, d: char)
    requires 'A' <= d <= 'Z' || '0' <= d <= '9' || d == '-'
    ensures Lower(c) == Lower(d) <==> c == d || ('A' <= d <= 'Z' && c as int == d as int + 32)
  {
  }

  lemma {:induction false} SameIsSpelled(text: string, name: string)
    requires forall i :: 0 <= i < |name| ==> 'A' <= name[i] <= 'Z' || '0' <= name[i] <= '9' || name[i] == '-'
    ensures SameIgnoringCase(text, name) <==> Spells(text, name)
  {
    hide Lower;
    if |text| == |name| {
      forall i | 0 <= i < |name|
        ensures Lower(text[i]) == Lower(name[i])
          <==> text[i] == name[i] || ('A' <= name[i] <= 'Z' && text[i] as int == name[i] as int + 32)
      {
        LowerIs(text[i], name[i]);
      }
    }
  }

  /** The text of a mechanism is its name and no other's. */
  lemma {:induction false} TextNames(text: string, m: Mechanism)
    ensures m in MechanismsOf(text) <==> Spells(text, NameOf(m))
  {
    hide SameIgnoringCase, Spells;
    SameIsSpelled(text, "PLAIN");
    SameIsSpelled(text, "DIGEST-MD5");
    SameIsSpelled(text, "ANONYMOUS");
    SameLength(text, "PLAIN");
    SameLength(text, "DIGEST-MD5");
    SameLength(text, "ANONYMOUS");
  }

  lemma {:induction false} SameLength(text: string, name: string)
    ensures Spells(text, name) ==> |text| == |name|
  {
  }

  lemma {:induction false} AmongTail(children: seq<Stanza>, m: Mechanism)
    requires children != []
    ensures NamedAmong(children, m) <==> Names(children[0], m) || NamedAmong(children[1..], m)
    ensures UnreadableAmong(children) <==> Unreadable(children[0]) || UnreadableAmong(children[1..])
  {
    hide Names, Unreadable;
    var rest := children[1..];
    assert forall k :: 0 <= k < |rest| ==> rest[k] == children[k + 1];
    if NamedAmong(children, m) && !Names(children[0], m) {
      var k :| 0 <= k < |children| && Names(children[k], m);
      assert Names(rest[k - 1], m);
    }
    if UnreadableAmong(children) && !Unreadable(children[0]) {
      var k :| 0 <= k < |children| && Unreadable(children[k]);
      assert Unreadable(rest[k - 1]);
    }
  }

  /** The loop over the children finds exactly the mechanisms that are named. */
  lemma {:induction false} FoundAreNamed(children: seq<Stanza>, m: Mechanism)
    ensures Offered(children).None? <==> UnreadableAmong(children)
    ensures Offered(children).Some? ==> (m in Offered(children).value <==> NamedAmong(children, m))
  {
    if children != [] {
      hide TextOf, MechanismsOf, NamedAmong, UnreadableAmong, Spells, NameOf;
      AmongTail(children, m);
      FoundAreNamed(children[1..], m);
      TextNames(TextOf(children[0].children), m);
    }
  }

  /** The features end the run: the list has no namespace, or one of its children cannot be
      read. */
  ghost predicate Garbled(st: Stanza) {
    || Nameless(st, "mechanisms")
    || (exists i :: FirstIs(st.children, "mechanisms", i)
          && Bears(st.children[i], "xmlns", "urn:ietf:params:xml:ns:xmpp-sasl") && UnreadableAmong(st.children[i].children))
  }

  /** `sasl_support` grows by the mechanisms that are listed by their names, and by no other. */
  lemma {:induction false} SaslIsListed(s: State, st: Stanza, m: Mechanism)
    ensures SaslSeen(s, st).None? <==> Garbled(st)
    ensures SaslSeen(s, st).Some? ==> (m in SaslSeen(s, st).value <==> m in s.sasl || Lists(st, m))
  {
    hide Bears, IsTag, Ns, FirstNamed, FirstIs, NamedAmong, UnreadableAmong, Offered, Nameless, Offers, InNs;
    OfferRead(st, "mechanisms", "urn:ietf:params:xml:ns:xmpp-sasl");
    var child := ChildByName(st, "mechanisms");
    var i := FirstFound(st.children, "mechanisms");
    if child.None? {
      NoFirst(st.children, "mechanisms");
      NothingOffered(st, "mechanisms", "urn:ietf:params:xml:ns:xmpp-sasl");
    } else {
      FirstBounds(st.children, "mechanisms", i);
      OnlyFirst(st.children, "mechanisms", i);
      OfferedAt(st, "mechanisms", "urn:ietf:params:xml:ns:xmpp-sasl", i);
      FoundAreNamed(child.value.children, m);
    }
  }

  lemma {:induction false} NothingOffered(st: Stanza, name: string, ns: string)
    requires forall i :: !FirstIs(st.children, name, i)
    ensures !Offers(st, name, ns) && !Nameless(st, name)
  {
    hide FirstIs;
  }

  lemma {:induction false} OfferedAt(st: Stanza, name: string, ns: string, i: int)
    requires FirstIs(st.children, name, i)
    ensures 0 <= i < |st.children| && (Offers(st, name, ns) <==> Bears(st.children[i], "xmlns", ns))
  {
    FirstBounds(st.children, name, i);
    OnlyFirst(st.children, name, i);
    hide FirstIs, Bears;
  }

  /** `tls_support`: what it was, or that TLS is offered; never when TLS is up or barred. */
  lemma {:induction false} TlsIsOffered(s: State, st: Stanza)
    ensures TlsSeen(s, st)
      == if s.secured then Some(s.tlsSupport) else if s.tlsDisabled then Some(false)
         else if Nameless(st, "starttls") then None
         else Some(s.tlsSupport || Offers(st, "starttls", "urn:ietf:params:xml:ns:xmpp-tls"))
  {
    OfferRead(st, "starttls", "urn:ietf:params:xml:ns:xmpp-tls");
    hide Nameless, Offers, InNs, ChildByName;
  }
}
