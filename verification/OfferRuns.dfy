/** Runs on which the server offers one mechanism: it is the one that the client asks for
    (src/auth.c:228-262, 562-620). */
module OfferRuns {
  import opened Common
  import opened Stanzas
  import opened Negotiation
  import opened Meanings
  import opened LostHandlers
  import BadHeaders
  import Building
  import Buckets

  /** `<mechanisms/>` with one mechanism, named by a text. */
  predicate ListOfOne(list: Stanza, text: string) {
    && IsTag(list, "mechanisms") && Bears(list, "xmlns", "urn:ietf:params:xml:ns:xmpp-sasl")
    && list.children == [Stanza(TagKind, Some("mechanism"), None, [Text(text)])]
  }

  function FeaturesWith(list: Stanza): Stanza {
    Stanza(TagKind, Some("stream:features"), None, [list])
  }

  function AskedFor(st: Stanza, m: Mechanism): seq<Obs> {
    [Queued(StreamHeader), Opened, Received(st), Handled(HandleFeatures, st),
     AuthCalled(Measure(true, false, 1, true)), Queued(Message.Auth(m))]
  }

  lemma {:induction false} OnlyListed(list: Stanza, text: string, m: Mechanism, n: Mechanism)
    requires ListOfOne(list, text) && Spells(text, NameOf(m))
    ensures Lists(FeaturesWith(list), n) <==> n == m
    ensures !Garbled(FeaturesWith(list))
  {
    var st := FeaturesWith(list);
    var c := list.children[0];
    TextOfOne(Text(text));
    assert FirstIs(st.children, "mechanisms", 0);
    OnlyFirst(st.children, "mechanisms", 0);
    hide FirstIs, Bears;
    assert TextOf(c.children) == text;
    assert Names(c, n) <==> n == m;
    assert !Unreadable(c);
  }

  lemma {:induction false} NoTlsOffered(list: Stanza, text: string)
    requires ListOfOne(list, text)
    ensures var st := FeaturesWith(list); !Offers(st, "starttls", "urn:ietf:params:xml:ns:xmpp-tls") && !Nameless(st, "starttls")
  {
    NoFirst(FeaturesWith(list).children, "starttls");
    hide FirstIs, Bears;
  }

  lemma {:induction false} Seen(s: State, list: Stanza, text: string, m: Mechanism)
    requires ListOfOne(list, text) && Spells(text, NameOf(m)) && Plainly(s)
    ensures TlsSeen(s, FeaturesWith(list)) == Some(false) && SaslSeen(s, FeaturesWith(list)) == Some({m})
  {
    var st := FeaturesWith(list);
    NoTlsOffered(list, text);
    TlsIsOffered(s, st);
    hide FeaturesWith, ListOfOne, Spells, NameOf, TlsSeen, SaslSeen, Lists, Garbled, BadHeaders.Complete, Offers, Nameless;
    OnlyListed(list, text, m, m);
    SaslIsListed(s, st, m);
    var seen := SaslSeen(s, st).value;
    forall n: Mechanism ensures n in seen <==> n in {m} {
      OnlyListed(list, text, m, n);
      SaslIsListed(s, st, n);
    }
    assert seen == {m};
  }

  /** The client has asked for the mechanism, and no timer is left. */
  predicate Asked(s: State, st: Stanza, m: Mechanism) {
    !s.stopped && s.link == Connected && s.timed == [] && s.history == AskedFor(st, m)
  }

  /** One mechanism is there to be tried: it is tried. */
  lemma {:induction false} Tried(s: State, st: Stanza, m: Mechanism)
    requires m != Anonymous && !s.stopped && s.link == Connected && BadHeaders.Complete(s.account) && !s.secured && !s.tlsSupport
    requires s.sasl == {m} && s.timed == [] && s.handlers == [ErrorEntry.(enabled := true), FeaturesEntry.(enabled := true)]
    requires s.history == [Queued(StreamHeader), Opened, Received(st), Handled(HandleFeatures, st)]
    ensures var r := TryAuth(s, Calm); Asked(r, st, m) && s.handlers <= r.handlers
  {
    assert Left(s) == Measure(true, false, 1, true);
    hide Left;
  }

  lemma {:induction false} Handles(s: State, list: Stanza, text: string, m: Mechanism)
    requires ListOfOne(list, text) && Spells(text, NameOf(m)) && m != Anonymous && Plainly(s)
    requires s.handlers == [ErrorEntry.(enabled := true), FeaturesEntry.(enabled := true)]
    requires s.timed == [Timer(MissingFeatures, FEATURES_TIMEOUT, 0, false)]
    requires s.history == [Queued(StreamHeader), Opened, Received(FeaturesWith(list))]
    ensures var r := OnStanza(s, Calm, HandleFeatures, FeaturesWith(list));
      Asked(r, FeaturesWith(list), m) && s.handlers <= r.handlers
  {
    var st := FeaturesWith(list);
    var s0 := Observe(s, Handled(HandleFeatures, st));
    Seen(s0, list, text, m);
    assert WithoutTimer(s.timed, MissingFeatures) == [];
    hide TlsSeen, SaslSeen, TryAuth, FeaturesWith, ListOfOne, Spells, NameOf, BadHeaders.Complete, WithoutTimer, Asked;
    Tried(DeleteTimed(s0, MissingFeatures).(tlsSupport := false, sasl := {m}), st, m);
  }

  lemma {:induction false} Reads(s: State, list: Stanza, text: string, m: Mechanism)
    requires HeaderSeen(s) && ListOfOne(list, text) && Spells(text, NameOf(m)) && m != Anonymous
    ensures Asked(OnSax(s, Calm, StanzaIn(FeaturesWith(list))), FeaturesWith(list), m)
  {
    var st := FeaturesWith(list);
    var s1 := Observe(s, Received(st)).(handlers := [ErrorEntry.(enabled := true), FeaturesEntry.(enabled := true)]);
    assert Enabled(s.handlers) == s1.handlers && Id(st) == None;
    Dispatched(s, st);
    Handles(s1, list, text, m);
    hide OnStanza, FireList, OnSax, BadHeaders.Complete, Enabled, ListOfOne, Spells, NameOf, AskedFor;
    OneOfTwo(s1, st);
  }

  lemma {:induction false} Connects(account: Account)
    requires BadHeaders.Complete(account)
    ensures AtStart(RunOnce(Init(account), Calm, false, ConnectDone))
  {
    hide BadHeaders.Complete;
    BadHeaders.NoTimers(OnIo(Init(account).(resetParser := false), Calm, ConnectDone), Calm);
  }

  lemma {:induction false} Asks(s: State, list: Stanza, text: string, m: Mechanism)
    requires AtStart(s) && ListOfOne(list, text) && Spells(text, NameOf(m)) && m != Anonymous
    ensures Asked(RunOnce(s, Calm, false, Chunk([StreamStart("stream:stream", true), StanzaIn(FeaturesWith(list))], true)),
                  FeaturesWith(list), m)
  {
    var a, b := StreamStart("stream:stream", true), StanzaIn(FeaturesWith(list));
    ReadsHeader(s);
    var s1 := OnSax(s, Calm, a);
    Reads(s1, list, text, m);
    var s2 := OnSax(s1, Calm, b);
    BadHeaders.NoTimers(s, Calm);
    BadHeaders.NoTimers(s2, Calm);
    ChunkOfTwo(s, a, b);
    hide OnSax, OnChunk, BadHeaders.Complete, FireTimed, FeaturesWith, ListOfOne, Spells, NameOf, AskedFor;
    assert OnIo(s, Calm, Chunk([a, b], true)) == s2;
    Passes(s, Chunk([a, b], true));
  }

  /** A server that lists DIGEST-MD5 alone is answered with DIGEST-MD5, and one that lists
      PLAIN alone with PLAIN, in whatever letters it writes the name. */
  lemma {:induction false} ListedIsAskedFor(account: Account, list: Stanza, text: string, m: Mechanism)
    requires BadHeaders.Complete(account) && ListOfOne(list, text) && Spells(text, NameOf(m)) && m != Anonymous
    ensures var st := FeaturesWith(list);
      var events := [Pass(false, ConnectDone), Pass(false, Chunk([StreamStart("stream:stream", true), StanzaIn(st)], true))];
      Run(Init(account), Calm, events).history == AskedFor(st, m)
  {
    var e0 := Pass(false, ConnectDone);
    var e1 := Pass(false, Chunk([StreamStart("stream:stream", true), StanzaIn(FeaturesWith(list))], true));
    var s0 := Init(account);
    Connects(account);
    var s1 := Step(s0, Calm, e0);
    hide BadHeaders.Complete, RunOnce, Init, FeaturesWith, ListOfOne, Spells, NameOf, AskedFor;
    Asks(s1, list, text, m);
    assert [e0, e1][1..] == [e1] && [e1][1..] == [];
    assert Run(s0, Calm, [e0, e1]) == Run(s1, Calm, [e1]);
    assert Run(s1, Calm, [e1]) == Run(Step(s1, Calm, e1), Calm, []);
  }

  const SASL_ATTRS: seq<(string, string)> := [("xmlns", "urn:ietf:params:xml:ns:xmpp-sasl")]

  /** The list as the parser makes it of its tags and its text. */
  function ParsedList(name: string): Stanza
    requires Building.Hashable(SASL_ATTRS)
  {
    Building.Element("mechanisms", SASL_ATTRS).(children := [Stanza(TagKind, Some("mechanism"), None, [Text(name)])])
  }

  lemma {:induction false} ParsedIsListOfOne(name: string)
    ensures Building.Hashable(SASL_ATTRS) && ListOfOne(ParsedList(name), name)
  {
    hide Building.Element, Building.Hashable, Bears, IsTag, Buckets.SevenBit;
    Buckets.XmlnsIsSevenBit();
    ElementBears("mechanisms", "xmlns", "urn:ietf:params:xml:ns:xmpp-sasl");
    SameBears(Building.Element("mechanisms", SASL_ATTRS), [Stanza(TagKind, Some("mechanism"), None, [Text(name)])]);
  }

  lemma {:induction false} OwnName(m: Mechanism)
    ensures Spells(NameOf(m), NameOf(m))
    ensures m != Anonymous ==> NameOf(m) == if m == Plain then "PLAIN" else "DIGEST-MD5"
  {
  }

  /** The two cases in full. */
  lemma {:induction false} ParsedListIsAskedFor(account: Account, m: Mechanism)
    requires BadHeaders.Complete(account) && m != Anonymous
    ensures Building.Hashable(SASL_ATTRS)
    ensures var st := FeaturesWith(ParsedList(if m == Plain then "PLAIN" else "DIGEST-MD5"));
      var events := [Pass(false, ConnectDone), Pass(false, Chunk([StreamStart("stream:stream", true), StanzaIn(st)], true))];
      Run(Init(account), Calm, events).history == AskedFor(st, m)
  {
    hide *;
    ParsedIsListOfOne(NameOf(m));
    OwnName(m);
    ListedIsAskedFor(account, ParsedList(NameOf(m)), NameOf(m), m);
  }

  lemma {:induction false} SameBears(st: Stanza, children: seq<Stanza>)
    ensures forall key, value :: Bears(st.(children := children), key, value) <==> Bears(st, key, value)
    ensures forall name :: IsTag(st.(children := children), name) <==> IsTag(st, name)
  {
    hide Buckets.Contents;
  }
}
