/** A run on which a handler of the user is lost: it waits for the reply to the legacy
    request before the library does (src/handler.c:54-77). */
module LostHandlers {
  import opened Common
  import opened Stanzas
  import opened Negotiation
  import BadHeaders
  import Dispatch
  import IdDispatch

  const ID := "_xmpp_auth1"

  /** The user answers nothing and does nothing, and no time passes. */
  const Calm: Env := n => Reply(true, true, NoResponse, 0, [], true)

  const ErrorEntry := Entry(HandleError, None, Some("stream:error"), None, false)
  const FeaturesEntry := Entry(HandleFeatures, None, Some("stream:features"), None, false)

  const Blank := Measure(true, false, 0, true)

  /** The connection is up and has nothing to try but the legacy request. */
  predicate Plainly(s: State) {
    && BadHeaders.Complete(s.account) && !s.stopped && !s.tlsSupport && s.sasl == {} && !s.secured && !s.tlsDisabled
    && !s.authenticated && s.link == Connected && !s.resetParser && s.busyId == None
  }

  predicate AtStart(s: State) {
    && Plainly(s) && s.openHandler == AuthOpen && !s.inStream && !s.streamDone && s.handlers == [] && s.timed == []
    && s.history == [Queued(StreamHeader)]
  }

  lemma {:induction false} Starts(account: Account)
    requires BadHeaders.Complete(account)
    ensures var r := RunOnce(Act(Init(account), Calm, AddById(0, ID)), Calm, false, ConnectDone);
      AtStart(r) && r.ids == map[ID := [User(0)]]
  {
    hide BadHeaders.Complete;
    var s0 := Act(Init(account), Calm, AddById(0, ID));
    assert s0.ids == map[ID := [User(0)]] by {
      assert Chain(map[], ID) == [] && [] + [User(0)] == [User(0)];
    }
    var s1 := OnIo(s0.(resetParser := false), Calm, ConnectDone);
    BadHeaders.NoTimers(s1, Calm);
  }

  predicate HeaderSeen(s: State) {
    && Plainly(s) && s.inStream && s.handlers == [ErrorEntry, FeaturesEntry]
    && s.timed == [Timer(MissingFeatures, FEATURES_TIMEOUT, 0, false)] && s.history == [Queued(StreamHeader), Opened]
  }

  lemma {:induction false} ReadsHeader(s: State)
    requires AtStart(s)
    ensures var r := OnSax(s, Calm, StreamStart("stream:stream", true)); HeaderSeen(r) && r.ids == s.ids
  {
    BadHeaders.Appended([], ErrorEntry);
    BadHeaders.Appended([ErrorEntry], FeaturesEntry);
    hide WithEntry, Listed, BadHeaders.Complete;
    assert [] + [ErrorEntry] == [ErrorEntry] && [ErrorEntry] + [FeaturesEntry] == [ErrorEntry, FeaturesEntry];
    assert Restamped(s.timed, 0) == [];
  }

  function Requested(): seq<Obs> {
    [Queued(StreamHeader), Opened, Received(BadHeaders.Features), Handled(HandleFeatures, BadHeaders.Features),
     AuthCalled(Blank), Queued(LegacyIq)]
  }

  /** The legacy request was made; its timer is in the list, enabled or not yet. */
  predicate Waits(s: State, enabled: bool) {
    && Plainly(s) && s.inStream && s.handlers == [ErrorEntry.(enabled := true)]
    && s.timed == [Timer(MissingLegacy, LEGACY_TIMEOUT, 0, enabled)]
    && s.ids == map[ID := [User(0), HandleLegacy]] && s.history == Requested()
  }

  /** Features that offer nothing lead to the request. */
  lemma {:induction false} Requests(s: State)
    requires Plainly(s) && s.inStream && s.timed == [Timer(MissingFeatures, FEATURES_TIMEOUT, 0, false)]
    requires s.ids == map[ID := [User(0)]]
    requires s.history == [Queued(StreamHeader), Opened, Received(BadHeaders.Features)]
    ensures var r := OnStanza(s, Calm, HandleFeatures, BadHeaders.Features);
      && Plainly(r) && r.inStream && r.handlers == s.handlers && r.timed == [Timer(MissingLegacy, LEGACY_TIMEOUT, 0, false)]
      && r.ids == map[ID := [User(0), HandleLegacy]] && r.history == Requested()
  {
    var s0 := Observe(s, Handled(HandleFeatures, BadHeaders.Features));
    BadHeaders.NothingOffered(s0);
    hide TlsSeen, SaslSeen;
    assert WithoutTimer(s.timed, MissingFeatures) == [];
    var s1 := DeleteTimed(s0, MissingFeatures).(tlsSupport := false, sasl := {});
    assert Left(s1) == Blank;
    assert WithId(s.ids, HandleLegacy, ID) == map[ID := [User(0), HandleLegacy]] by {
      assert [User(0)] + [HandleLegacy] == [User(0), HandleLegacy];
    }
  }

  lemma {:induction false} ReadsFeatures(s: State)
    requires HeaderSeen(s) && s.ids == map[ID := [User(0)]]
    ensures Waits(OnSax(s, Calm, StanzaIn(BadHeaders.Features)), false)
  {
    var st := BadHeaders.Features;
    var e0, e1 := ErrorEntry.(enabled := true), FeaturesEntry.(enabled := true);
    var s1 := Observe(s, Received(st)).(handlers := [e0, e1]);
    assert Enabled(s.handlers) == [e0, e1] && Id(st) == None;
    Dispatched(s, st);
    hide OnStanza, FireStanza, FireList, OnSax, BadHeaders.Complete, Requested, Enabled;
    Requests(s1);
    OneOfTwo(s1, st);
    assert RemoveAt(OnStanza(s1, Calm, HandleFeatures, st).handlers, 1) == [e0];
  }

  lemma {:induction false} Dispatched(s: State, st: Stanza)
    requires !s.stopped && s.inStream && Id(st) == None
    ensures OnSax(s, Calm, StanzaIn(st))
      == FireList(Observe(s, Received(st)).(handlers := Enabled(s.handlers)), Calm, st, 0, |s.handlers|)
  {
    hide FireList, Enabled, Id;
  }

  /** The handler of errors does not match, the one of the features is called. */
  lemma {:induction false} OneOfTwo(s: State, st: Stanza)
    requires st.kind == TagKind && st.data == Some("stream:features")
    requires !s.stopped && s.handlers == [ErrorEntry.(enabled := true), FeaturesEntry.(enabled := true)]
    requires var r := OnStanza(s, Calm, HandleFeatures, st); !r.stopped && s.handlers <= r.handlers
    ensures var r := OnStanza(s, Calm, HandleFeatures, st);
      FireList(s, Calm, st, 0, 2) == r.(handlers := RemoveAt(r.handlers, 1))
  {
    assert !Matches(s.handlers[0], st) && Matches(s.handlers[1], st);
    assert Eligible(s, HandleFeatures) && Eligible(s, HandleError) && !Stays(s, Calm, HandleFeatures, st);
    hide *;
    Dispatch.Unfolds(s, Calm, st, 0, 2);
    Dispatch.Unfolds(s, Calm, st, 1, 1);
    var s2 := OnStanza(s, Calm, HandleFeatures, st);
    ListEnds(s2.(handlers := RemoveAt(s2.handlers, 1)), st, 1);
  }

  lemma {:induction false} ListEnds(s: State, st: Stanza, i: nat)
    ensures FireList(s, Calm, st, i, 0) == s
  {
  }

  lemma {:induction false} NotDue(s: State, enabled: bool)
    requires Waits(s, enabled)
    ensures Waits(FireTimed(s, Calm), true)
  {
    var t := Timer(MissingLegacy, LEGACY_TIMEOUT, 0, true);
    assert EnabledTimers(s.timed) == [t];
    assert Elapsed(0, 0) == 0;
    var s1 := s.(timed := [t]);
    hide BadHeaders.Complete, Requested;
    assert FireTimers(s1, Calm, 0, 1) == FireTimers(s1.(tick := s.tick + 1), Calm, 1, 0);
  }

  lemma {:induction false} Asks(s: State)
    requires AtStart(s) && s.ids == map[ID := [User(0)]]
    ensures Waits(RunOnce(s, Calm, false, Chunk([StreamStart("stream:stream", true), StanzaIn(BadHeaders.Features)], true)), true)
  {
    var a, b := StreamStart("stream:stream", true), StanzaIn(BadHeaders.Features);
    var io := Chunk([a, b], true);
    ReadsHeader(s);
    var s1 := OnSax(s, Calm, a);
    ReadsFeatures(s1);
    var s2 := OnSax(s1, Calm, b);
    BadHeaders.NoTimers(s, Calm);
    ChunkOfTwo(s, a, b);
    hide OnSax, OnChunk, BadHeaders.Complete, FireTimed;
    assert OnIo(s, Calm, io) == s2;
    Passes(s, io);
    NotDue(s2, false);
  }

  lemma {:induction false} ChunkOfTwo(s: State, a: Sax, b: Sax)
    ensures OnChunk(s, Calm, [a, b]) == OnSax(OnSax(s, Calm, a), Calm, b)
  {
    hide OnSax;
    assert [a, b][1..] == [b] && [b][1..] == [];
    assert OnChunk(s, Calm, [a, b]) == OnChunk(OnSax(s, Calm, a), Calm, [b]);
  }

  lemma {:induction false} ChunkOfOne(s: State, a: Sax)
    ensures OnChunk(s, Calm, [a]) == OnSax(s, Calm, a)
  {
    hide OnSax;
    assert [a][1..] == [];
  }

  lemma {:induction false} Passes(s: State, io: Io)
    requires s.link == Connected && !s.resetParser && io != Idle
    ensures RunOnce(s, Calm, false, io) == FireTimed(OnIo(FireTimed(s, Calm), Calm, io), Calm)
  {
    hide OnIo, FireTimed;
  }

  // -------------------------------------------------------------------- the reply

  function Over(st: Stanza): seq<Obs> {
    Requested() + [Received(st), Handled(HandleLegacy, st), Authenticated, Notified(true)]
  }

  /** The connection is authenticated, and nothing is left for the id. */
  predicate Done(s: State, st: Stanza) {
    s.authenticated && !s.stopped && s.link == Connected && s.timed == [] && s.ids == map[ID := []] && s.history == Over(st)
  }

  lemma {:induction false} Answered(s: State, st: Stanza)
    requires Waits(s.(busyId := None, history := Requested()), true) && BadHeaders.ForgedResult(st)
    requires s.history == Requested() + [Received(st)]
    ensures var r := OnStanza(s, Calm, HandleLegacy, st);
      && r.authenticated && !r.stopped && r.link == Connected && r.timed == [] && r.ids == s.ids && r.handlers == s.handlers
      && r.history == Over(st)
  {
    hide Name, Type, Id, Requested, Callback, BadHeaders.Complete;
    var s0 := Observe(s, Handled(HandleLegacy, st));
    assert WithoutTimer(s.timed, MissingLegacy) == [];
    BadHeaders.SilentCallback(Observe(Observe(DeleteTimed(s0, MissingLegacy).(authenticated := true), Authenticated), Notified(true)), Calm);
    assert Requested() + [Received(st)] + [Handled(HandleLegacy, st)] + [Authenticated] + [Notified(true)] == Over(st);
  }

  lemma {:induction false} AnsweredById(s: State, st: Stanza)
    requires Waits(s.(busyId := None, history := Requested()), true) && BadHeaders.ForgedResult(st)
    requires s.history == Requested() + [Received(st)]
    ensures var r := FireIds(s, Calm, st, ID, 0, 0, 2);
      && r.authenticated && !r.stopped && r.link == Connected && r.timed == [] && r.ids == map[ID := []] && r.handlers == s.handlers
      && r.history == Over(st)
  {
    hide *;
    TwoWait(s, st);
    Answered(s, st);
    IdDispatch.Unfolds(s, Calm, st, ID, 0, 0, 2);
    IdDispatch.Unfolds(s, Calm, st, ID, 1, 0, 1);
    var s1 := OnStanza(s, Calm, HandleLegacy, st);
    IdDispatch.Ends(s1.(ids := s1.ids[ID := []]), Calm, st, ID, 0, 0, 0);
    Unchains(s1);
  }

  lemma {:induction false} TwoWait(s: State, st: Stanza)
    requires Waits(s.(busyId := None, history := Requested()), true)
    ensures Chain(s.ids, ID) == [User(0), HandleLegacy] && Unchained([User(0), HandleLegacy], 1, 0) == []
    ensures !Eligible(s, User(0)) && Eligible(s, HandleLegacy) && !Stays(s, Calm, HandleLegacy, st) && !s.stopped
    ensures s.ids == map[ID := [User(0), HandleLegacy]]
  {
    hide Requested, BadHeaders.Complete;
  }

  lemma {:induction false} Unchains(s: State)
    ensures var r := s.(ids := s.ids[ID := []]);
      && r.authenticated == s.authenticated && r.stopped == s.stopped && r.link == s.link && r.timed == s.timed
      && r.handlers == s.handlers && r.history == s.history
      && (s.ids == map[ID := [User(0), HandleLegacy]] ==> r.ids == map[ID := []])
  {
  }

  lemma {:induction false} ReplyDispatched(s: State, st: Stanza)
    requires Waits(s, true) && BadHeaders.ForgedResult(st)
    ensures Done(OnSax(s, Calm, StanzaIn(st)), st)
  {
    var s0 := Observe(s, Received(st)).(busyId := Some(ID));
    assert Chain(s0.ids, ID) == [User(0), HandleLegacy] && Id(st) == Some(ID);
    assert s0.(busyId := None, history := Requested()) == s;
    var e := ErrorEntry.(enabled := true);
    assert !Matches(e, st);
    AnsweredById(s0, st);
    var s1 := FireIds(s0, Calm, st, ID, 0, 0, 2).(busyId := None);
    var s2 := s1.(handlers := Enabled(s1.handlers));
    assert s2.handlers == [e];
    hide FireIds, Matches, Over, Requested, BadHeaders.ForgedResult, BadHeaders.Complete, Enabled, Id;
    assert FireById(Observe(s, Received(st)), Calm, st) == s1;
    StanzaFires(s, Calm, st);
    assert FireStanza(s, Calm, st) == FireList(s2, Calm, st, 0, 1);
    Dispatch.Unfolds(s2, Calm, st, 0, 1);
    ListEnds(s2, st, 1);
  }

  lemma {:induction false} Finishes(s: State, st: Stanza)
    requires Waits(s, true) && BadHeaders.ForgedResult(st)
    ensures Done(RunOnce(s, Calm, false, Chunk([StanzaIn(st)], true)), st)
  {
    var io := Chunk([StanzaIn(st)], true);
    NotDue(s, true);
    var s1 := FireTimed(s, Calm);
    ReplyDispatched(s1, st);
    var s2 := OnSax(s1, Calm, StanzaIn(st));
    ChunkOfOne(s1, StanzaIn(st));
    BadHeaders.NoTimers(s2, Calm);
    hide OnSax, OnChunk, FireTimed, BadHeaders.Complete, BadHeaders.ForgedResult, Requested, Over;
    assert OnIo(s1, Calm, io) == s2;
    Passes(s, io);
  }

  /** A handler of the user for the reply to the legacy request, registered before the
      connection is made: on this run the reply comes, the library's handler is called by it
      and authenticates, and the user's is not called and not registered any more. */
  lemma {:induction false} LosesHandler(account: Account, st: Stanza)
    requires BadHeaders.Complete(account) && BadHeaders.ForgedResult(st)
    ensures var events := [Call(AddById(0, ID)), Pass(false, ConnectDone),
                           Pass(false, Chunk([StreamStart("stream:stream", true), StanzaIn(BadHeaders.Features)], true)),
                           Pass(false, Chunk([StanzaIn(st)], true))];
      var t := Run(Init(account), Calm, events);
      && t.authenticated && !t.stopped && Chain(t.ids, ID) == []
      && Received(st) in t.history && Handled(HandleLegacy, st) in t.history && Handled(User(0), st) !in t.history
  {
    var io1, io2 := Chunk([StreamStart("stream:stream", true), StanzaIn(BadHeaders.Features)], true), Chunk([StanzaIn(st)], true);
    var s0 := Act(Init(account), Calm, AddById(0, ID));
    assert !Init(account).stopped && !s0.stopped;
    var s1 := RunOnce(s0, Calm, false, ConnectDone);
    Starts(account);
    var s2 := RunOnce(s1, Calm, false, io1);
    hide RunOnce, BadHeaders.Complete, BadHeaders.ForgedResult, Act, Init, Over, Requested;
    Asks(s1);
    Finishes(s2, st);
    FourEvents(Init(account), Call(AddById(0, ID)), Pass(false, ConnectDone), Pass(false, io1), Pass(false, io2));
    OverHas(st);
  }

  lemma {:induction false} OverHas(st: Stanza)
    ensures Received(st) in Over(st) && Handled(HandleLegacy, st) in Over(st) && Handled(User(0), st) !in Over(st)
  {
    var h := Over(st);
    assert h[6] == Received(st) && h[7] == Handled(HandleLegacy, st);
  }

  lemma {:induction false} FourEvents(s: State, a: Event, b: Event, c: Event, d: Event)
    ensures Run(s, Calm, [a, b, c, d]) == Step(Step(Step(Step(s, Calm, a), Calm, b), Calm, c), Calm, d)
  {
    hide Step;
    var s1 := Step(s, Calm, a);
    var s2 := Step(s1, Calm, b);
    var s3 := Step(s2, Calm, c);
    assert [a, b, c, d][1..] == [b, c, d] && [b, c, d][1..] == [c, d] && [c, d][1..] == [d] && [d][1..] == [];
    assert Run(s, Calm, [a, b, c, d]) == Run(s1, Calm, [b, c, d]);
    assert Run(s1, Calm, [b, c, d]) == Run(s2, Calm, [c, d]);
    assert Run(s2, Calm, [c, d]) == Run(s3, Calm, [d]);
    assert Run(s3, Calm, [d]) == Run(Step(s3, Calm, d), Calm, []);
  }
}
