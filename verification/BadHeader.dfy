/** What goes wrong when a stream header is refused: the connection is given up, and the
    rest of the input is handled as if it were not. */
module BadHeaders {
  import opened Common
  import opened Stanzas
  import opened Negotiation

  /** User code does nothing. */
  ghost predicate Silent(env: Env) {
    forall n: nat :: env(n).actions == []
  }

  const Features := Stanza(TagKind, Some("stream:features"), None, [])

  /** A result that names the id of the legacy request, which the library always uses. */
  predicate ForgedResult(st: Stanza) {
    Id(st) == Some("_xmpp_auth1") && Name(st) == Some("iq") && Type(st) == Some("result")
  }

  const ErrorEntry := Entry(HandleError, None, Some("stream:error"), None, false)
  const FeaturesEntry := Entry(HandleFeatures, None, Some("stream:features"), None, false)

  /** The account of a client that has all that legacy authentication takes. */
  predicate Complete(a: Account) {
    a.client && a.node.Some? && a.resource.Some? && a.pass.Some?
  }

  /** No message of the negotiation but the header was queued. */
  ghost predicate NothingAsked(h: seq<Obs>) {
    forall i :: 0 <= i < |h| && h[i].Queued? ==> h[i].msg == StreamHeader
  }

  ghost predicate Untouched(s: State) {
    && Complete(s.account) && !s.stopped && !s.tlsSupport && s.sasl == {} && !s.secured
    && s.ids == map[] && s.openHandler == AuthOpen && NothingAsked(s.history)
  }

  lemma {:induction false} SilentCallback(s: State, env: Env)
    requires Silent(env)
    ensures Callback(s, env) == s.(tick := s.tick + 1)
  {
    assert env(s.tick).actions == [];
  }

  lemma {:induction false} Refused(s: State, env: Env)
    requires Silent(env) && Untouched(s)
    ensures var r := ConnDisconnect(Observe(s, BadHeader), env);
      Untouched(r) && r.link == Disconnected && r.handlers == s.handlers && r.inStream == s.inStream
  {
    hide Callback, Complete;
    var s2 := Observe(Observe(s, BadHeader).(link := Disconnected), Notified(false));
    SilentCallback(s2, env);
    assert s2.history == s.history + [BadHeader, Notified(false)];
  }

  lemma {:induction false} OpenedAnyway(s: State, env: Env)
    requires Untouched(s) && s.handlers == []
    ensures var r := OpenStream(s, env);
      Untouched(r) && r.link == s.link && r.handlers == [ErrorEntry, FeaturesEntry] && r.inStream == s.inStream
  {
    hide IsTimed, WithTimer, Complete, WithEntry;
    assert WithEntry([], ErrorEntry) == [ErrorEntry] by { Appended([], ErrorEntry); }
    assert WithEntry([ErrorEntry], FeaturesEntry) == [ErrorEntry] + [FeaturesEntry] by { Appended([ErrorEntry], FeaturesEntry); }
  }

  lemma {:induction false} Appended(hs: seq<Entry>, e: Entry)
    requires !Listed(hs, e.handler)
    ensures WithEntry(hs, e) == hs + [e]
  {
  }

  lemma {:induction false} RefusedHeader(s: State, env: Env)
    requires Silent(env) && Untouched(s) && s.handlers == []
    ensures var r := OnStreamStart(s, env, "bogus", false);
      Untouched(r) && r.link == Disconnected && r.handlers == [ErrorEntry, FeaturesEntry] && r.inStream
  {
    hide Untouched, ConnDisconnect, OpenStream;
    var s0 := s.(inStream := true, hasStreamId := s.hasStreamId || ("bogus" == "stream:stream" && false));
    assert Untouched(s0) by { SameIsUntouched(s, s0); }
    Refused(s0, env);
    OpenedAnyway(ConnDisconnect(Observe(s0, BadHeader), env), env);
  }

  lemma {:induction false} SameIsUntouched(s: State, t: State)
    requires Untouched(s) && t.account == s.account && t.stopped == s.stopped && t.tlsSupport == s.tlsSupport
    requires t.sasl == s.sasl && t.secured == s.secured && t.ids == s.ids && t.openHandler == s.openHandler && t.history == s.history
    ensures Untouched(t)
  {
  }

  lemma {:induction false} NothingOffered(s: State)
    requires !s.tlsSupport && s.sasl == {}
    ensures TlsSeen(s, Features) == Some(false) && SaslSeen(s, Features) == Some({})
  {
  }

  /** Features that offer nothing lead to legacy authentication, on the dead link too. */
  lemma {:induction false} FeaturesOnDeadLink(s: State, env: Env)
    requires Untouched(s) && s.link == Disconnected
    ensures var r := OnStanza(s, env, HandleFeatures, Features);
      && !r.stopped && r.link == Disconnected && r.handlers == s.handlers && r.inStream == s.inStream
      && r.ids == map["_xmpp_auth1" := [HandleLegacy]] && NothingAsked(r.history)
  {
    hide TlsSeen, SaslSeen, WithoutTimer, NothingAsked, TryAuth, Left;
    var s0 := Observe(s, Handled(HandleFeatures, Features));
    NothingOffered(s0);
    var s2 := DeleteTimed(s0, MissingFeatures).(tlsSupport := false, sasl := {});
    LegacyOnDeadLink(s2, env);
    NotAsked(s.history, Handled(HandleFeatures, Features));
    NotAsked(s0.history, AuthCalled(Left(s2)));
    NotAsked(s0.history + [AuthCalled(Left(s2))], Dropped(LegacyIq));
    assert OnStanza(s, env, HandleFeatures, Features) == TryAuth(s2, env);
  }

  lemma {:induction false} NotAsked(h: seq<Obs>, o: Obs)
    requires NothingAsked(h) && !o.Queued?
    ensures NothingAsked(h + [o])
  {
  }

  lemma {:induction false} LegacyOnDeadLink(s: State, env: Env)
    requires Complete(s.account) && !s.tlsSupport && s.sasl == {} && s.link == Disconnected && s.ids == map[]
    ensures var r := TryAuth(s, env);
      && r.stopped == s.stopped && r.link == s.link && r.handlers == s.handlers && r.inStream == s.inStream
      && r.ids == map["_xmpp_auth1" := [HandleLegacy]]
      && r.history == s.history + [AuthCalled(Left(s))] + [Dropped(LegacyIq)]
  {
    hide WithTimer, IsTimed, Left;
    assert Chain(s.ids, "_xmpp_auth1") == [] && [] + [HandleLegacy] == [HandleLegacy];
    assert WithId(s.ids, HandleLegacy, "_xmpp_auth1") == map["_xmpp_auth1" := [HandleLegacy]];
  }

  /** The features stanza is dispatched: the handler of errors does not match. */
  lemma {:induction false} FeaturesDispatched(s: State, env: Env)
    requires Untouched(s) && s.link == Disconnected && s.inStream && s.handlers == [ErrorEntry, FeaturesEntry]
    ensures var r := FireStanza(s, env, Features);
      && !r.stopped && r.link == Disconnected && r.inStream && r.handlers == [ErrorEntry.(enabled := true)]
      && r.ids == map["_xmpp_auth1" := [HandleLegacy]] && NothingAsked(r.history)
  {
    var s0 := Observe(s, Received(Features));
    NotAsked(s.history, Received(Features));
    var e0, e1 := ErrorEntry.(enabled := true), FeaturesEntry.(enabled := true);
    var s1 := s0.(handlers := Enabled(s0.handlers));
    assert s1.handlers == [e0, e1];
    assert Id(Features) == None;
    assert FireStanza(s, env, Features) == FireList(s1, env, Features, 0, 2);
    assert !Matches(e0, Features) && Matches(e1, Features);
    assert Eligible(s1, HandleFeatures) && Eligible(s1, HandleError);
    assert !Stays(s1, env, HandleFeatures, Features);
    FeaturesOnDeadLink(s1, env);
    hide OnStanza, Matches, Eligible, Stays, NothingAsked;
    assert FireList(s1, env, Features, 0, 2) == FireList(s1, env, Features, 1, 1);
    var s2 := OnStanza(s1, env, HandleFeatures, Features);
    var s3 := s2.(handlers := RemoveAt(s2.handlers, 1));
    assert s3.handlers == [e0];
    assert FireList(s1, env, Features, 1, 1) == FireList(s3, env, Features, 1, 0);
  }

  /** The forged result is taken for the reply to the request that was never sent. */
  lemma {:induction false} ResultOnDeadLink(s: State, env: Env, st: Stanza)
    requires Silent(env) && ForgedResult(st) && !s.stopped && NothingAsked(s.history)
    ensures var r := OnStanza(s, env, HandleLegacy, st);
      r.authenticated && !r.stopped && r.link == s.link && r.ids == s.ids && NothingAsked(r.history)
  {
    hide WithoutTimer, NothingAsked, Callback, Name, Type, Id;
    var s0 := Observe(s, Handled(HandleLegacy, st));
    NotAsked(s.history, Handled(HandleLegacy, st));
    NotAsked(s0.history, Authenticated);
    NotAsked(s0.history + [Authenticated], Notified(true));
    SilentCallback(Observe(Observe(DeleteTimed(s0, MissingLegacy).(authenticated := true), Authenticated), Notified(true)), env);
  }

  lemma {:induction false} ResultById(s: State, env: Env, st: Stanza)
    requires Silent(env) && ForgedResult(st) && !s.stopped && NothingAsked(s.history)
    requires s.ids == map["_xmpp_auth1" := [HandleLegacy]]
    ensures var r := FireIds(s, env, st, "_xmpp_auth1", 0, 0, 1);
      r.authenticated && !r.stopped && r.link == s.link && r.handlers == s.handlers && NothingAsked(r.history)
  {
    hide OnStanza, NothingAsked;
    ResultOnDeadLink(s, env, st);
    assert Chain(s.ids, "_xmpp_auth1") == [HandleLegacy];
    SilentLegacyKeepsHandlers(s, env, st);
    var s1 := OnStanza(s, env, HandleLegacy, st);
    var s2 := s1.(ids := s1.ids["_xmpp_auth1" := Unchained([HandleLegacy], 0, 0)]);
    assert FireIds(s, env, st, "_xmpp_auth1", 0, 0, 1) == FireIds(s2, env, st, "_xmpp_auth1", 0, 0, 0);
  }

  lemma {:induction false} SilentLegacyKeepsHandlers(s: State, env: Env, st: Stanza)
    requires Silent(env) && ForgedResult(st)
    ensures OnStanza(s, env, HandleLegacy, st).handlers == s.handlers
  {
    hide WithoutTimer, Callback, Name, Type, Id;
    var s0 := Observe(s, Handled(HandleLegacy, st));
    SilentCallback(Observe(Observe(DeleteTimed(s0, MissingLegacy).(authenticated := true), Authenticated), Notified(true)), env);
  }

  /** The forged result is dispatched. */
  lemma {:induction false} ResultDispatched(s: State, env: Env, st: Stanza)
    requires Silent(env) && ForgedResult(st) && !s.stopped && NothingAsked(s.history)
    requires s.ids == map["_xmpp_auth1" := [HandleLegacy]] && s.handlers == [ErrorEntry.(enabled := true)]
    ensures var r := FireStanza(s, env, st); r.authenticated && r.link == s.link && NothingAsked(r.history)
  {
    var s0 := Observe(s, Received(st)).(busyId := Some("_xmpp_auth1"));
    NotAsked(s.history, Received(st));
    assert !Matches(ErrorEntry.(enabled := true), st);
    assert Chain(s0.ids, "_xmpp_auth1") == [HandleLegacy];
    hide FireIds, NothingAsked, Matches, OnStanza, Eligible, Stays;
    ResultById(s0, env, st);
    var s1 := FireIds(s0, env, st, "_xmpp_auth1", 0, 0, 1).(busyId := None);
    var s2 := s1.(handlers := Enabled(s1.handlers));
    assert s2.handlers == [ErrorEntry.(enabled := true)];
    assert FireStanza(s, env, st) == FireList(s2, env, st, 0, 1);
    assert FireList(s2, env, st, 0, 1) == FireList(s2, env, st, 1, 0);
  }

  /** What the server sends in one piece. */
  function BadInput(st: Stanza): seq<Sax> {
    [StreamStart("bogus", false), StanzaIn(Features), StanzaIn(st)]
  }

  lemma {:induction false} BadInputRead(s: State, env: Env, st: Stanza)
    requires Silent(env) && ForgedResult(st) && Untouched(s) && s.handlers == [] && !s.inStream && !s.streamDone
    ensures var r := OnChunk(s, env, BadInput(st)); r.authenticated && r.link == Disconnected && NothingAsked(r.history)
  {
    hide FireStanza, OnStreamStart, NothingAsked, ForgedResult, Complete;
    RefusedHeader(s, env);
    var s1 := OnSax(s, env, StreamStart("bogus", false));
    FeaturesDispatched(s1, env);
    var s2 := OnSax(s1, env, StanzaIn(Features));
    ResultDispatched(s2, env, st);
    ChunkOfThree(s, env, StreamStart("bogus", false), StanzaIn(Features), StanzaIn(st));
  }

  lemma {:induction false} ChunkOfThree(s: State, env: Env, a: Sax, b: Sax, c: Sax)
    ensures OnChunk(s, env, [a, b, c]) == OnSax(OnSax(OnSax(s, env, a), env, b), env, c)
  {
    hide OnSax;
    var s1 := OnSax(s, env, a);
    var s2 := OnSax(s1, env, b);
    assert [a, b, c][1..] == [b, c] && [b, c][1..] == [c] && [c][1..] == [];
    assert OnChunk(s, env, [a, b, c]) == OnChunk(s1, env, [b, c]);
    assert OnChunk(s1, env, [b, c]) == OnChunk(s2, env, [c]);
    assert OnChunk(s2, env, [c]) == OnChunk(OnSax(s2, env, c), env, []);
  }

  /** The connection is made. */
  lemma {:induction false} FirstPass(account: Account, env: Env)
    requires Complete(account)
    ensures var s := Step(Init(account), env, Pass(false, ConnectDone));
      Untouched(s) && s.handlers == [] && s.timed == [] && !s.inStream && !s.streamDone && !s.resetParser && s.link == Connected
  {
    hide Complete;
    var s0 := AfterReset(AfterWrite(Init(account), env, false));
    var s1 := OnIo(FireTimed(s0, env), env, ConnectDone);
    assert s1.history == [Queued(StreamHeader)];
    var s2 := s1.(timed := EnabledTimers(s1.timed));
    assert s2.timed == [];
    assert FireTimers(s2, env, 0, 0) == s2;
  }

  lemma {:induction false} SecondPass(s: State, env: Env, st: Stanza)
    requires Silent(env) && ForgedResult(st) && Untouched(s) && s.handlers == [] && s.timed == []
    requires !s.inStream && !s.streamDone && !s.resetParser && s.link == Connected
    ensures var r := Step(s, env, Pass(false, Chunk(BadInput(st), true))); r.authenticated && NothingAsked(r.history)
  {
    hide NothingAsked, ForgedResult, Complete, OnChunk;
    BadInputRead(s, env, st);
    assert AfterReset(AfterWrite(s, env, false)) == s;
    NoTimers(s, env);
    var r := OnIo(s, env, Chunk(BadInput(st), true));
    assert r == OnChunk(s, env, BadInput(st));
    assert FireTimed(r, env) == r;
  }

  lemma {:induction false} NoTimers(s: State, env: Env)
    requires s.timed == []
    ensures FireTimed(s, env) == s
  {
    assert EnabledTimers([]) == [];
  }

  /** For every complete account, whatever the server's reply says beside its id and type:
      requests that come after BadHeader are not sent (RequestsSent), and still the connection
      may be authenticated, when nothing but the header was queued. */
  lemma {:induction false} AuthenticatedUnasked(account: Account, env: Env, st: Stanza)
    requires Silent(env) && ForgedResult(st) && Complete(account)
    ensures var events := [Pass(false, ConnectDone), Pass(false, Chunk(BadInput(st), true))];
      var s := Run(Init(account), env, events);
      s.authenticated && NothingAsked(s.history)
  {
    var e0, e1 := Pass(false, ConnectDone), Pass(false, Chunk(BadInput(st), true));
    var s0 := Init(account);
    FirstPass(account, env);
    hide NothingAsked, ForgedResult, Complete, RunOnce, Init;
    var s1 := Step(s0, env, e0);
    SecondPass(s1, env, st);
    assert [e0, e1][1..] == [e1] && [e1][1..] == [];
    assert Run(s0, env, [e0, e1]) == Run(s1, env, [e1]);
    assert Run(s1, env, [e1]) == Run(Step(s1, env, e1), env, []);
  }
}
