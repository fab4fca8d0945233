/** What features offer is heeded, on every run, whatever the timers do: TLS is tried first
    and at once, and a password is never sent in the clear while DIGEST-MD5 was offered and
    is untried. */
module Heeding {
  import opened Common
  import opened Stanzas
  import opened Negotiation
  import opened Meanings
  import opened Frames
  import opened NegotiationOrder

  /** Features were handled that offer TLS. */
  ghost predicate OffersTls(o: Obs) {
    ReadsFeatures(o) && Offers(o.st, "starttls", "urn:ietf:params:xml:ns:xmpp-tls")
  }

  /** The mechanisms that features list. */
  ghost function OfferedBy(o: Obs): set<Mechanism> {
    set m: Mechanism | ReadsFeatures(o) && Lists(o.st, m)
  }

  predicate Tries(o: Obs, m: Mechanism) {
    o == Queued(Message.Auth(m)) || o == Dropped(Message.Auth(m))
  }

  function TriedBy(o: Obs): set<Mechanism> {
    if (o.Queued? || o.Dropped?) && o.msg.Auth? then {o.msg.mechanism} else {}
  }

  /** The mechanisms that were offered and not tried since. */
  ghost function Pool(h: seq<Obs>): set<Mechanism>
    decreases |h|
  {
    if h == [] then {} else Pool(h[..|h| - 1]) + OfferedBy(h[|h| - 1]) - TriedBy(h[|h| - 1])
  }

  /** TLS has just been offered, is not up, and was not barred by the user. */
  ghost predicate Urgent(p: seq<Obs>) {
    p != [] && OffersTls(p[|p| - 1]) && TlsStarted !in p && TlsBarred !in p
  }

  predicate Asks(o: Obs, m: Message) {
    o == Queued(m) || o == Dropped(m)
  }

  predicate ThinksOfTls(o: Obs) {
    o.AuthCalled? && o.measure.tlsSupport
  }

  /** It was asked whether TLS can be had, and it can, or cannot. */
  predicate TlsIsThere(o: Obs, env: Env) {
    o.TlsProbed? && env(o.at).tlsAvailable
  }

  predicate TlsIsNotThere(o: Obs, env: Env) {
    o.TlsProbed? && !env(o.at).tlsAvailable
  }

  /** `_auth` has just been called with no TLS to try. */
  predicate CalledLast(p: seq<Obs>) {
    p != [] && p[|p| - 1].AuthCalled? && !p[|p| - 1].measure.tlsSupport
  }

  /** What `_auth` is called after at once: features, or that they were given up. */
  predicate Urges(o: Obs) {
    ReadsFeatures(o) || o == Fired(MissingFeatures)
  }

  /** An observation that may follow: what the last one calls for, and nothing that is not
      called for. `_auth` thinks of TLS exactly when it has just been offered; whether TLS
      can be had is asked at once, and decides between starttls and a call of `_auth` that
      thinks of TLS no more. Mechanisms and the legacy request are tried by `_auth` only,
      mechanisms that are left, and PLAIN if no DIGEST-MD5 is. */
  ghost predicate Follows(p: seq<Obs>, o: Obs, env: Env) {
    && (p != [] && Urges(p[|p| - 1]) ==> o.AuthCalled?)
    && (o.AuthCalled? ==> o.measure == Counted(p))
    && (o.TlsProbed? <==> p != [] && ThinksOfTls(p[|p| - 1]))
    && (Asks(o, StartTls) <==> p != [] && TlsIsThere(p[|p| - 1], env))
    && (p != [] && TlsIsNotThere(p[|p| - 1], env) ==> o.AuthCalled?)
    && (TriedBy(o) != {} || Asks(o, LegacyIq) ==> CalledLast(p))
    && TriedBy(o) <= Pool(p) && (Tries(o, Plain) ==> DigestMd5 !in Pool(p))
  }

  /** What is left to try, as the history has it. */
  ghost function Counted(p: seq<Obs>): Measure {
    Measure(TlsStarted !in p, Urgent(p), |Pool(p)|, Queued(LegacyIq) !in p && Dropped(LegacyIq) !in p)
  }

  ghost predicate Heeded(h: seq<Obs>, env: Env) {
    forall i :: 0 <= i < |h| ==> Follows(h[..i], h[i], env)
  }

  /** Nothing has to come next, or nothing but a call of `_auth`. */
  predicate Resting(p: seq<Obs>) {
    p == [] || (!ThinksOfTls(p[|p| - 1]) && !p[|p| - 1].TlsProbed?)
  }

  predicate Settled(p: seq<Obs>) {
    Resting(p) && (p != [] ==> !Urges(p[|p| - 1]))
  }

  /** The flags of the connection are what the history says. */
  ghost predicate Agrees(s: State) {
    && s.sasl == Pool(s.history) && (s.secured <==> TlsStarted in s.history)
    && (s.tlsDisabled <==> TlsBarred in s.history)
  }

  ghost predicate Known(s: State, env: Env) {
    Heeded(s.history, env) && (if s.stopped then Resting(s.history) else Settled(s.history) && Agrees(s) && !s.tlsSupport)
  }

  /** An observation that calls for nothing and that nothing calls for. */
  predicate Quiet(o: Obs) {
    && !Urges(o) && !o.AuthCalled? && !o.TlsProbed? && o != TlsStarted
    && (o.Queued? || o.Dropped? ==> !o.msg.Auth? && o.msg != LegacyIq && o.msg != StartTls)
  }

  ghost predicate AllQuiet(os: seq<Obs>) {
    forall i :: 0 <= i < |os| ==> Quiet(os[i])
  }

  /** Nothing happens that concerns TLS or the mechanisms, but that TLS may be barred. */
  ghost predicate Calm(s: State, r: State) {
    && r.sasl == s.sasl && r.secured == s.secured && r.tlsSupport == s.tlsSupport
    && s.history <= r.history && AllQuiet(r.history[|s.history|..])
    && BarredBy(s.tlsDisabled, r.tlsDisabled, r.history[|s.history|..])
  }

  // ------------------------------------------------------------------- histories

  lemma {:induction false} PoolNext(h: seq<Obs>, o: Obs)
    ensures Pool(h + [o]) == Pool(h) + OfferedBy(o) - TriedBy(o)
  {
    assert (h + [o])[..|h|] == h;
  }

  lemma {:induction false} HeededNext(h: seq<Obs>, o: Obs, env: Env)
    requires Heeded(h, env) && Follows(h, o, env)
    ensures Heeded(h + [o], env)
  {
    hide Follows;
    var g := h + [o];
    forall i | 0 <= i < |g| ensures Follows(g[..i], g[i], env) {
      if i < |h| {
        assert g[..i] == h[..i];
      } else {
        assert g[..i] == h;
      }
    }
  }

  lemma {:induction false} QuietFollows(h: seq<Obs>, o: Obs, env: Env)
    requires Settled(h) && Quiet(o)
    ensures Follows(h, o, env) && Settled(h + [o]) && OfferedBy(o) == {} && TriedBy(o) == {}
  {
    hide Pool, LegacyTried, Counted;
  }

  lemma {:induction false} QuietNext(h: seq<Obs>, o: Obs, env: Env)
    requires Heeded(h, env) && Settled(h) && Quiet(o)
    ensures Heeded(h + [o], env) && Settled(h + [o]) && Pool(h + [o]) == Pool(h)
    ensures TlsStarted in h + [o] <==> TlsStarted in h
  {
    QuietFollows(h, o, env);
    InNext(h, o, TlsStarted);
    assert o != TlsStarted;
    hide *;
    HeededNext(h, o, env);
    PoolNext(h, o);
    assert Pool(h) + {} - {} == Pool(h);
  }

  lemma {:induction false} QuietGrowth(g: seq<Obs>, os: seq<Obs>, env: Env)
    requires Heeded(g, env) && Settled(g) && AllQuiet(os)
    ensures Heeded(g + os, env) && Settled(g + os) && Pool(g + os) == Pool(g)
    ensures TlsStarted in g + os <==> TlsStarted in g
    decreases |os|
  {
    hide Heeded, Settled, Pool, Quiet;
    if os == [] {
      assert g + os == g;
    } else {
      var n := |os| - 1;
      assert Quiet(os[n]);
      QuietGrowth(g, os[..n], env);
      assert g + os == (g + os[..n]) + [os[n]];
      QuietNext(g + os[..n], os[n], env);
    }
  }

  lemma {:induction false} CalmKnown(s: State, r: State, env: Env)
    requires Known(s, env) && Calm(s, r) && !s.stopped
    ensures Known(r, env)
  {
    hide Heeded, AllQuiet, Pool, Urgent, Resting;
    var os := r.history[|s.history|..];
    assert r.history == s.history + os;
    QuietGrowth(s.history, os, env);
  }

  lemma {:induction false} StepsJoin(a: seq<Obs>, b: seq<Obs>)
    ensures Steps(a + b) == Steps(a) + Steps(b)
    decreases |b|
  {
    hide Relevant;
    if b == [] {
      assert a + b == a;
    } else {
      var n := |b| - 1;
      assert (a + b)[..|a| + n] == a + b[..n];
      StepsJoin(a, b[..n]);
    }
  }

  lemma {:induction false} InnerIrrelevantIsQuiet(link: Link, o: Obs)
    requires Inner(link, o) && !Relevant(o)
    ensures Quiet(o)
  {
  }

  /** What leaves the core and only observes its own is calm. */
  lemma {:induction false} AsideIsCalm(s: State, r: State)
    requires Aside(s, r) && Extends(s, r)
    ensures Calm(s, r)
  {
    hide Steps, Tokens, Distinct, Inner, Relevant, Quiet, BarredBy, Late, Watches;
    var os := r.history[|s.history|..];
    assert r.history == s.history + os;
    StepsJoin(s.history, os);
    assert Steps(os) == [];
    forall i | 0 <= i < |os| ensures Quiet(os[i]) {
      assert os[i] in os;
      if Relevant(os[i]) {
        InSteps(os, os[i]);
      }
      InnerIrrelevantIsQuiet(s.link, os[i]);
    }
  }

  // ------------------------------------------------------------------------ _auth

  /** `_auth` may be called: what it has left to try is what the history says. */
  ghost predicate Callable(s: State, env: Env) {
    && Heeded(s.history, env) && Agrees(s) && !s.stopped && (s.tlsSupport <==> Urgent(s.history))
    && (s.history != [] ==> !ThinksOfTls(s.history[|s.history| - 1]) && !TlsIsThere(s.history[|s.history| - 1], env))
  }

  /** `_auth` was called: the history as it was before, and the flags. */
  ghost predicate InCall(s: State, p: seq<Obs>, tlsSupport: bool, env: Env) {
    && s.history == p + [AuthCalled(Counted(p))] && Counted(p).tlsSupport == tlsSupport && s.tlsSupport == tlsSupport
    && Heeded(s.history, env) && Agrees(s) && !s.stopped
  }

  lemma {:induction false} KnownIsCallable(s: State, env: Env)
    requires Known(s, env) && !s.stopped
    ensures Callable(s, env)
  {
    hide Heeded, Pool;
  }

  lemma {:induction false} CallFollows(s: State, env: Env)
    requires Callable(s, env)
    ensures Left(s) == Counted(s.history) && Follows(s.history, AuthCalled(Left(s)), env)
  {
    LegacyIn(s.history);
    hide Heeded, Pool, LegacyTried;
  }

  lemma {:induction false} LegacyIn(p: seq<Obs>)
    ensures LegacyTried(p) <==> Queued(LegacyIq) in p || Dropped(LegacyIq) in p
  {
  }

  /** A step that leaves the flags. */
  lemma {:induction false} AgreesNext(s: State, o: Obs)
    requires Agrees(s) && OfferedBy(o) == {} && TriedBy(o) == {} && o != TlsStarted && o != TlsBarred
    ensures Agrees(Observe(s, o))
  {
    hide OfferedBy, TriedBy, Pool;
    PoolNext(s.history, o);
    InNext(s.history, o, TlsStarted);
    InNext(s.history, o, TlsBarred);
    assert Pool(s.history) + {} - {} == Pool(s.history);
  }

  lemma {:induction false} CalledKnown(s: State, env: Env)
    requires Callable(s, env)
    ensures var r := Observe(s, AuthCalled(Left(s))); InCall(r, s.history, s.tlsSupport, env)
  {
    var o := AuthCalled(Left(s));
    CallFollows(s, env);
    CallableParts(s, env);
    SameFlags(s, o);
    CallIsPlain(Left(s));
    hide *;
    AgreesNext(s, o);
    HeededNext(s.history, o, env);
    InCallWhen(Observe(s, o), s.history, s.tlsSupport, env);
  }

  lemma {:induction false} CallableParts(s: State, env: Env)
    requires Callable(s, env)
    ensures Heeded(s.history, env) && Agrees(s) && !s.stopped && Counted(s.history).tlsSupport == s.tlsSupport
  {
    hide Heeded, Agrees, Urgent;
  }

  lemma {:induction false} SameFlags(s: State, o: Obs)
    ensures var r := Observe(s, o);
      && r.history == s.history + [o] && r.sasl == s.sasl && r.secured == s.secured && r.tlsDisabled == s.tlsDisabled
      && r.stopped == s.stopped && r.tlsSupport == s.tlsSupport
  {
  }

  lemma {:induction false} CallIsPlain(m: Measure)
    ensures OfferedBy(AuthCalled(m)) == {} && TriedBy(AuthCalled(m)) == {}
  {
  }

  lemma {:induction false} InCallWhen(s: State, p: seq<Obs>, tlsSupport: bool, env: Env)
    requires s.history == p + [AuthCalled(Counted(p))] && Counted(p).tlsSupport == tlsSupport && s.tlsSupport == tlsSupport
    requires Heeded(s.history, env) && Agrees(s) && !s.stopped
    ensures InCall(s, p, tlsSupport, env)
  {
    hide Heeded, Agrees, Counted;
  }

  lemma {:induction false} ProbeFollows(p: seq<Obs>, at: nat, env: Env)
    requires p != [] && ThinksOfTls(p[|p| - 1])
    ensures Follows(p, TlsProbed(at), env) && OfferedBy(TlsProbed(at)) == {} && TriedBy(TlsProbed(at)) == {}
  {
    hide Pool, LegacyTried;
  }

  lemma {:induction false} InCallThinks(s: State, p: seq<Obs>, env: Env)
    requires InCall(s, p, true, env)
    ensures s.history != [] && ThinksOfTls(s.history[|s.history| - 1]) && Heeded(s.history, env) && Agrees(s) && !s.stopped
  {
    hide Heeded, Agrees, Counted;
  }

  /** It was asked whether TLS can be had. */
  lemma {:induction false} AskedKnown(s: State, env: Env, p: seq<Obs>)
    requires InCall(s, p, true, env)
    ensures var r := TlsAsked(s, env);
      && Heeded(r.history, env) && Agrees(r) && !r.stopped && r.history != []
      && r.history[|r.history| - 1] == TlsProbed(s.tick)
  {
    InCallThinks(s, p, env);
    var s0, o := s.(tick := s.tick + 1), TlsProbed(s.tick);
    hide *;
    ProbeFollows(s.history, s.tick, env);
    TlsAskedIs(s, env);
    TickAgrees(s);
    SameFlags(s0, o);
    AgreesNext(s0, o);
    HeededNext(s.history, o, env);
  }

  lemma {:induction false} TickAgrees(s: State)
    requires Agrees(s)
    ensures Agrees(s.(tick := s.tick + 1))
  {
    hide Pool;
  }

  lemma {:induction false} TlsFollows(p: seq<Obs>, link: Link, env: Env)
    requires p != [] && TlsIsThere(p[|p| - 1], env)
    ensures var o := SentAs(link, StartTls);
      Follows(p, o, env) && Settled(p + [o]) && OfferedBy(o) == {} && TriedBy(o) == {} && o != TlsStarted && o != TlsBarred
  {
    hide Pool, LegacyTried, Counted;
  }

  /** TLS can be had: starttls is sent. */
  lemma {:induction false} StartTlsKnown(s: State, env: Env)
    requires Heeded(s.history, env) && Agrees(s) && !s.stopped && s.history != [] && TlsIsThere(s.history[|s.history| - 1], env)
    ensures Known(Send(AddHandler(s, HandleProceedTls, Some(NS_TLS), None, None), StartTls).(tlsSupport := false), env)
  {
    var o := SentAs(s.link, StartTls);
    TlsFollows(s.history, s.link, env);
    AgreesNext(s, o);
    SentFields(s, StartTls);
    hide Heeded, Follows, Settled, OfferedBy, TriedBy, Pool, SentAs, WithEntry, Send, AddHandler;
    HeededNext(s.history, o, env);
  }

  lemma {:induction false} SentFields(s: State, m: Message)
    ensures var r := Send(AddHandler(s, HandleProceedTls, Some(NS_TLS), None, None), m);
      && r.history == s.history + [SentAs(s.link, m)] && r.sasl == s.sasl && r.secured == s.secured
      && r.tlsDisabled == s.tlsDisabled && r.stopped == s.stopped
  {
    hide WithEntry, SentAs;
  }

  /** TLS cannot be had: `_auth` goes on. */
  lemma {:induction false} NoTlsCallable(s: State, env: Env)
    requires Heeded(s.history, env) && Agrees(s) && !s.stopped && s.history != [] && TlsIsNotThere(s.history[|s.history| - 1], env)
    ensures Callable(s.(tlsSupport := false), env)
  {
    hide Heeded, Pool;
  }

  /** Nothing is left of TLS to try. */
  lemma {:induction false} InCallKnown(s: State, p: seq<Obs>, env: Env)
    requires InCall(s, p, false, env)
    ensures Known(s, env) && CalledLast(s.history) && !s.stopped
  {
    hide Heeded, Pool, LegacyTried, Counted;
  }

  lemma {:induction false} TriedFollows(s: State, m: Mechanism, env: Env)
    requires Known(s, env) && !s.stopped && CalledLast(s.history) && m in s.sasl && (m == Plain ==> DigestMd5 !in s.sasl)
    ensures var o := SentAs(s.link, Message.Auth(m));
      Follows(s.history, o, env) && Settled(s.history + [o]) && OfferedBy(o) == {} && TriedBy(o) == {m} && o != TlsStarted && o != TlsBarred
  {
    hide Heeded, Pool, LegacyTried, Counted;
  }

  lemma {:induction false} TriedAgrees(s: State, r: State, m: Mechanism)
    requires Agrees(s) && r.history == s.history + [SentAs(s.link, Message.Auth(m))] && r.sasl == s.sasl - {m}
    requires r.secured == s.secured && r.tlsDisabled == s.tlsDisabled
    requires OfferedBy(SentAs(s.link, Message.Auth(m))) == {} && TriedBy(SentAs(s.link, Message.Auth(m))) == {m}
    ensures Agrees(r)
  {
    var o := SentAs(s.link, Message.Auth(m));
    hide Pool, OfferedBy, TriedBy;
    PoolNext(s.history, o);
    InNext(s.history, o, TlsStarted);
    InNext(s.history, o, TlsBarred);
    assert Pool(s.history) + {} - {m} == Pool(s.history) - {m};
  }

  lemma {:induction false} TryFields(s: State, m: Mechanism, h: Handler)
    ensures var r := TryMechanism(s, m, h);
      && r.history == s.history + [SentAs(s.link, Message.Auth(m))] && r.sasl == s.sasl - {m} && r.secured == s.secured
      && r.tlsDisabled == s.tlsDisabled && r.stopped == s.stopped && r.tlsSupport == s.tlsSupport
  {
    hide WithEntry, SentAs;
  }

  /** A mechanism is tried, PLAIN only when no DIGEST-MD5 is left. */
  lemma {:induction false} TryMechanismKnown(s: State, m: Mechanism, h: Handler, env: Env)
    requires Known(s, env) && !s.stopped && CalledLast(s.history) && m in s.sasl && (m == Plain ==> DigestMd5 !in s.sasl)
    ensures Known(TryMechanism(s, m, h), env)
  {
    var o := SentAs(s.link, Message.Auth(m));
    TriedFollows(s, m, env);
    TryFields(s, m, h);
    TriedAgrees(s, TryMechanism(s, m, h), m);
    hide Heeded, Follows, Settled, Agrees, OfferedBy, TriedBy, SentAs, TryMechanism, CalledLast;
    HeededNext(s.history, o, env);
  }

  lemma {:induction false} LegacyFollows(s: State, env: Env)
    requires Known(s, env) && !s.stopped && CalledLast(s.history)
    ensures var o := SentAs(s.link, LegacyIq);
      Follows(s.history, o, env) && Settled(s.history + [o]) && OfferedBy(o) == {} && TriedBy(o) == {} && o != TlsStarted && o != TlsBarred
  {
    hide Heeded, Pool, LegacyTried, Counted;
  }

  lemma {:induction false} LegacyKnown(s: State, env: Env)
    requires Known(s, env) && !s.stopped && CalledLast(s.history)
    ensures Known(Request(s, env, HandleLegacy, "_xmpp_auth1", MissingLegacy, LEGACY_TIMEOUT, LegacyIq), env)
  {
    var o, r := SentAs(s.link, LegacyIq), Request(s, env, HandleLegacy, "_xmpp_auth1", MissingLegacy, LEGACY_TIMEOUT, LegacyIq);
    LegacyFollows(s, env);
    AgreesNext(s, o);
    RequestFields(s, env, LegacyIq);
    hide Heeded, Follows, Settled, OfferedBy, TriedBy, Pool, SentAs, Request, CalledLast;
    HeededNext(s.history, o, env);
  }

  lemma {:induction false} RequestFields(s: State, env: Env, m: Message)
    ensures var r := Request(s, env, HandleLegacy, "_xmpp_auth1", MissingLegacy, LEGACY_TIMEOUT, m);
      && r.history == s.history + [SentAs(s.link, m)] && r.sasl == s.sasl && r.secured == s.secured
      && r.tlsDisabled == s.tlsDisabled && r.stopped == s.stopped && r.tlsSupport == s.tlsSupport
  {
    hide WithId, WithTimer, IsTimed, SentAs;
  }

  lemma {:induction false} TryAuthKnown(s: State, env: Env)
    requires Callable(s, env)
    ensures Known(TryAuth(s, env), env)
    decreases s.tlsSupport
  {
    var s0 := Observe(s, AuthCalled(Left(s)));
    CalledKnown(s, env);
    hide Known, Callable, InCall, Left, Observe, Stop, TlsAsked, AddHandler, Send;
    if !s.tlsSupport {
      hide TryAuth;
      TryRestKnown(s, env);
    } else {
      hide TryMechanism, Request, XmppDisconnect;
      var s1 := TlsAsked(s0, env);
      AskedKnown(s0, env, s.history);
      assert s0.tick == s.tick by { SameTick(s); }
      if env(s.tick).tlsAvailable {
        StartTlsKnown(s1, env);
      } else {
        NoTlsCallable(s1, env);
        TryAuthKnown(s1.(tlsSupport := false), env);
      }
    }
  }

  lemma {:induction false} SameTick(s: State)
    ensures Observe(s, AuthCalled(Left(s))).tick == s.tick
  {
    hide Left;
  }

  lemma {:induction false} TryRestKnown(s: State, env: Env)
    requires !s.tlsSupport && InCall(Observe(s, AuthCalled(Left(s))), s.history, false, env)
    ensures Known(TryAuth(s, env), env)
  {
    hide Known, TryMechanism, Request, XmppDisconnect, Left, Stop, InCall;
    var s0 := Observe(s, AuthCalled(Left(s)));
    InCallKnown(s0, s.history, env);
    hide Observe, CalledLast;
    if Anonymous in s0.sasl {
      TryMechanismKnown(s0, Anonymous, HandleSaslResult, env);
    }
    if DigestMd5 in s0.sasl {
      TryMechanismKnown(s0, DigestMd5, HandleDigestChallenge, env);
    } else if Plain in s0.sasl {
      TryMechanismKnown(s0, Plain, HandleSaslResult, env);
    }
    CalledFields(s);
    LegacyKnown(s0, env);
    OtherKnown(s0, env);
  }

  lemma {:induction false} CalledFields(s: State)
    ensures var s0 := Observe(s, AuthCalled(Left(s)));
      s0.sasl == s.sasl && s0.account == s.account
  {
    hide Left;
  }

  lemma {:induction false} StopKnown(s: State, env: Env)
    requires Known(s, env)
    ensures Known(Stop(s), env)
  {
    hide Heeded, Agrees;
  }

  lemma {:induction false} OtherKnown(s: State, env: Env)
    requires Known(s, env) && !s.stopped
    ensures Known(XmppDisconnect(s, env), env) && Known(Stop(s), env)
  {
    hide *;
    StopKnown(s, env);
    DisconnectAside(s, env);
    DisconnectExtends(s, env);
    KeepsMeans(s, XmppDisconnect(s, env));
    AsideIsCalm(s, XmppDisconnect(s, env));
    CalmKnown(s, XmppDisconnect(s, env), env);
  }

  lemma {:induction false} KeepsMeans(s: State, r: State)
    requires Keeps(s, r)
    ensures Extends(s, r)
  {
  }

  /** A message that is no part of the negotiation of TLS and mechanisms. */
  lemma {:induction false} SentCalm(s: State, r: State, m: Message)
    requires r.history == s.history + [SentAs(s.link, m)] && r.sasl == s.sasl && r.secured == s.secured
    requires r.tlsSupport == s.tlsSupport && r.tlsDisabled == s.tlsDisabled
    requires !m.Auth? && m != LegacyIq && m != StartTls
    ensures Calm(s, r)
  {
    var o := SentAs(s.link, m);
    assert Quiet(o) && o != TlsBarred;
    hide Quiet, SentAs;
    assert r.history[|s.history|..] == [o];
  }

  lemma {:induction false} RestartKnown(s: State, open: OpenHandler, env: Env)
    requires Known(s, env) && !s.stopped
    ensures Known(Restart(s, open), env)
  {
    hide Known, Calm, SentAs;
    SentCalm(s, Restart(s, open), StreamHeader);
    CalmKnown(s, Restart(s, open), env);
  }

  lemma {:induction false} OnProceedTlsKnown(s: State, env: Env, st: Stanza)
    requires Known(s, env) && !s.stopped
    ensures Known(OnProceedTls(s, env, st), env)
  {
    hide Known, XmppDisconnect, Restart, Observe, Name;
    var s0 := s.(tick := s.tick + 1);
    SameKnown(s, s0, env);
    OtherKnown(s0, env);
    StartedKnown(s0, env);
    RestartKnown(Observe(s0.(secured := true), TlsStarted), AuthOpen, env);
  }

  lemma {:induction false} StartFollows(p: seq<Obs>, env: Env)
    requires Settled(p)
    ensures Follows(p, TlsStarted, env) && Settled(p + [TlsStarted]) && OfferedBy(TlsStarted) == {} && TriedBy(TlsStarted) == {}
  {
    hide Pool, LegacyTried, Counted;
  }

  /** TLS is up. */
  lemma {:induction false} StartedKnown(s: State, env: Env)
    requires Known(s, env) && !s.stopped
    ensures var r := Observe(s.(secured := true), TlsStarted); Known(r, env) && !r.stopped
  {
    StartFollows(s.history, env);
    StartedAgrees(s, env);
    hide Heeded, Follows, Settled, Pool, OfferedBy, TriedBy, Agrees;
    HeededNext(s.history, TlsStarted, env);
  }

  lemma {:induction false} StartedAgrees(s: State, env: Env)
    requires Known(s, env) && !s.stopped
    ensures Agrees(Observe(s.(secured := true), TlsStarted))
  {
    StartFollows(s.history, env);
    hide Heeded, Settled, Pool, OfferedBy, TriedBy;
    PoolNext(s.history, TlsStarted);
    InNext(s.history, TlsStarted, TlsStarted);
    InNext(s.history, TlsStarted, TlsBarred);
    assert Pool(s.history) + {} - {} == Pool(s.history);
  }

  lemma {:induction false} OnSaslResultKnown(s: State, env: Env, st: Stanza)
    requires Known(s, env) && !s.stopped
    ensures Known(OnSaslResult(s, env, st), env)
  {
    hide Known, Callable, TryAuth, Restart, XmppDisconnect;
    KnownIsCallable(s, env);
    TryAuthKnown(s, env);
    RestartKnown(s, SaslOpen, env);
    OtherKnown(s, env);
  }

  lemma {:induction false} RespondKnown(s: State, env: Env, digest: Digest)
    requires Known(s, env) && !s.stopped
    ensures Known(Respond(s, env, digest), env) && Known(Send(s, Response(None)), env)
  {
    hide Known, AddHandler, Send, XmppDisconnect, Stop;
    OtherKnown(s, env);
    ResponseKnown(s, None, env);
    if digest.Made? {
      RespondedKnown(s, digest.text, env);
    }
  }

  lemma {:induction false} ResponseKnown(s: State, text: Option<string>, env: Env)
    requires Known(s, env) && !s.stopped
    ensures Known(Send(s, Response(text)), env)
  {
    hide Known, Calm, SentAs;
    SentCalm(s, Send(s, Response(text)), Response(text));
    CalmKnown(s, Send(s, Response(text)), env);
  }

  lemma {:induction false} RespondedKnown(s: State, text: string, env: Env)
    requires Known(s, env) && !s.stopped
    ensures Known(Send(AddHandler(s, HandleDigestRspauth, Some(NS_SASL), None, None), Response(Some(text))), env)
  {
    var s1 := AddHandler(s, HandleDigestRspauth, Some(NS_SASL), None, None);
    assert Known(s1, env) && !s1.stopped by {
      hide Known, WithEntry;
      SameKnown(s, s1, env);
    }
    hide Known, AddHandler, Send;
    ResponseKnown(s1, Some(text), env);
  }

  lemma {:induction false} OnDigestChallengeKnown(s: State, env: Env, st: Stanza)
    requires Known(s, env) && !s.stopped
    ensures Known(OnDigestChallenge(s, env, st), env)
  {
    hide Known, OnSaslResult, Respond, Stop, Name, GetText;
    OnSaslResultKnown(s, env, st);
    OtherKnown(s, env);
    SameKnown(s, s.(tick := s.tick + 1), env);
    RespondKnown(s.(tick := s.tick + 1), env, env(s.tick).digest);
  }

  // --------------------------------------------------------------------- features

  lemma {:induction false} ReadFollows(p: seq<Obs>, st: Stanza, env: Env)
    requires Settled(p)
    ensures var o := Handled(HandleFeatures, st);
      && Follows(p, o, env) && Resting(p + [o]) && TriedBy(o) == {}
      && (Urgent(p + [o]) <==> OffersTls(o) && TlsStarted !in p && TlsBarred !in p)
  {
    InNext(p, Handled(HandleFeatures, st), TlsStarted);
    InNext(p, Handled(HandleFeatures, st), TlsBarred);
    hide Pool, LegacyTried, Counted;
  }

  /** What the connection makes of the features is what they offer. */
  lemma {:induction false} SeenIsOffered(s: State, st: Stanza)
    requires !s.tlsSupport
    ensures var o := Handled(HandleFeatures, st);
      && (SaslSeen(s, st).Some? ==> SaslSeen(s, st).value == s.sasl + OfferedBy(o))
      && (TlsSeen(s, st).Some? ==> (TlsSeen(s, st).value <==> OffersTls(o) && !s.secured && !s.tlsDisabled))
  {
    hide TlsSeen, SaslSeen, Offers, Nameless, Lists, Garbled;
    TlsIsOffered(s, st);
    if SaslSeen(s, st).Some? {
      forall m: Mechanism ensures m in SaslSeen(s, st).value <==> m in s.sasl + OfferedBy(Handled(HandleFeatures, st)) {
        SaslIsListed(s, st, m);
      }
    }
  }

  /** The features are read: what they offer is known. */
  lemma {:induction false} ReadCallable(s: State, st: Stanza, tls: bool, sasl: set<Mechanism>, env: Env)
    requires Known(s, env) && !s.stopped && TlsSeen(s, st) == Some(tls) && SaslSeen(s, st) == Some(sasl)
    ensures Callable(DeleteTimed(Observe(s, Handled(HandleFeatures, st)), MissingFeatures).(tlsSupport := tls, sasl := sasl), env)
  {
    var o := Handled(HandleFeatures, st);
    var r := DeleteTimed(Observe(s, o), MissingFeatures).(tlsSupport := tls, sasl := sasl);
    KnownParts(s, env);
    SeenIsOffered(s, st);
    ReadFollows(s.history, st, env);
    ReadFields(s, o, tls, sasl);
    hide *;
    HeededNext(s.history, o, env);
    PoolNext(s.history, o);
    InNext(s.history, o, TlsStarted);
    InNext(s.history, o, TlsBarred);
    assert Pool(s.history) + OfferedBy(o) - {} == s.sasl + OfferedBy(o);
    CallableWhen(r, env);
  }

  lemma {:induction false} KnownParts(s: State, env: Env)
    requires Known(s, env) && !s.stopped
    ensures Heeded(s.history, env) && Settled(s.history) && !s.tlsSupport && s.sasl == Pool(s.history)
    ensures s.secured <==> TlsStarted in s.history
    ensures s.tlsDisabled <==> TlsBarred in s.history
  {
    hide Heeded, Settled, Pool;
  }

  lemma {:induction false} ReadFields(s: State, o: Obs, tls: bool, sasl: set<Mechanism>)
    ensures var r := DeleteTimed(Observe(s, o), MissingFeatures).(tlsSupport := tls, sasl := sasl);
      && r.history == s.history + [o] && r.sasl == sasl && r.secured == s.secured && r.tlsDisabled == s.tlsDisabled
      && r.stopped == s.stopped && r.tlsSupport == tls
  {
    hide WithoutTimer;
  }

  lemma {:induction false} CallableWhen(s: State, env: Env)
    requires Heeded(s.history, env) && !s.stopped && s.sasl == Pool(s.history) && Resting(s.history)
    requires s.tlsSupport <==> Urgent(s.history)
    requires s.secured <==> TlsStarted in s.history
    requires s.tlsDisabled <==> TlsBarred in s.history
    ensures Callable(s, env)
  {
    hide Heeded, Pool, Urgent;
  }

  /** The run stops while the features are read. */
  lemma {:induction false} UnreadKnown(s: State, st: Stanza, tls: bool, env: Env)
    requires Known(s, env) && !s.stopped
    ensures var s0 := DeleteTimed(Observe(s, Handled(HandleFeatures, st)), MissingFeatures);
      Known(Stop(s0), env) && Known(Stop(s0.(tlsSupport := tls)), env)
  {
    ReadFollows(s.history, st, env);
    hide Heeded, Follows, Pool, Urgent, Resting, Agrees, WithoutTimer, TriedBy, OffersTls;
    HeededNext(s.history, Handled(HandleFeatures, st), env);
  }

  lemma {:induction false} SameSeen(s: State, st: Stanza)
    ensures var s0 := Observe(s, Handled(HandleFeatures, st)); TlsSeen(s0, st) == TlsSeen(s, st) && SaslSeen(s0, st) == SaslSeen(s, st)
  {
    hide ChildByName, InNs, Offered;
  }

  lemma {:induction false} FeaturesKnown(s: State, env: Env, st: Stanza)
    requires Known(s, env) && !s.stopped
    ensures Known(OnFeatures(Observe(s, Handled(HandleFeatures, st)), env, st), env)
  {
    hide Known, Callable, DeleteTimed, TlsSeen, SaslSeen, TryAuth, Observe, Stop;
    var s0 := Observe(s, Handled(HandleFeatures, st));
    var tls, sasl := TlsSeen(s, st), SaslSeen(s, st);
    SameSeen(s, st);
    if tls.None? {
      UnreadKnown(s, st, false, env);
    } else if sasl.None? {
      UnreadKnown(s, st, tls.value, env);
    } else {
      ReadCallable(s, st, tls.value, sasl.value, env);
      TryAuthKnown(DeleteTimed(s0, MissingFeatures).(tlsSupport := tls.value, sasl := sasl.value), env);
    }
  }

  lemma {:induction false} OtherStanzaKnown(s: State, env: Env, h: Handler, st: Stanza)
    requires Known(s, env) && !s.stopped && !Token(h)
    ensures Known(OnStanza(s, env, h, st), env)
  {
    var s0 := Observe(s, Handled(h, st));
    assert !Relevant(Handled(h, st)) && Quiet(Handled(h, st)) && Handled(h, st) != TlsBarred;
    hide *;
    ObserveAside(s, Handled(h, st));
    OtherStanzaAside(s, env, h, st);
    OnStanzaExtends(s, env, h, st);
    AsideBetween(s, s0, OnStanza(s, env, h, st));
    AsideIsCalm(s0, OnStanza(s, env, h, st));
    NotedKnown(s, Handled(h, st), env);
    CalmKnown(s0, OnStanza(s, env, h, st), env);
  }

  lemma {:induction false} AsideBetween(s: State, r: State, t: State)
    requires Aside(s, r) && Aside(s, t)
    ensures Aside(r, t)
  {
    hide CoreOf;
  }

  lemma {:induction false} OnStanzaKnown(s: State, env: Env, h: Handler, st: Stanza)
    requires Known(s, env) && !s.stopped
    ensures Known(OnStanza(s, env, h, st), env)
  {
    var s0 := Observe(s, Handled(h, st));
    assert h != HandleFeatures ==> Quiet(Handled(h, st));
    assert Token(h) ==> h == HandleFeatures || h == HandleProceedTls || SaslToken(h);
    assert SaslToken(h) ==> h == HandleSaslResult || h == HandleDigestChallenge || h == HandleDigestRspauth;
    hide *;
    StanzaCases(s, env, h, st);
    if !Token(h) {
      OtherStanzaKnown(s, env, h, st);
    } else if h == HandleFeatures {
      FeaturesKnown(s, env, st);
    } else {
      NotedKnown(s, Handled(h, st), env);
      OnProceedTlsKnown(s0, env, st);
      OnSaslResultKnown(s0, env, st);
      OnDigestChallengeKnown(s0, env, st);
      RespondKnown(s0, env, Faults);
    }
  }

  // ---------------------------------------------------------- dispatch and events

  lemma {:induction false} SameKnown(s: State, r: State, env: Env)
    requires Known(s, env) && r.history == s.history && r.stopped == s.stopped
    requires r.sasl == s.sasl && r.secured == s.secured && r.tlsDisabled == s.tlsDisabled && r.tlsSupport == s.tlsSupport
    ensures Known(r, env)
  {
    hide Heeded, Settled, Resting, Pool;
  }

  lemma {:induction false} FireIdsKnown(s: State, env: Env, st: Stanza, id: string, k: nat, prev: nat, r: nat)
    requires Known(s, env)
    ensures Known(FireIds(s, env, st, id, k, prev, r), env)
    decreases r
  {
    hide Known, OnStanza, Unchained, Stays, Eligible;
    var chain := Chain(s.ids, id);
    if !(r == 0 || s.stopped || k >= |chain| || prev > k) {
      if !Eligible(s, chain[k]) {
        FireIdsKnown(s, env, st, id, k + 1, prev, r - 1);
      } else {
        OnStanzaKnown(s, env, chain[k], st);
        var s1 := OnStanza(s, env, chain[k], st);
        if s1.stopped || k >= |Chain(s1.ids, id)| || Stays(s, env, chain[k], st) {
          FireIdsKnown(s1, env, st, id, k + 1, k + 1, r - 1);
        } else {
          var s2 := s1.(ids := s1.ids[id := Unchained(Chain(s1.ids, id), k, prev)]);
          SameKnown(s1, s2, env);
          FireIdsKnown(s2, env, st, id, prev, prev, r - 1);
        }
      }
    }
  }

  lemma {:induction false} FireListKnown(s: State, env: Env, st: Stanza, i: nat, r: nat)
    requires Known(s, env)
    ensures Known(FireList(s, env, st, i, r), env)
    decreases r
  {
    hide Known, OnStanza, RemoveAt, Stays, Eligible, Matches;
    if !(r == 0 || s.stopped || i >= |s.handlers|) {
      var e := s.handlers[i];
      if !Eligible(s, e.handler) || !Matches(e, st) {
        FireListKnown(s, env, st, i + 1, r - 1);
      } else {
        OnStanzaKnown(s, env, e.handler, st);
        var s1 := OnStanza(s, env, e.handler, st);
        if s1.stopped || i >= |s1.handlers| || Stays(s, env, e.handler, st) {
          FireListKnown(s1, env, st, i + 1, r - 1);
        } else {
          SameKnown(s1, s1.(handlers := RemoveAt(s1.handlers, i)), env);
          FireListKnown(s1.(handlers := RemoveAt(s1.handlers, i)), env, st, i, r - 1);
        }
      }
    }
  }

  /** An observation that says nothing of TLS or mechanisms. */
  lemma {:induction false} NotedKnown(s: State, o: Obs, env: Env)
    requires Known(s, env) && !s.stopped && Quiet(o) && o != TlsBarred
    ensures Known(Observe(s, o), env) && !Observe(s, o).stopped
  {
    QuietNext(s.history, o, env);
    InNext(s.history, o, TlsBarred);
    hide Heeded, Settled, Resting, Pool, Quiet;
  }

  lemma {:induction false} FireByIdKnown(s: State, env: Env, st: Stanza)
    requires Known(s, env)
    ensures Known(FireById(s, env, st), env)
  {
    hide Known, FireIds, Id, Chain;
    if Id(st).Some? {
      BusyKnown(s, Id(st), env);
      FireIdsKnown(s.(busyId := Id(st)), env, st, Id(st).value, 0, 0, |Chain(s.ids, Id(st).value)|);
      BusyKnown(FireIds(s.(busyId := Id(st)), env, st, Id(st).value, 0, 0, |Chain(s.ids, Id(st).value)|), None, env);
    }
  }

  lemma {:induction false} FireListedKnown(s: State, env: Env, st: Stanza)
    requires Known(s, env)
    ensures Known(FireListed(s, env, st), env)
  {
    hide Known, FireList, Enabled;
    if !s.stopped {
      EnabledKnown(s, env);
      FireListKnown(s.(handlers := Enabled(s.handlers)), env, st, 0, |s.handlers|);
    }
  }

  lemma {:induction false} FireStanzaKnown(s: State, env: Env, st: Stanza)
    requires Known(s, env) && !s.stopped
    ensures Known(FireStanza(s, env, st), env)
  {
    assert Quiet(Received(st));
    hide *;
    StanzaFires(s, env, st);
    var s0 := Observe(s, Received(st));
    NotedKnown(s, Received(st), env);
    FireByIdKnown(s0, env, st);
    FireListedKnown(FireById(s0, env, st), env, st);
  }

  lemma {:induction false} BusyKnown(s: State, id: Option<string>, env: Env)
    requires Known(s, env)
    ensures Known(s.(busyId := id), env)
  {
    hide Known;
    SameKnown(s, s.(busyId := id), env);
  }

  lemma {:induction false} EnabledKnown(s: State, env: Env)
    requires Known(s, env)
    ensures Known(s.(handlers := Enabled(s.handlers)), env)
  {
    hide Known, Enabled;
    SameKnown(s, s.(handlers := Enabled(s.handlers)), env);
  }

  /** What user code and the end of a connection do. */
  lemma {:induction false} AsideKnown(s: State, r: State, env: Env)
    requires Known(s, env) && !s.stopped && Aside(s, r) && Extends(s, r)
    ensures Known(r, env)
  {
    hide Known, Extends, Aside, Calm;
    AsideIsCalm(s, r);
    CalmKnown(s, r, env);
  }

  lemma {:induction false} ConnDisconnectKnown(s: State, env: Env)
    requires Known(s, env) && !s.stopped
    ensures Known(ConnDisconnect(s, env), env)
  {
    hide Known, Extends, CoreOf, Notify;
    var s0 := s.(link := Disconnected);
    SameKnown(s, s0, env);
    NotifyAside(s0, env, false);
    NotifyExtends(s0, env, false);
    AsideKnown(s0, Notify(s0, env, false), env);
  }

  lemma {:induction false} TimeoutFollows(p: seq<Obs>, env: Env)
    requires Settled(p)
    ensures var o := Fired(MissingFeatures);
      && Follows(p, o, env) && Resting(p + [o]) && !Urgent(p + [o]) && OfferedBy(o) == {} && TriedBy(o) == {}
  {
    hide Pool, LegacyTried, Counted;
  }

  /** The features were given up: `_auth` may be called. */
  lemma {:induction false} TimeoutCallable(s: State, env: Env)
    requires Known(s, env) && !s.stopped
    ensures Callable(Observe(s, Fired(MissingFeatures)), env)
  {
    var o := Fired(MissingFeatures);
    KnownParts(s, env);
    TimeoutFollows(s.history, env);
    SameFlags(s, o);
    hide *;
    HeededNext(s.history, o, env);
    PoolNext(s.history, o);
    InNext(s.history, o, TlsStarted);
    InNext(s.history, o, TlsBarred);
    assert Pool(s.history) + {} - {} == Pool(s.history);
    CallableWhen(Observe(s, o), env);
  }

  lemma {:induction false} OnTimerKnown(s: State, env: Env, h: Handler)
    requires Known(s, env) && !s.stopped
    ensures Known(OnTimer(s, env, h), env)
  {
    var s0 := Observe(s, Fired(h));
    assert h != MissingFeatures ==> Quiet(Fired(h));
    hide *;
    TimerCases(s, env, h);
    if h == MissingFeatures {
      TimeoutCallable(s, env);
      TryAuthKnown(s0, env);
    } else {
      NotedKnown(s, Fired(h), env);
      OtherTimerKnown(s, env, h);
    }
  }

  lemma {:induction false} OtherTimerKnown(s: State, env: Env, h: Handler)
    requires var s0 := Observe(s, Fired(h)); h != MissingFeatures && Known(s0, env) && !s0.stopped
    ensures Known(OnTimer(s, env, h), env)
  {
    var s0 := Observe(s, Fired(h));
    hide *;
    TimerCases(s, env, h);
    if h == DisconnectCleanup {
      ConnDisconnectKnown(s0, env);
    } else if h.User? {
      CallbackAside(s0, env);
      CallbackExtends(s0, env);
      KeepsMeans(s0, Callback(s0, env));
      AsideKnown(s0, Callback(s0, env), env);
    } else {
      OtherKnown(s0, env);
    }
  }

  lemma {:induction false} FireTimersKnown(s: State, env: Env, i: nat, r: nat)
    requires Known(s, env)
    ensures Known(FireTimers(s, env, i, r), env)
    decreases r
  {
    hide *;
    if r == 0 || s.stopped || i >= |s.timed| {
      TimersEnd(s, env, i, r);
    } else {
      var t := s.timed[i];
      TimersUnfold(s, env, i, r);
      if !Eligible(s, t.handler) {
        FireTimersKnown(s, env, i + 1, r - 1);
      } else if Elapsed(t.lastStamp, env(s.tick).now) < t.period {
        SameKnown(s, s.(tick := s.tick + 1), env);
        FireTimersKnown(s.(tick := s.tick + 1), env, i + 1, r - 1);
      } else {
        var stamped := Stamped(s, env, i);
        StampedKnown(s, env, i);
        OnTimerKnown(stamped, env, t.handler);
        var s1 := OnTimer(stamped, env, t.handler);
        if t.handler.User? && env(stamped.tick).keep {
          FireTimersKnown(s1, env, i + 1, r - 1);
        } else {
          DeletedKnown(s1, t.handler, env);
          FireTimersKnown(DeleteTimed(s1, t.handler), env, i, r - 1);
        }
      }
    }
  }

  lemma {:induction false} StampedKnown(s: State, env: Env, i: nat)
    requires Known(s, env) && i < |s.timed|
    ensures Known(Stamped(s, env, i), env) && Stamped(s, env, i).stopped == s.stopped
  {
    hide Known;
    SameKnown(s, Stamped(s, env, i), env);
  }

  lemma {:induction false} DeletedKnown(s: State, h: Handler, env: Env)
    requires Known(s, env)
    ensures Known(DeleteTimed(s, h), env)
  {
    hide Known, WithoutTimer;
    SameKnown(s, DeleteTimed(s, h), env);
  }

  lemma {:induction false} FireTimedKnown(s: State, env: Env)
    requires Known(s, env)
    ensures Known(FireTimed(s, env), env)
  {
    hide Known, FireTimers, EnabledTimers;
    SameKnown(s, s.(timed := EnabledTimers(s.timed)), env);
    FireTimersKnown(s.(timed := EnabledTimers(s.timed)), env, 0, |s.timed|);
  }

  /** The handlers of an open stream try nothing. */
  lemma {:induction false} OpenHandlersKnown(s: State, env: Env)
    requires Known(s, env)
    ensures Known(OnAuthOpen(s, env), env) && Known(OnSaslOpen(s, env), env)
  {
    hide *;
    OpensAre(s, env);
    var s0 := s.(timed := Restamped(s.timed, env(s.tick).now), tick := s.tick + 1);
    var s1 := AddHandler(s0, HandleError, None, Some("stream:error"), None);
    var s2 := AddHandler(s1, HandleFeatures, None, Some("stream:features"), None);
    RestampKnown(s, env(s.tick).now, env);
    AddHandlerKnown(s0, HandleError, "stream:error", env);
    AddHandlerKnown(s1, HandleFeatures, "stream:features", env);
    AddTimedKnown(s2, env, MissingFeatures, FEATURES_TIMEOUT);
    AddHandlerKnown(s, HandleFeaturesSasl, "stream:features", env);
    AddTimedKnown(AddHandler(s, HandleFeaturesSasl, None, Some("stream:features"), None), env, MissingFeaturesSasl, FEATURES_TIMEOUT);
  }

  lemma {:induction false} AddHandlerKnown(s: State, h: Handler, name: string, env: Env)
    requires Known(s, env)
    ensures Known(AddHandler(s, h, None, Some(name), None), env)
  {
    hide Known, WithEntry;
    SameKnown(s, AddHandler(s, h, None, Some(name), None), env);
  }

  lemma {:induction false} AddTimedKnown(s: State, env: Env, h: Handler, period: nat)
    requires Known(s, env)
    ensures Known(AddTimed(s, env, h, period), env)
  {
    hide Known, WithTimer, IsTimed;
    SameKnown(s, AddTimed(s, env, h, period), env);
  }

  lemma {:induction false} RestampKnown(s: State, now: nat, env: Env)
    requires Known(s, env)
    ensures Known(s.(timed := Restamped(s.timed, now), tick := s.tick + 1), env)
  {
    hide Known, Restamped;
    SameKnown(s, s.(timed := Restamped(s.timed, now), tick := s.tick + 1), env);
  }

  lemma {:induction false} OpenStreamKnown(s: State, env: Env)
    requires Known(s, env)
    ensures Known(OpenStream(s, env), env)
  {
    assert Quiet(Opened);
    hide Known, Quiet, OnAuthOpen, OnSaslOpen, Observe;
    if !s.stopped {
      NotedKnown(s, Opened, env);
      OpenHandlersKnown(Observe(s, Opened), env);
    }
  }

  lemma {:induction false} InStreamKnown(s: State, name: string, hasId: bool, env: Env)
    requires Known(s, env)
    ensures Known(InStream(s, name, hasId), env) && InStream(s, name, hasId).stopped == s.stopped
  {
    hide Known;
    SameKnown(s, InStream(s, name, hasId), env);
  }

  lemma {:induction false} OnStreamStartKnown(s: State, env: Env, name: string, hasId: bool)
    requires Known(s, env) && !s.stopped
    ensures Known(OnStreamStart(s, env, name, hasId), env)
  {
    assert Quiet(BadHeader);
    hide *;
    var s0 := InStream(s, name, hasId);
    StreamStarts(s, env, name, hasId);
    InStreamKnown(s, name, hasId, env);
    OpenStreamKnown(s0, env);
    NotedKnown(s0, BadHeader, env);
    ConnDisconnectKnown(Observe(s0, BadHeader), env);
    OpenStreamKnown(ConnDisconnect(Observe(s0, BadHeader), env), env);
  }

  lemma {:induction false} OnSaxKnown(s: State, env: Env, x: Sax)
    requires Known(s, env)
    ensures Known(OnSax(s, env, x), env)
  {
    hide Known, OnStreamStart, FireStanza, ConnDisconnect, WithoutTimer;
    if !s.stopped {
      match x
      case StreamStart(name, hasId) => OnStreamStartKnown(s, env, name, hasId);
      case StanzaIn(st) => FireStanzaKnown(s, env, st);
      case StreamEnd =>
        var s0 := DeleteTimed(s.(inStream := false, streamDone := true), DisconnectCleanup);
        SameKnown(s, s0, env);
        ConnDisconnectKnown(s0, env);
    }
  }

  lemma {:induction false} OnChunkKnown(s: State, env: Env, chunk: seq<Sax>)
    requires Known(s, env)
    ensures Known(OnChunk(s, env, chunk), env)
    decreases chunk
  {
    hide Known, OnSax;
    if chunk != [] {
      OnSaxKnown(s, env, chunk[0]);
      OnChunkKnown(OnSax(s, env, chunk[0]), env, chunk[1..]);
    }
  }

  lemma {:induction false} OnReadKnown(s: State, env: Env, sax: seq<Sax>, wellFormed: bool)
    requires Known(s, env)
    ensures Known(OnRead(s, env, sax, wellFormed), env)
  {
    hide Known, ConnDisconnect, OnChunk;
    OnChunkKnown(s, env, sax);
    if !OnChunk(s, env, sax).stopped {
      ConnDisconnectKnown(OnChunk(s, env, sax), env);
    }
  }

  lemma {:induction false} ConnectedKnown(s: State, env: Env)
    requires Known(s, env) && !s.stopped
    ensures Known(Send(s.(link := Connected), StreamHeader), env)
  {
    var s1 := s.(link := Connected);
    assert Quiet(Queued(StreamHeader));
    hide Known, Quiet, Observe;
    SameKnown(s, s1, env);
    NotedKnown(s1, Queued(StreamHeader), env);
  }

  lemma {:induction false} OnIoKnown(s: State, env: Env, io: Io)
    requires Known(s, env)
    ensures Known(OnIo(s, env, io), env)
  {
    hide Known, ConnDisconnect, OnRead, Send;
    if s.stopped || io == Idle {
    } else if io == ConnectDone {
      ConnectedKnown(s, env);
    } else if io.Chunk? {
      OnReadKnown(s, env, io.sax, io.wellFormed);
    } else {
      ConnDisconnectKnown(s, env);
    }
  }

  lemma {:induction false} AfterResetKnown(s: State, env: Env, writeFails: bool)
    requires Known(s, env) && !s.stopped
    ensures Known(AfterReset(AfterWrite(s, env, writeFails)), env)
  {
    hide Known, ConnDisconnect;
    ConnDisconnectKnown(s, env);
    SameKnown(AfterWrite(s, env, writeFails), AfterReset(AfterWrite(s, env, writeFails)), env);
  }

  lemma {:induction false} RunOnceKnown(s: State, env: Env, writeFails: bool, io: Io)
    requires Known(s, env) && !s.stopped
    ensures Known(RunOnce(s, env, writeFails, io), env)
  {
    hide Known, AfterWrite, AfterReset, FireTimed, OnIo;
    AfterResetKnown(s, env, writeFails);
    var s2 := AfterReset(AfterWrite(s, env, writeFails));
    FireTimedKnown(s2, env);
    OnIoKnown(FireTimed(s2, env), env, io);
    FireTimedKnown(OnIo(FireTimed(s2, env), env, io), env);
  }

  lemma {:induction false} StepKnown(s: State, env: Env, e: Event)
    requires Known(s, env)
    ensures Known(Step(s, env, e), env)
  {
    hide Known, Extends, CoreOf, RunOnce, Act, WithoutEntry, WithoutId, WithoutTimer;
    if !s.stopped {
      match e
      case Pass(writeFails, io) => RunOnceKnown(s, env, writeFails, io);
      case Call(action) =>
        ActAside(s, env, action);
        ActExtends(s, env, action);
        AsideKnown(s, Act(s, env, action), env);
      case Drop(h, id) => SameKnown(s, DropUser(s, h, id), env);
    }
  }

  lemma {:induction false} RunKnown(s: State, env: Env, events: seq<Event>)
    requires Known(s, env)
    ensures Known(Run(s, env, events), env)
    decreases events
  {
    hide Known, Step;
    if events != [] {
      StepKnown(s, env, events[0]);
      RunKnown(Step(s, env, events[0]), env, events[1..]);
    }
  }

  // --------------------------------------------------------------------- theorems

  /** The connection of every run is known. */
  lemma {:induction false} RunsAreKnown(account: Account, env: Env, events: seq<Event>)
    ensures Known(Run(Init(account), env, events), env)
  {
    assert Known(Init(account), env);
    hide Run;
    RunKnown(Init(account), env, events);
  }

  /** Where a run ends nothing is owed, or it was stopped while features were read. */
  lemma {:induction false} KnownEnds(s: State, env: Env)
    requires Known(s, env)
    ensures Heeded(s.history, env) && Resting(s.history)
    ensures s.history != [] && Urges(s.history[|s.history| - 1]) ==> s.stopped
  {
    hide Heeded, Agrees;
  }

  lemma {:induction false} HeededAt(h: seq<Obs>, i: nat, env: Env)
    requires Heeded(h, env) && i < |h|
    ensures Follows(h[..i], h[i], env)
  {
    hide Follows;
  }

  lemma {:induction false} LastBefore(h: seq<Obs>, i: nat)
    requires i < |h|
    ensures h[..i + 1] != [] && h[..i + 1][|h[..i + 1]| - 1] == h[i]
  {
  }

  /** Each call of `_auth` has left to try just what the history says: TLS if features that
      offer it came right before, on a stream without TLS for which it was not barred; the
      mechanisms offered and not tried; and the legacy request if it was never sent. */
  lemma {:induction false} MeasuresCount(account: Account, env: Env, events: seq<Event>, i: nat)
    requires var h := Run(Init(account), env, events).history; i < |h| && h[i].AuthCalled?
    ensures var h := Run(Init(account), env, events).history; h[i].measure == Counted(h[..i])
  {
    hide Run, Init, Counted, Known, Heeded;
    var s := Run(Init(account), env, events);
    RunsAreKnown(account, env, events);
    KnownEnds(s, env);
    HeededAt(s.history, i, env);
  }

  lemma {:induction false} UrgentFollows(p: seq<Obs>, o: Obs, env: Env)
    requires p != [] && Urges(p[|p| - 1]) && Follows(p, o, env)
    ensures o.AuthCalled? && o.measure.tlsSupport == Urgent(p)
  {
    hide Pool, LegacyTried;
  }

  /** Features, and the end of the wait for them, are followed at once by a call of `_auth`,
      unless the run stops at them. */
  lemma {:induction false} AuthIsCalled(account: Account, env: Env, events: seq<Event>, i: nat)
    requires var h := Run(Init(account), env, events).history; i < |h| && Urges(h[i])
    ensures var s := Run(Init(account), env, events);
      if i + 1 == |s.history| then s.stopped
      else s.history[i + 1].AuthCalled? && s.history[i + 1].measure.tlsSupport == Urgent(s.history[..i + 1])
  {
    var s := Run(Init(account), env, events);
    var h := s.history;
    hide Run, Init, Known, Heeded, Follows, Urgent, Urges;
    RunsAreKnown(account, env, events);
    KnownEnds(s, env);
    LastBefore(h, i);
    if i + 1 < |h| {
      HeededAt(h, i + 1, env);
      UrgentFollows(h[..i + 1], h[i + 1], env);
    } else {
      assert h[..i + 1] == h;
    }
  }

  /** Features that offer TLS, while TLS is neither up nor barred, are followed at once by a
      call of `_auth` that thinks of TLS, unless the run stops at them. */
  lemma {:induction false} TlsOffersAreHeeded(account: Account, env: Env, events: seq<Event>, i: nat)
    requires var h := Run(Init(account), env, events).history;
      i < |h| && OffersTls(h[i]) && TlsStarted !in h[..i] && TlsBarred !in h[..i]
    ensures var s := Run(Init(account), env, events);
      if i + 1 == |s.history| then s.stopped else s.history[i + 1].AuthCalled? && s.history[i + 1].measure.tlsSupport
  {
    var s := Run(Init(account), env, events);
    var h := s.history;
    OfferIsUrgent(h, i);
    hide Run, Init, Urgent;
    AuthIsCalled(account, env, events, i);
  }

  lemma {:induction false} OfferIsUrgent(h: seq<Obs>, i: nat)
    requires i < |h| && OffersTls(h[i]) && TlsStarted !in h[..i] && TlsBarred !in h[..i]
    ensures Urgent(h[..i + 1])
  {
    LastBefore(h, i);
    assert h[..i + 1] == h[..i] + [h[i]];
  }

  lemma {:induction false} ThoughtFollows(p: seq<Obs>, o: Obs, env: Env)
    requires p != [] && Follows(p, o, env)
    ensures o.TlsProbed? <==> ThinksOfTls(p[|p| - 1])
    ensures Asks(o, StartTls) <==> TlsIsThere(p[|p| - 1], env)
    ensures TlsIsNotThere(p[|p| - 1], env) ==> o.AuthCalled? && !o.measure.tlsSupport
  {
    hide Pool, LegacyTried;
  }

  /** When `_auth` thinks of TLS it asks at once whether TLS can be had, and sends starttls
      next exactly if the answer is yes; if not, it is called again without TLS. */
  lemma {:induction false} TlsIsTriedFirst(account: Account, env: Env, events: seq<Event>, i: nat)
    requires var h := Run(Init(account), env, events).history; i < |h| && ThinksOfTls(h[i])
    ensures var h := Run(Init(account), env, events).history;
      && i + 2 < |h| && h[i + 1].TlsProbed?
      && (Asks(h[i + 2], StartTls) <==> env(h[i + 1].at).tlsAvailable)
      && (!env(h[i + 1].at).tlsAvailable ==> h[i + 2].AuthCalled? && !h[i + 2].measure.tlsSupport)
  {
    var s := Run(Init(account), env, events);
    var h := s.history;
    hide Run, Init, Known, Heeded, Follows, Asks;
    RunsAreKnown(account, env, events);
    KnownEnds(s, env);
    LastBefore(h, i);
    HeededAt(h, i + 1, env);
    ThoughtFollows(h[..i + 1], h[i + 1], env);
    assert i + 2 < |h|;
    LastBefore(h, i + 1);
    HeededAt(h, i + 2, env);
    ThoughtFollows(h[..i + 2], h[i + 2], env);
  }

  lemma {:induction false} CalledForTls(h: seq<Obs>, env: Env, i: nat)
    requires Heeded(h, env) && i < |h| && Asks(h[i], StartTls)
    ensures 3 <= i && TlsIsThere(h[i - 1], env) && ThinksOfTls(h[i - 2]) && Urgent(h[..i - 2])
  {
    hide Heeded, Asks, Urgent, Pool, LegacyTried;
    HeededAt(h, i, env);
    assert i > 0;
    LastBefore(h, i - 1);
    HeededAt(h, i - 1, env);
    assert i > 1;
    LastBefore(h, i - 2);
    HeededAt(h, i - 2, env);
    UrgentIsLong(h[..i - 2]);
  }

  lemma {:induction false} UrgentIsLong(p: seq<Obs>)
    requires Urgent(p)
    ensures |p| > 0 && OffersTls(p[|p| - 1]) && TlsStarted !in p && TlsBarred !in p
  {
    hide OffersTls;
  }

  lemma {:induction false} UrgentTwoLater(h: seq<Obs>, env: Env, i: nat)
    requires 3 <= i <= |h| && TlsIsThere(h[i - 1], env) && ThinksOfTls(h[i - 2]) && Urgent(h[..i - 2])
    ensures OffersTls(h[i - 3]) && TlsStarted !in h[..i] && TlsBarred !in h[..i]
  {
    UrgentIsLong(h[..i - 2]);
    hide Urgent, OffersTls;
    assert h[..i - 2][|h[..i - 2]| - 1] == h[i - 3];
    assert h[..i] == h[..i - 2] + [h[i - 2]] + [h[i - 1]];
  }

  /** starttls is sent in no other way: TLS was offered, `_auth` was called, and TLS can be had. */
  lemma {:induction false} TlsWasOffered(account: Account, env: Env, events: seq<Event>, i: nat)
    requires var h := Run(Init(account), env, events).history; i < |h| && Asks(h[i], StartTls)
    ensures var h := Run(Init(account), env, events).history;
      && 3 <= i && TlsIsThere(h[i - 1], env) && ThinksOfTls(h[i - 2]) && OffersTls(h[i - 3])
      && TlsStarted !in h[..i] && TlsBarred !in h[..i]
  {
    hide *;
    var s := Run(Init(account), env, events);
    RunsAreKnown(account, env, events);
    KnownEnds(s, env);
    CalledForTls(s.history, env, i);
    UrgentTwoLater(s.history, env, i);
  }

  /** Features listed the mechanism at j, and it was not tried after that. */
  ghost predicate UntriedSince(h: seq<Obs>, m: Mechanism, j: int) {
    0 <= j < |h| && m in OfferedBy(h[j]) && forall k :: j < k < |h| ==> !Tries(h[k], m)
  }

  lemma {:induction false} UntriedNext(p: seq<Obs>, o: Obs, m: Mechanism, j: int)
    ensures UntriedSince(p + [o], m, j) <==> (j == |p| && m in OfferedBy(o)) || (UntriedSince(p, m, j) && !Tries(o, m))
  {
    var h := p + [o];
    hide OfferedBy, Tries;
    assert forall k :: 0 <= k < |p| ==> h[k] == p[k];
    if UntriedSince(p, m, j) && !Tries(o, m) {
      forall k | j < k < |h| ensures !Tries(h[k], m) {
      }
    }
    if UntriedSince(h, m, j) && j < |p| {
      assert !Tries(h[|p|], m);
      forall k | j < k < |p| ensures !Tries(p[k], m) {
        assert !Tries(h[k], m);
      }
    }
  }

  /** A mechanism is left exactly if features listed it after which it was not tried. */
  lemma {:induction false} PoolMeans(h: seq<Obs>, m: Mechanism)
    ensures m in Pool(h) <==> exists j :: UntriedSince(h, m, j)
    decreases |h|
  {
    hide OfferedBy, TriedBy, Tries, UntriedSince;
    if h == [] {
      forall j ensures !UntriedSince(h, m, j) {
        NotInEmpty(m, j);
      }
    } else {
      var n := |h| - 1;
      PoolMeans(h[..n], m);
      OfferOrTry(h[n], m);
      assert h[..n] + [h[n]] == h;
      hide Pool;
      PoolNext(h[..n], h[n]);
      forall j {
        UntriedNext(h[..n], h[n], m, j);
      }
      if m in OfferedBy(h[n]) {
        assert UntriedSince(h, m, n);
      }
    }
  }

  lemma {:induction false} NotInEmpty(m: Mechanism, j: int)
    ensures !UntriedSince([], m, j)
  {
  }

  lemma {:induction false} OfferOrTry(o: Obs, m: Mechanism)
    ensures m in TriedBy(o) <==> Tries(o, m)
    ensures m in OfferedBy(o) ==> !Tries(o, m)
  {
    hide Lists;
  }

  /** On every run a mechanism is tried only if it was listed and not tried since. */
  lemma {:induction false} TriedWasOffered(account: Account, env: Env, events: seq<Event>, i: nat, m: Mechanism)
    requires var h := Run(Init(account), env, events).history; i < |h| && Tries(h[i], m)
    ensures m in Pool(Run(Init(account), env, events).history[..i])
  {
    hide Run, Init, Counted, Known, Heeded, Pool;
    var s := Run(Init(account), env, events);
    RunsAreKnown(account, env, events);
    KnownEnds(s, env);
    HeededAt(s.history, i, env);
    OfferOrTry(s.history[i], m);
  }

  /** On every run PLAIN is tried only when no DIGEST-MD5 is left that was offered. */
  lemma {:induction false} PlainIsTriedLast(account: Account, env: Env, events: seq<Event>, i: nat)
    requires var h := Run(Init(account), env, events).history; i < |h| && Tries(h[i], Plain)
    ensures DigestMd5 !in Pool(Run(Init(account), env, events).history[..i])
  {
    hide Run, Init, Counted, Known, Heeded, Pool;
    var s := Run(Init(account), env, events);
    RunsAreKnown(account, env, events);
    KnownEnds(s, env);
    HeededAt(s.history, i, env);
  }
}
