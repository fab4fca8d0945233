/** What the library waits for: the timers of replies that are missing (src/auth.c:187-214,
    src/conn.c:290-310), and what the user takes out of the lists. */
module Waiting {
  import opened Common
  import opened Stanzas
  import opened Negotiation
  import opened Meanings
  import opened Clocks

  /** The timers that the library itself starts, to give up waiting. */
  predicate Missing(h: Handler) {
    h == MissingFeatures || h == MissingFeaturesSasl || h == MissingBind || h == MissingSession || h == MissingLegacy
  }

  /** The same replies are waited for, since the same time and for as long. */
  ghost predicate SameWaits(ts: seq<Timer>, us: seq<Timer>) {
    forall t: Timer :: Missing(t.handler) ==> (t in us <==> t in ts)
  }

  /** One wait is over, and another begins if that reply is not waited for already. */
  ghost predicate WaitsNext(ts: seq<Timer>, us: seq<Timer>, over: Handler, next: Option<Timer>) {
    forall t: Timer :: Missing(t.handler) ==>
      (t in us <==> (t in ts && t.handler != over) || (next == Some(t) && (t.handler == over || !IsTimed(ts, t.handler))))
  }

  // --------------------------------------------------------------------- the lists

  lemma {:induction false} TimerCut(ts: seq<Timer>, h: Handler)
    requires DistinctTimers(ts)
    ensures forall t :: t in WithoutTimer(ts, h) <==> t in ts && t.handler != h
  {
    if ts != [] {
      TimerCut(ts[1..], h);
      assert ts == [ts[0]] + ts[1..];
    }
  }

  lemma {:induction false} TimerAdded(ts: seq<Timer>, u: Timer)
    ensures forall t :: t in WithTimer(ts, u) <==> t in ts || (t == u && !IsTimed(ts, u.handler))
  {
  }

  lemma {:induction false} IsTimedMeans(ts: seq<Timer>, h: Handler)
    ensures IsTimed(ts, h) <==> exists t :: t in ts && t.handler == h
  {
    if IsTimed(ts, h) {
      var i :| 0 <= i < |ts| && ts[i].handler == h;
      assert ts[i] in ts;
    }
  }

  // ---------------------------------------------------------------- user code

  lemma {:induction false} OtherAdded(ts: seq<Timer>, u: Timer)
    requires !Missing(u.handler)
    ensures SameWaits(ts, WithTimer(ts, u))
  {
    TimerAdded(ts, u);
    hide WithTimer;
  }

  lemma {:induction false} DisconnectWaits(s: State, env: Env)
    ensures SameWaits(s.timed, XmppDisconnect(s, env).timed)
  {
    OtherAdded(s.timed, Timer(DisconnectCleanup, DISCONNECT_TIMEOUT, env(s.tick).now, false));
    hide WithTimer, SentAs, Missing;
  }

  lemma {:induction false} ActWaits(s: State, env: Env, a: Action)
    ensures SameWaits(s.timed, Act(s, env, a).timed)
  {
    hide *;
    ActCases(s, env, a);
    SelfWaits(s.timed);
    var none := Entry(User(0), None, None, None, false);
    match a
    case AddStanza(n, ns, name, typ) =>
      AddHandlerIs(s, User(n), ns, name, typ);
      SameLists(s, User(n), Entry(User(n), ns, name, typ, false), "", StreamFooter);
    case AddById(n, id) => SameLists(s, User(n), none, id, StreamFooter);
    case AddTimer(n, period) => UserTimerWaits(s, env, n, period);
    case SendData(data) => SameLists(s, User(0), none, "", UserData(data));
    case Disconnect => DisconnectWaits(s, env);
    case DisableTls => SameLists(s, User(0), none, "", StreamFooter);
  }

  lemma {:induction false} SelfWaits(ts: seq<Timer>)
    ensures SameWaits(ts, ts)
  {
  }

  lemma {:induction false} UserTimerWaits(s: State, env: Env, n: nat, period: nat)
    ensures SameWaits(s.timed, AddTimed(s, env, User(n), period).timed)
  {
    OtherAdded(s.timed, Timer(User(n), period, env(s.tick).now, false));
    hide WithTimer, SameWaits, IsTimed;
  }

  lemma {:induction false} SameLists(s: State, h: Handler, e: Entry, id: string, m: Message)
    ensures s.(handlers := WithEntry(s.handlers, e)).timed == s.timed && AddId(s, h, id).timed == s.timed
    ensures Send(s, m).timed == s.timed && Stop(s).timed == s.timed
    ensures Observe(s.(tlsDisabled := true), TlsBarred).timed == s.timed
  {
    hide WithEntry, WithId, SentAs;
  }

  lemma {:induction false} AddHandlerIs(s: State, h: Handler, ns: Option<string>, name: Option<string>, typ: Option<string>)
    ensures AddHandler(s, h, ns, name, typ) == s.(handlers := WithEntry(s.handlers, Entry(h, ns, name, typ, false)))
  {
    hide WithEntry;
  }

  lemma {:induction false} PerformWaits(s: State, env: Env, actions: seq<Action>)
    ensures SameWaits(s.timed, Perform(s, env, actions).timed)
    decreases actions
  {
    if actions != [] && !s.stopped {
      ActWaits(s, env, actions[0]);
      PerformWaits(Act(s, env, actions[0]), env, actions[1..]);
      hide Act, Missing;
    }
  }

  lemma {:induction false} CallbackWaits(s: State, env: Env)
    ensures SameWaits(s.timed, Callback(s, env).timed)
  {
    PerformWaits(s.(tick := s.tick + 1), env, env(s.tick).actions);
    hide Perform, Missing;
  }

  lemma {:induction false} AuthenticateWaits(s: State, env: Env)
    ensures SameWaits(s.timed, Authenticate(s, env).timed)
  {
    CallbackWaits(Observe(Observe(s.(authenticated := true), Authenticated), Notified(true)), env);
    hide Callback, Missing;
  }

  // -------------------------------------------------------------- the replies

  lemma {:induction false} OverOnly(ts: seq<Timer>, us: seq<Timer>, over: Handler)
    requires DistinctTimers(ts) && SameWaits(WithoutTimer(ts, over), us)
    ensures WaitsNext(ts, us, over, None)
  {
    TimerCut(ts, over);
    hide WithoutTimer, Missing;
  }

  lemma {:induction false} OverAndNext(ts: seq<Timer>, us: seq<Timer>, over: Handler, next: Timer)
    requires DistinctTimers(ts) && us == WithTimer(WithoutTimer(ts, over), next)
    ensures WaitsNext(ts, us, over, Some(next))
  {
    var cut := WithoutTimer(ts, over);
    TimerCut(ts, over);
    TimerAdded(cut, next);
    IsTimedMeans(cut, next.handler);
    IsTimedMeans(ts, next.handler);
    hide WithoutTimer, WithTimer, Missing, IsTimed;
  }

  lemma {:induction false} RequestTimed(s: State, env: Env, h: Handler, id: string, timer: Handler, period: nat, m: Message)
    ensures Request(s, env, h, id, timer, period, m).timed == WithTimer(s.timed, Timer(timer, period, env(s.tick).now, false))
  {
    hide WithTimer, WithId, SentAs, IsTimed;
  }

  /** The reply to the bind request: it is waited for no longer, and the one to the session
      request is, for 15 seconds, if the stream asks for a session and the bind succeeded. */
  lemma {:induction false} AfterBind(s: State, env: Env, st: Stanza)
    requires DistinctTimers(s.timed)
    ensures WaitsNext(s.timed, OnBind(s, env, st).timed, MissingBind,
      if Bears(st, "type", "result") && s.sessionRequired then Some(Timer(MissingSession, 15000, env(s.tick).now, false)) else None)
  {
    var s0 := DeleteTimed(s, MissingBind);
    QueriesAre(st, "result");
    hide Bears, Type, WaitsNext, WithTimer, WithoutTimer, DistinctTimers, SameWaits, Request, Authenticate, XmppDisconnect;
    if !Bears(st, "type", "result") {
      DisconnectWaits(s0, env);
      OverOnly(s.timed, OnBind(s, env, st).timed, MissingBind);
    } else if s.sessionRequired {
      RequestTimed(s0, env, HandleSession, "_xmpp_session1", MissingSession, SESSION_TIMEOUT, SessionIq);
      OverAndNext(s.timed, OnBind(s, env, st).timed, MissingBind, Timer(MissingSession, 15000, env(s.tick).now, false));
    } else {
      AuthenticateWaits(s0, env);
      OverOnly(s.timed, OnBind(s, env, st).timed, MissingBind);
    }
  }

  /** The replies to the session request and to the legacy request. */
  lemma {:induction false} AfterSession(s: State, env: Env, st: Stanza)
    requires DistinctTimers(s.timed)
    ensures WaitsNext(s.timed, OnSession(s, env, st).timed, MissingSession, None)
    ensures WaitsNext(s.timed, OnLegacy(s, env, st).timed, MissingLegacy, None)
  {
    var s0, s1 := DeleteTimed(s, MissingSession), DeleteTimed(s, MissingLegacy);
    hide Type, Name, WaitsNext, WithoutTimer, DistinctTimers, SameWaits, Authenticate, XmppDisconnect;
    DisconnectWaits(s0, env);
    AuthenticateWaits(s0, env);
    OverOnly(s.timed, OnSession(s, env, st).timed, MissingSession);
    DisconnectWaits(s1, env);
    AuthenticateWaits(s1, env);
    OverOnly(s.timed, OnLegacy(s, env, st).timed, MissingLegacy);
  }

  /** The resource that is asked for: none if the account has none, or an empty one. */
  function Wanted(account: Account): Option<string> {
    if account.resource.Some? && account.resource.value != "" then account.resource else None
  }

  lemma {:induction false} BindAsked(s: State, env: Env, bind: Stanza)
    ensures var r := BindResource(s, env, Some(bind));
      && r.bindRequired == s.bindRequired && r.sessionRequired == s.sessionRequired
      && (s.bindRequired ==>
           && r.timed == WithTimer(s.timed, Timer(MissingBind, 15000, env(s.tick).now, false))
           && r.history == s.history + [SentAs(s.link, BindIq(bind, Wanted(s.account)))])
      && (!s.bindRequired ==> r == XmppDisconnect(s, env))
  {
    hide WithTimer, WithId, SentAs, IsTimed;
  }

  lemma {:induction false} OffersRead(s: State, env: Env, st: Stanza)
    requires !Nameless(st, "bind") && !Nameless(st, "session")
    ensures var s0 := DeleteTimed(s, MissingFeaturesSasl);
      OnFeaturesSasl(s, env, st)
        == BindResource(s0.(bindRequired := s.bindRequired || Offers(st, "bind", "urn:ietf:params:xml:ns:xmpp-bind"),
                            sessionRequired := s.sessionRequired || Offers(st, "session", "urn:ietf:params:xml:ns:xmpp-session")),
                        env, ChildByName(st, "bind"))
  {
    OfferRead(st, "bind", "urn:ietf:params:xml:ns:xmpp-bind");
    OfferRead(st, "session", "urn:ietf:params:xml:ns:xmpp-session");
    hide Offers, Nameless, ChildByName, InNs, BindResource, WithoutTimer;
  }

  lemma {:induction false} Prepared(s: State, bind: bool, session: bool)
    ensures var r := DeleteTimed(s, MissingFeaturesSasl).(bindRequired := bind, sessionRequired := session);
      && r.timed == WithoutTimer(s.timed, MissingFeaturesSasl) && r.history == s.history && r.link == s.link
      && r.account == s.account && r.tick == s.tick && r.bindRequired == bind && r.sessionRequired == session
  {
    hide WithoutTimer;
  }

  /** The features after SASL, with a child `<bind/>`: what they offer is remembered. If a
      resource is to be bound it is asked for, and the reply is waited for, for 15 seconds. */
  lemma {:induction false} AfterFeaturesSasl(s: State, env: Env, st: Stanza, bind: Stanza)
    requires DistinctTimers(s.timed) && !Nameless(st, "bind") && !Nameless(st, "session")
    requires ChildByName(st, "bind") == Some(bind)
    ensures var r := OnFeaturesSasl(s, env, st);
      && (r.bindRequired <==> s.bindRequired || Offers(st, "bind", "urn:ietf:params:xml:ns:xmpp-bind"))
      && (r.sessionRequired <==> s.sessionRequired || Offers(st, "session", "urn:ietf:params:xml:ns:xmpp-session"))
      && WaitsNext(s.timed, r.timed, MissingFeaturesSasl,
           if r.bindRequired then Some(Timer(MissingBind, 15000, env(s.tick).now, false)) else None)
      && (r.bindRequired ==> r.history == s.history + [SentAs(s.link, BindIq(bind, Wanted(s.account)))])
  {
    hide *;
    var b := s.bindRequired || Offers(st, "bind", "urn:ietf:params:xml:ns:xmpp-bind");
    var n := s.sessionRequired || Offers(st, "session", "urn:ietf:params:xml:ns:xmpp-session");
    var s1 := DeleteTimed(s, MissingFeaturesSasl).(bindRequired := b, sessionRequired := n);
    Prepared(s, b, n);
    OffersRead(s, env, st);
    BindAsked(s1, env, bind);
    if b {
      OverAndNext(s.timed, OnFeaturesSasl(s, env, st).timed, MissingFeaturesSasl, Timer(MissingBind, 15000, env(s.tick).now, false));
    } else {
      DisconnectWaits(s1, env);
      OverOnly(s.timed, OnFeaturesSasl(s, env, st).timed, MissingFeaturesSasl);
    }
  }

  /** The features: they are waited for no longer, and nothing else is ended. */
  lemma {:induction false} AfterFeatures(s: State, env: Env, st: Stanza)
    requires DistinctTimers(s.timed)
    ensures var r := OnFeatures(s, env, st);
      exists next :: WaitsNext(s.timed, r.timed, MissingFeatures, next)
        && (next.Some? ==> next.value.handler == MissingLegacy && next.value.period == 15000 && AsksLegacy(r.history))
  {
    var r, s0 := OnFeatures(s, env, st), DeleteTimed(s, MissingFeatures);
    var tls, sasl := TlsSeen(s, st), SaslSeen(s, st);
    hide TlsSeen, SaslSeen, TryAuth, WithoutTimer, DistinctTimers, SameWaits, WaitsNext, AsksLegacy;
    if tls.Some? && sasl.Some? {
      var s1 := s0.(tlsSupport := tls.value, sasl := sasl.value);
      var next := TryWaits(s1, env);
      if next.Some? {
        OverAndNext(s.timed, r.timed, MissingFeatures, next.value);
      } else {
        OverOnly(s.timed, r.timed, MissingFeatures);
      }
      assert WaitsNext(s.timed, r.timed, MissingFeatures, next);
    } else {
      SelfWaits(s0.timed);
      OverOnly(s.timed, r.timed, MissingFeatures);
      assert WaitsNext(s.timed, r.timed, MissingFeatures, None);
    }
  }

  ghost predicate AsksLegacy(h: seq<Obs>) {
    h != [] && (h[|h| - 1] == Queued(LegacyIq) || h[|h| - 1] == Dropped(LegacyIq))
  }

  lemma {:induction false} TryParts(s: State, env: Env)
    ensures forall m, h :: TryMechanism(s, m, h).timed == s.timed
    ensures Stop(s).timed == s.timed && SameWaits(s.timed, s.timed)
    ensures SameWaits(s.timed, XmppDisconnect(s, env).timed)
    ensures TlsAsked(s, env).(tlsSupport := false).timed == s.timed
    ensures Send(AddHandler(TlsAsked(s, env), HandleProceedTls, Some(NS_TLS), None, None), StartTls).(tlsSupport := false).timed == s.timed
  {
    DisconnectWaits(s, env);
    SelfWaits(s.timed);
    hide SameWaits, WithEntry, SentAs, XmppDisconnect;
  }

  lemma {:induction false} LegacyParts(s: State, env: Env)
    ensures var r := Request(s, env, HandleLegacy, "_xmpp_auth1", MissingLegacy, LEGACY_TIMEOUT, LegacyIq);
      && r.timed == WithTimer(s.timed, Timer(MissingLegacy, 15000, env(s.tick).now, false)) && AsksLegacy(r.history)
  {
    hide WithTimer, WithId, IsTimed;
  }

  lemma {:induction false} SameObserved(s: State, o: Obs)
    ensures var r := Observe(s, o); r.timed == s.timed && r.tick == s.tick && r.account == s.account && r.sasl == s.sasl
  {
  }

  /** `_auth` begins to wait for one reply at most, to the legacy request. */
  lemma {:induction false} TryWaits(s: State, env: Env) returns (next: Option<Timer>)
    ensures next.None? ==> SameWaits(s.timed, TryAuth(s, env).timed)
    ensures next.Some? ==>
      && next.value.handler == MissingLegacy && next.value.period == 15000
      && TryAuth(s, env).timed == WithTimer(s.timed, next.value) && AsksLegacy(TryAuth(s, env).history)
    decreases s.tlsSupport
  {
    var s0 := Observe(s, AuthCalled(Left(s)));
    SameObserved(s, AuthCalled(Left(s)));
    TryParts(s0, env);
    LegacyParts(s0, env);
    hide SameWaits, TryMechanism, XmppDisconnect, Stop, TlsAsked, Send, AddHandler, Request, WithTimer, AsksLegacy, Left, Observe;
    next := None;
    if s.tlsSupport {
      if !env(s.tick).tlsAvailable {
        next := TryWaits(TlsAsked(s0, env).(tlsSupport := false), env);
      }
    } else if s.account.node.Some? && DigestMd5 !in s.sasl && Plain !in s.sasl && s.account.client
      && s.account.pass.Some? && s.account.resource.Some? {
      next := Some(Timer(MissingLegacy, 15000, env(s.tick).now, false));
    }
  }

  // ------------------------------------------------------------------- the opens

  lemma {:induction false} RestampedTimed(ts: seq<Timer>, now: nat, h: Handler)
    ensures |Restamped(ts, now)| == |ts| && forall i :: 0 <= i < |ts| ==> Restamped(ts, now)[i] == ts[i].(lastStamp := now)
    ensures IsTimed(Restamped(ts, now), h) ==> IsTimed(ts, h)
  {
    if i :| 0 <= i < |ts| && Restamped(ts, now)[i].handler == h {
      assert ts[i].handler == h;
    }
  }

  lemma {:induction false} NewTimer(ts: seq<Timer>, t: Timer)
    requires !IsTimed(ts, t.handler)
    ensures WithTimer(ts, t) == ts + [t]
  {
  }

  lemma {:induction false} OpenTimers(s: State, env: Env)
    ensures OnAuthOpen(s, env).timed
      == WithTimer(Restamped(s.timed, env(s.tick).now), Timer(MissingFeatures, 15000, env(s.tick + 1).now, false))
    ensures OnSaslOpen(s, env).timed == WithTimer(s.timed, Timer(MissingFeaturesSasl, 15000, env(s.tick).now, false))
  {
    hide WithEntry, WithTimer, Restamped, IsTimed;
  }

  /** The stream is open: every timer begins anew, and the features are waited for, for 15
      seconds from now; after SASL the other timers go on. */
  lemma {:induction false} AfterOpen(s: State, env: Env)
    ensures !IsTimed(s.timed, MissingFeatures) ==> var r := OnAuthOpen(s, env);
      && |r.timed| == |s.timed| + 1 && r.timed[|s.timed|] == Timer(MissingFeatures, 15000, env(s.tick + 1).now, false)
      && forall i :: 0 <= i < |s.timed| ==> r.timed[i] == s.timed[i].(lastStamp := env(s.tick).now)
    ensures !IsTimed(s.timed, MissingFeaturesSasl) ==>
      OnSaslOpen(s, env).timed == s.timed + [Timer(MissingFeaturesSasl, 15000, env(s.tick).now, false)]
  {
    hide *;
    OpenTimers(s, env);
    RestampedTimed(s.timed, env(s.tick).now, MissingFeatures);
    if !IsTimed(s.timed, MissingFeatures) {
      NewTimer(Restamped(s.timed, env(s.tick).now), Timer(MissingFeatures, 15000, env(s.tick + 1).now, false));
    }
    if !IsTimed(s.timed, MissingFeaturesSasl) {
      NewTimer(s.timed, Timer(MissingFeaturesSasl, 15000, env(s.tick).now, false));
    }
  }

  /** An end that is asked for is forced after two seconds. */
  lemma {:induction false} AfterDisconnect(s: State, env: Env)
    ensures s.link != Disconnected && !IsTimed(s.timed, DisconnectCleanup) ==>
      XmppDisconnect(s, env).timed == s.timed + [Timer(DisconnectCleanup, 2000, env(s.tick).now, false)]
  {
    hide IsTimed, SentAs;
  }

  // ----------------------------------------------------------- what the user drops

  /** The first entry of a kind is taken out, and the others are left in their order. */
  ghost predicate CutFirst<T>(a: seq<T>, b: seq<T>, k: nat) {
    if k < |a| then b == a[..k] + a[k + 1..] else b == a
  }

  lemma {:induction false} CutLater<T>(a: seq<T>, b: seq<T>, k: nat)
    requires a != [] && CutFirst(a[1..], b, k)
    ensures CutFirst(a, [a[0]] + b, k + 1)
  {
    if k + 1 < |a| {
      assert a[..k + 1] == [a[0]] + a[1..][..k];
    }
  }

  lemma {:induction false} EntryCut(hs: seq<Entry>, h: Handler) returns (k: nat)
    ensures k <= |hs| && (forall i :: 0 <= i < k ==> hs[i].handler != h) && (k < |hs| ==> hs[k].handler == h)
    ensures CutFirst(hs, WithoutEntry(hs, h), k)
  {
    k := 0;
    if hs != [] && hs[0].handler != h {
      k := EntryCut(hs[1..], h);
      hide CutFirst;
      CutLater(hs, WithoutEntry(hs[1..], h), k);
      k := k + 1;
    }
  }

  lemma {:induction false} HandlerCut(chain: seq<Handler>, h: Handler) returns (k: nat)
    ensures k <= |chain| && (forall i :: 0 <= i < k ==> chain[i] != h) && (k < |chain| ==> chain[k] == h)
    ensures CutFirst(chain, WithoutHandler(chain, h), k)
  {
    k := 0;
    if chain != [] && chain[0] != h {
      k := HandlerCut(chain[1..], h);
      hide CutFirst;
      CutLater(chain, WithoutHandler(chain[1..], h), k);
      k := k + 1;
    }
  }

  lemma {:induction false} TimerCutAt(ts: seq<Timer>, h: Handler) returns (k: nat)
    ensures k <= |ts| && (forall i :: 0 <= i < k ==> ts[i].handler != h) && (k < |ts| ==> ts[k].handler == h)
    ensures CutFirst(ts, WithoutTimer(ts, h), k)
  {
    k := 0;
    if ts != [] && ts[0].handler != h {
      k := TimerCutAt(ts[1..], h);
      hide CutFirst;
      CutLater(ts, WithoutTimer(ts[1..], h), k);
      k := k + 1;
    }
  }

  /** A user's handler that is dropped is in no list any more where it was once: the list of
      stanza handlers, the chain of its id, and the timers. All the others stay, in their order,
      and the chains of other ids too. */
  lemma {:induction false} UserDropped(s: State, h: Handler, id: string) returns (i: nat, j: nat, k: nat)
    ensures var r := DropUser(s, h, id);
      && CutFirst(s.handlers, r.handlers, i) && CutFirst(s.timed, r.timed, k)
      && CutFirst(Chain(s.ids, id), Chain(r.ids, id), j)
      && (forall other :: other != id ==> Chain(r.ids, other) == Chain(s.ids, other))
      && r.history == s.history && r.tick == s.tick
    ensures i <= |s.handlers| && (forall x :: 0 <= x < i ==> s.handlers[x].handler != h) && (i < |s.handlers| ==> s.handlers[i].handler == h)
    ensures var c := Chain(s.ids, id); j <= |c| && (forall x :: 0 <= x < j ==> c[x] != h) && (j < |c| ==> c[j] == h)
    ensures k <= |s.timed| && (forall x :: 0 <= x < k ==> s.timed[x].handler != h) && (k < |s.timed| ==> s.timed[k].handler == h)
  {
    i := EntryCut(s.handlers, h);
    j := HandlerCut(Chain(s.ids, id), h);
    k := TimerCutAt(s.timed, h);
    assert WithoutHandler([], h) == [];
    hide WithoutEntry, WithoutHandler, WithoutTimer, CutFirst;
  }
}
