/** What no handler does: while one runs, the list of handlers only grows at its end, the
    link stays as it is, and nothing is sent that the link does not take. */
module Frames {
  import opened Common
  import opened Stanzas
  import opened Negotiation

  predicate Distinct(hs: seq<Entry>) {
    forall i, j :: 0 <= i < j < |hs| ==> hs[i].handler != hs[j].handler
  }

  /** Observations that belong to the handler that is running. */
  predicate Inner(link: Link, o: Obs) {
    match o
    case Queued(_) => link == Connected
    case Dropped(_) => link != Connected
    case AuthCalled(_) => true
    case TlsBarred => true
    case TlsProbed(_) => true
    case TlsStarted => true
    case Authenticated => true
    case Notified(_) => true
    case _ => false
  }

  ghost predicate AllInner(link: Link, os: seq<Obs>) {
    forall i :: 0 <= i < |os| ==> Inner(link, os[i])
  }

  /** Entries that were added during a dispatch are not called by it. */
  ghost predicate AllNew(hs: seq<Entry>) {
    forall i :: 0 <= i < |hs| ==> !hs[i].enabled
  }

  ghost predicate Extends(s: State, r: State) {
    && r.account == s.account && r.link == s.link && r.inStream == s.inStream && r.streamDone == s.streamDone
    && r.busyId == s.busyId
    && (s.authenticated ==> r.authenticated)
    && s.handlers <= r.handlers && (Distinct(s.handlers) ==> Distinct(r.handlers))
    && AllNew(r.handlers[|s.handlers|..])
    && s.history <= r.history && AllInner(s.link, r.history[|s.history|..])
    && BarredBy(s.tlsDisabled, r.tlsDisabled, r.history[|s.history|..])
  }

  /** TLS is barred from the observation that says so on. */
  predicate BarredBy(was: bool, now: bool, os: seq<Obs>) {
    now <==> was || TlsBarred in os
  }

  /** The same, of a handler that does not authenticate. */
  ghost predicate Keeps(s: State, r: State) {
    Extends(s, r) && r.authenticated == s.authenticated
  }

  // ---------------------------------------------------------- how frames compose

  lemma {:induction false} ExtendsSelf(s: State)
    ensures Keeps(s, s)
  {
    hide Distinct;
  }

  lemma {:induction false} InnerJoins(link: Link, a: seq<Obs>, b: seq<Obs>, c: seq<Obs>)
    requires a <= b <= c && AllInner(link, b[|a|..]) && AllInner(link, c[|b|..])
    ensures a <= c && AllInner(link, c[|a|..])
  {
    hide Inner;
    assert c[|a|..] == b[|a|..] + c[|b|..];
  }

  lemma {:induction false} BarredJoins(p: bool, q: bool, r: bool, a: seq<Obs>, b: seq<Obs>, c: seq<Obs>)
    requires a <= b <= c && BarredBy(p, q, b[|a|..]) && BarredBy(q, r, c[|b|..])
    ensures a <= c && BarredBy(p, r, c[|a|..])
  {
    assert c[|a|..] == b[|a|..] + c[|b|..];
  }

  lemma {:induction false} NewJoins(a: seq<Entry>, b: seq<Entry>, c: seq<Entry>)
    requires a <= b <= c && AllNew(b[|a|..]) && AllNew(c[|b|..])
    ensures a <= c && AllNew(c[|a|..])
  {
    assert c[|a|..] == b[|a|..] + c[|b|..];
  }

  lemma {:induction false} ExtendsJoins(s: State, r: State, t: State)
    requires Extends(s, r) && Extends(r, t)
    ensures Extends(s, t)
  {
    hide Distinct, AllInner, AllNew, BarredBy;
    InnerJoins(s.link, s.history, r.history, t.history);
    BarredJoins(s.tlsDisabled, r.tlsDisabled, t.tlsDisabled, s.history, r.history, t.history);
    NewJoins(s.handlers, r.handlers, t.handlers);
  }

  lemma {:induction false} KeepsJoins(s: State, r: State, t: State)
    requires Keeps(s, r) && Keeps(r, t)
    ensures Keeps(s, t)
  {
    hide Extends;
    ExtendsJoins(s, r, t);
  }

  /** Fields a frame does not speak of. */
  lemma {:induction false} ExtendsElse(s: State, r: State)
    requires r.account == s.account && r.link == s.link && r.inStream == s.inStream && r.streamDone == s.streamDone
    requires r.authenticated == s.authenticated && r.handlers == s.handlers && r.history == s.history && r.busyId == s.busyId
    requires r.tlsDisabled == s.tlsDisabled
    ensures Keeps(s, r)
  {
    hide Distinct;
  }

  lemma {:induction false} ObserveExtends(s: State, o: Obs)
    requires Inner(s.link, o) && o != TlsBarred
    ensures Keeps(s, Observe(s, o))
  {
    hide Distinct, Inner;
  }

  lemma {:induction false} SendExtends(s: State, m: Message)
    ensures Keeps(s, Send(s, m))
  {
    hide Keeps;
    ObserveExtends(s, SentAs(s.link, m));
  }

  lemma {:induction false} AddHandlerExtends(s: State, h: Handler, ns: Option<string>, name: Option<string>, typ: Option<string>)
    ensures Keeps(s, AddHandler(s, h, ns, name, typ))
  {
    WithEntryDistinct(s.handlers, Entry(h, ns, name, typ, false));
    hide Distinct, WithEntry;
  }

  lemma {:induction false} WithEntryDistinct(hs: seq<Entry>, e: Entry)
    ensures hs <= WithEntry(hs, e) && (!e.enabled ==> AllNew(WithEntry(hs, e)[|hs|..]))
    ensures Distinct(hs) ==> Distinct(WithEntry(hs, e))
  {
  }

  lemma {:induction false} RequestExtends(s: State, env: Env, h: Handler, id: string, timer: Handler, period: nat, m: Message)
    ensures Keeps(s, Request(s, env, h, id, timer, period, m))
  {
    hide Keeps, WithId, WithTimer, IsTimed, SentAs;
    var s1 := AddTimed(AddId(s, h, id), env, timer, period);
    ExtendsElse(s, s1);
    SendExtends(s1, m);
    KeepsJoins(s, s1, Send(s1, m));
  }

  lemma {:induction false} DisconnectExtends(s: State, env: Env)
    ensures Keeps(s, XmppDisconnect(s, env))
  {
    hide Keeps, WithTimer, IsTimed, SentAs;
    ExtendsSelf(s);
    SendExtends(s, StreamFooter);
    ExtendsElse(Send(s, StreamFooter), AddTimed(Send(s, StreamFooter), env, DisconnectCleanup, DISCONNECT_TIMEOUT));
    KeepsJoins(s, Send(s, StreamFooter), AddTimed(Send(s, StreamFooter), env, DisconnectCleanup, DISCONNECT_TIMEOUT));
  }

  // -------------------------------------------------------------- user code

  lemma {:induction false} ActExtends(s: State, env: Env, a: Action)
    ensures Keeps(s, Act(s, env, a))
  {
    hide Keeps, AddHandler, XmppDisconnect, Send, AddTimed, AddId, Bar;
    match a
    case AddStanza(n, ns, name, typ) => AddHandlerExtends(s, User(n), ns, name, typ);
    case AddById(n, id) => AddIdExtends(s, User(n), id);
    case AddTimer(n, period) => AddTimedExtends(s, env, User(n), period);
    case SendData(data) => SendExtends(s, UserData(data));
    case Disconnect => DisconnectExtends(s, env);
    case DisableTls => BarExtends(s);
  }

  lemma {:induction false} BarExtends(s: State)
    ensures Keeps(s, Bar(s))
  {
    hide Distinct;
    assert Bar(s).history[|s.history|..] == [TlsBarred];
  }

  lemma {:induction false} AddIdExtends(s: State, h: Handler, id: string)
    ensures Keeps(s, AddId(s, h, id)) && Keeps(s, Stop(s))
  {
    hide Keeps, WithId;
    StopExtends(s);
    ExtendsElse(s, AddId(s, h, id));
  }

  lemma {:induction false} StopExtends(s: State)
    ensures Keeps(s, Stop(s))
  {
    hide Keeps;
    ExtendsElse(s, Stop(s));
  }

  lemma {:induction false} AddTimedExtends(s: State, env: Env, h: Handler, period: nat)
    ensures Keeps(s, AddTimed(s, env, h, period))
  {
    hide Keeps, WithTimer, IsTimed;
    ExtendsElse(s, AddTimed(s, env, h, period));
  }

  lemma {:induction false} PerformExtends(s: State, env: Env, actions: seq<Action>)
    ensures Keeps(s, Perform(s, env, actions))
    decreases actions
  {
    hide Keeps, Act;
    if actions == [] || s.stopped {
      ExtendsSelf(s);
    } else {
      var s1 := Act(s, env, actions[0]);
      ActExtends(s, env, actions[0]);
      PerformExtends(s1, env, actions[1..]);
      KeepsJoins(s, s1, Perform(s1, env, actions[1..]));
    }
  }

  lemma {:induction false} CallbackExtends(s: State, env: Env)
    ensures Keeps(s, Callback(s, env))
  {
    hide Keeps, Perform;
    var s1 := s.(tick := s.tick + 1);
    ExtendsElse(s, s1);
    PerformExtends(s1, env, env(s.tick).actions);
    KeepsJoins(s, s1, Callback(s, env));
  }

  lemma {:induction false} NotifyExtends(s: State, env: Env, up: bool)
    ensures Keeps(s, Notify(s, env, up))
  {
    hide Keeps, Callback;
    ObserveExtends(s, Notified(up));
    CallbackExtends(Observe(s, Notified(up)), env);
    KeepsJoins(s, Observe(s, Notified(up)), Notify(s, env, up));
  }

  // ------------------------------------------------------------------ auth.c

  lemma {:induction false} RestartExtends(s: State, open: OpenHandler)
    ensures Keeps(s, Restart(s, open))
  {
    hide Keeps, SentAs;
    var s1 := s.(resetParser := true, openHandler := open);
    ExtendsElse(s, s1);
    SendExtends(s1, StreamHeader);
    KeepsJoins(s, s1, Restart(s, open));
  }

  /** A handler is registered, a message sent, and something else changed. */
  lemma {:induction false} OfferExtends(s: State, h: Handler, ns: string, m: Message, t: State)
    requires var r := Send(AddHandler(s, h, Some(ns), None, None), m);
      && t.account == r.account && t.link == r.link && t.inStream == r.inStream && t.streamDone == r.streamDone
      && t.authenticated == r.authenticated && t.handlers == r.handlers && t.history == r.history && t.busyId == r.busyId
      && t.tlsDisabled == r.tlsDisabled
    ensures Keeps(s, t)
  {
    hide Keeps, WithEntry, SentAs;
    var s1 := AddHandler(s, h, Some(ns), None, None);
    AddHandlerExtends(s, h, Some(ns), None, None);
    SendExtends(s1, m);
    ExtendsElse(Send(s1, m), t);
    KeepsJoins(s, s1, Send(s1, m));
    KeepsJoins(s, Send(s1, m), t);
  }

  lemma {:induction false} TryMechanismExtends(s: State, m: Mechanism, h: Handler)
    ensures Keeps(s, TryMechanism(s, m, h))
  {
    hide Keeps, WithEntry, SentAs;
    OfferExtends(s, h, NS_SASL, Message.Auth(m), TryMechanism(s, m, h));
  }

  lemma {:induction false} TryTlsExtends(s: State)
    ensures Keeps(s, Send(AddHandler(s, HandleProceedTls, Some(NS_TLS), None, None), StartTls).(tlsSupport := false))
  {
    hide Keeps, WithEntry, SentAs;
    OfferExtends(s, HandleProceedTls, NS_TLS, StartTls,
      Send(AddHandler(s, HandleProceedTls, Some(NS_TLS), None, None), StartTls).(tlsSupport := false));
  }

  lemma {:induction false} TryAuthExtends(s: State, env: Env)
    ensures Keeps(s, TryAuth(s, env))
    decreases s.tlsSupport
  {
    hide Keeps, TryMechanism, XmppDisconnect, Request, WithEntry, Left, TlsAsked, Observe;
    var s0 := Observe(s, AuthCalled(Left(s)));
    ObserveExtends(s, AuthCalled(Left(s)));
    if s.tlsSupport {
      var s1 := TlsAsked(s0, env);
      TlsAskedExtends(s0, env);
      if !env(s.tick).tlsAvailable {
        TryAuthExtends(s1.(tlsSupport := false), env);
        KeepsJoins(s0, s1.(tlsSupport := false), TryAuth(s, env));
      } else {
        TryTlsExtends(s1);
        KeepsJoins(s0, s1, TryAuth(s, env));
      }
    } else {
      TryOthersExtends(s, env);
    }
    KeepsJoins(s, s0, TryAuth(s, env));
  }

  lemma {:induction false} TlsAskedExtends(s: State, env: Env)
    ensures var s1 := TlsAsked(s, env); Keeps(s, s1) && Keeps(s, s1.(tlsSupport := false))
  {
    var s0, o := s.(tick := s.tick + 1), TlsProbed(s.tick);
    assert TlsAsked(s, env) == Observe(s0, o);
    assert Inner(s0.link, o);
    hide *;
    KeepsTick(s);
    ObserveExtends(s0, o);
    KeepsJoins(s, s0, Observe(s0, o));
    KeepsSupport(Observe(s0, o), false);
    KeepsJoins(s, Observe(s0, o), Observe(s0, o).(tlsSupport := false));
  }

  lemma {:induction false} KeepsTick(s: State)
    ensures Keeps(s, s.(tick := s.tick + 1))
  {
    hide Keeps;
    ExtendsElse(s, s.(tick := s.tick + 1));
  }

  lemma {:induction false} KeepsSupport(s: State, tlsSupport: bool)
    ensures Keeps(s, s.(tlsSupport := tlsSupport))
  {
    hide Keeps;
    ExtendsElse(s, s.(tlsSupport := tlsSupport));
  }

  lemma {:induction false} KeepsRead(s: State, tls: bool, sasl: set<Mechanism>)
    ensures var s0 := DeleteTimed(s, MissingFeatures);
      Keeps(s, Stop(s0)) && Keeps(s, Stop(s0.(tlsSupport := tls))) && Keeps(s, s0.(tlsSupport := tls, sasl := sasl))
  {
    hide *;
    var s0 := DeleteTimed(s, MissingFeatures);
    var s1 := s0.(tlsSupport := tls);
    KeepsDeleted(s, MissingFeatures);
    StopExtends(s0);
    KeepsJoins(s, s0, Stop(s0));
    KeepsSupport(s0, tls);
    KeepsJoins(s, s0, s1);
    StopExtends(s1);
    KeepsJoins(s, s1, Stop(s1));
    KeepsSeen(s0, tls, sasl);
    KeepsJoins(s, s0, s0.(tlsSupport := tls, sasl := sasl));
  }

  lemma {:induction false} KeepsDeleted(s: State, h: Handler)
    ensures Keeps(s, DeleteTimed(s, h))
  {
    hide Keeps, WithoutTimer;
    ExtendsElse(s, DeleteTimed(s, h));
  }

  lemma {:induction false} KeepsSeen(s: State, tls: bool, sasl: set<Mechanism>)
    ensures Keeps(s, s.(tlsSupport := tls, sasl := sasl))
  {
    hide Keeps;
    ExtendsElse(s, s.(tlsSupport := tls, sasl := sasl));
  }

  lemma {:induction false} TryOthersExtends(s: State, env: Env)
    requires !s.tlsSupport
    ensures Keeps(Observe(s, AuthCalled(Left(s))), TryAuth(s, env))
  {
    hide Keeps, TryMechanism, XmppDisconnect, Request, Left;
    var s0 := Observe(s, AuthCalled(Left(s)));
    ExtendsElse(s0, s0);
    ExtendsElse(s0, Stop(s0));
    TryMechanismExtends(s0, Anonymous, HandleSaslResult);
    TryMechanismExtends(s0, DigestMd5, HandleDigestChallenge);
    TryMechanismExtends(s0, Plain, HandleSaslResult);
    DisconnectExtends(s0, env);
    RequestExtends(s0, env, HandleLegacy, "_xmpp_auth1", MissingLegacy, LEGACY_TIMEOUT, LegacyIq);
  }

  lemma {:induction false} OnFeaturesExtends(s: State, env: Env, st: Stanza)
    ensures Keeps(s, OnFeatures(s, env, st))
  {
    hide Keeps, TryAuth, DeleteTimed, TlsSeen, SaslSeen, Stop;
    var s0 := DeleteTimed(s, MissingFeatures);
    var tls, sasl := TlsSeen(s, st), SaslSeen(s, st);
    if tls.None? {
      KeepsRead(s, false, {});
    } else if sasl.None? {
      KeepsRead(s, tls.value, {});
    } else {
      var s1 := s0.(tlsSupport := tls.value, sasl := sasl.value);
      KeepsRead(s, tls.value, sasl.value);
      TryAuthExtends(s1, env);
      KeepsJoins(s, s1, TryAuth(s1, env));
    }
  }

  lemma {:induction false} SecuredExtends(s: State)
    ensures Keeps(s, Restart(Observe(s.(secured := true), TlsStarted), AuthOpen))
  {
    hide Keeps, Restart;
    var s0 := s.(secured := true);
    var s1 := Observe(s0, TlsStarted);
    ExtendsElse(s, s0);
    ObserveExtends(s0, TlsStarted);
    KeepsJoins(s, s0, s1);
    RestartExtends(s1, AuthOpen);
    KeepsJoins(s, s1, Restart(s1, AuthOpen));
  }

  lemma {:induction false} OnProceedTlsExtends(s: State, env: Env, st: Stanza)
    ensures Keeps(s, OnProceedTls(s, env, st))
  {
    hide Keeps, XmppDisconnect, Restart, Name, Observe;
    var s0 := s.(tick := s.tick + 1);
    if Name(st) != Some("proceed") {
      ExtendsSelf(s);
    } else if !env(s.tick).tlsStarts {
      ExtendsElse(s, s0);
      DisconnectExtends(s0, env);
      KeepsJoins(s, s0, XmppDisconnect(s0, env));
    } else {
      ExtendsElse(s, s0);
      SecuredExtends(s0);
      KeepsJoins(s, s0, Restart(Observe(s0.(secured := true), TlsStarted), AuthOpen));
    }
  }

  lemma {:induction false} OnSaslResultExtends(s: State, env: Env, st: Stanza)
    ensures Keeps(s, OnSaslResult(s, env, st))
  {
    hide Keeps, TryAuth, Restart, XmppDisconnect;
    TryAuthExtends(s, env);
    RestartExtends(s, SaslOpen);
    DisconnectExtends(s, env);
  }

  lemma {:induction false} RespondExtends(s: State, env: Env, digest: Digest)
    ensures Keeps(s, Respond(s, env, digest))
  {
    hide Keeps, XmppDisconnect, WithEntry, SentAs;
    match digest
    case Faults => ExtendsElse(s, Stop(s));
    case NoResponse => DisconnectExtends(s, env);
    case Made(text) => OfferExtends(s, HandleDigestRspauth, NS_SASL, Response(Some(text)), Respond(s, env, digest));
  }

  lemma {:induction false} ChallengedExtends(s: State, env: Env)
    ensures Keeps(s, Respond(s.(tick := s.tick + 1), env, env(s.tick).digest))
  {
    hide Keeps, Respond;
    var s0 := s.(tick := s.tick + 1);
    ExtendsElse(s, s0);
    RespondExtends(s0, env, env(s.tick).digest);
    KeepsJoins(s, s0, Respond(s0, env, env(s.tick).digest));
  }

  lemma {:induction false} OnDigestChallengeExtends(s: State, env: Env, st: Stanza)
    ensures Keeps(s, OnDigestChallenge(s, env, st))
  {
    hide Keeps, OnSaslResult, Respond, Name, GetText;
    if Name(st) != Some("challenge") {
      OnSaslResultExtends(s, env, st);
    } else if GetText(st).None? {
      ExtendsElse(s, Stop(s));
    } else {
      ChallengedExtends(s, env);
    }
  }

  lemma {:induction false} OnFeaturesSaslExtends(s: State, env: Env, st: Stanza)
    ensures Keeps(s, OnFeaturesSasl(s, env, st))
  {
    hide Keeps, BindResource, InNs, WithoutTimer, ChildByName;
    var s0 := DeleteTimed(s, MissingFeaturesSasl);
    var bind, session := InNs(ChildByName(st, "bind"), NS_BIND), InNs(ChildByName(st, "session"), NS_SESSION);
    if bind.None? || session.None? {
      ExtendsElse(s, Stop(s0));
    } else {
      var s1 := s0.(bindRequired := s.bindRequired || bind.value, sessionRequired := s.sessionRequired || session.value);
      ExtendsElse(s, s1);
      BindResourceExtends(s1, env, ChildByName(st, "bind"));
      KeepsJoins(s, s1, BindResource(s1, env, ChildByName(st, "bind")));
    }
  }

  lemma {:induction false} BindResourceExtends(s: State, env: Env, bind: Option<Stanza>)
    ensures Keeps(s, BindResource(s, env, bind))
  {
    hide Keeps, XmppDisconnect, Request, RequestedResource;
    if !s.bindRequired {
      DisconnectExtends(s, env);
    } else if bind.None? {
      ExtendsElse(s, Stop(s));
    } else {
      RequestExtends(s, env, HandleBind, "_xmpp_bind1", MissingBind, BIND_TIMEOUT, BindIq(bind.value, RequestedResource(s.account)));
    }
  }

  lemma {:induction false} AuthenticateExtends(s: State, env: Env)
    ensures Extends(s, Authenticate(s, env))
  {
    hide Distinct, Notify;
    var s1 := Observe(s.(authenticated := true), Authenticated);
    assert Extends(s, s1);
    hide Extends;
    NotifyExtends(s1, env, true);
    ExtendsJoins(s, s1, Authenticate(s, env));
  }

  /** The handlers of replies by id: a timer is deleted, then one of three things done. */
  lemma {:induction false} ReplyExtends(s: State, env: Env, timer: Handler)
    ensures var s0 := DeleteTimed(s, timer);
      && Extends(s, XmppDisconnect(s0, env)) && Extends(s, Authenticate(s0, env))
      && Extends(s, Request(s0, env, HandleSession, "_xmpp_session1", MissingSession, SESSION_TIMEOUT, SessionIq))
  {
    hide Extends, XmppDisconnect, Authenticate, Request, WithoutTimer;
    var s0 := DeleteTimed(s, timer);
    ExtendsElse(s, s0);
    DisconnectExtends(s0, env);
    ExtendsJoins(s, s0, XmppDisconnect(s0, env));
    AuthenticateExtends(s0, env);
    ExtendsJoins(s, s0, Authenticate(s0, env));
    RequestExtends(s0, env, HandleSession, "_xmpp_session1", MissingSession, SESSION_TIMEOUT, SessionIq);
    ExtendsJoins(s, s0, Request(s0, env, HandleSession, "_xmpp_session1", MissingSession, SESSION_TIMEOUT, SessionIq));
  }

  lemma {:induction false} RepliesExtend(s: State, env: Env, st: Stanza)
    ensures Extends(s, OnBind(s, env, st)) && Extends(s, OnSession(s, env, st)) && Extends(s, OnLegacy(s, env, st))
  {
    hide Extends, XmppDisconnect, Authenticate, Request, DeleteTimed;
    ReplyExtends(s, env, MissingBind);
    ReplyExtends(s, env, MissingSession);
    ReplyExtends(s, env, MissingLegacy);
  }

  /** The handlers that are registered for the id of a reply. */
  predicate ById(h: Handler) {
    h == HandleBind || h == HandleSession || h == HandleLegacy
  }

  lemma {:induction false} OnStanzaKeeps(s: State, env: Env, h: Handler, st: Stanza)
    requires !ById(h)
    ensures Keeps(Observe(s, Handled(h, st)), OnStanza(s, env, h, st))
  {
    hide Keeps, OnFeatures, OnProceedTls, OnSaslResult, OnDigestChallenge, OnFeaturesSasl, Callback, Observe, Send;
    var s0 := Observe(s, Handled(h, st));
    match h
    case HandleFeatures => OnFeaturesExtends(s0, env, st);
    case HandleProceedTls => OnProceedTlsExtends(s0, env, st);
    case HandleSaslResult => OnSaslResultExtends(s0, env, st);
    case HandleDigestChallenge => OnDigestChallengeExtends(s0, env, st);
    case HandleDigestRspauth =>
      if Name(st) == Some("challenge") {
        SendExtends(s0, Response(None));
      } else {
        OnSaslResultExtends(s0, env, st);
      }
    case HandleFeaturesSasl => OnFeaturesSaslExtends(s0, env, st);
    case User(_) => CallbackExtends(s0, env);
    case HandleError =>
      ExtendsElse(s0, Stop(s0));
      ExtendsSelf(s0);
    case _ => ExtendsSelf(s0);
  }

  /** A handler is called: one observation says so, and what follows is its own. */
  lemma {:induction false} OnStanzaExtends(s: State, env: Env, h: Handler, st: Stanza)
    ensures Extends(Observe(s, Handled(h, st)), OnStanza(s, env, h, st))
  {
    hide Extends, OnBind, OnSession, OnLegacy, Observe;
    if ById(h) {
      RepliesExtend(Observe(s, Handled(h, st)), env, st);
    } else {
      hide OnStanza;
      OnStanzaKeeps(s, env, h, st);
    }
  }

  /** A handler of features is registered, with its timer. */
  lemma {:induction false} WatchExtends(s: State, env: Env, h: Handler, name: string, timer: Handler)
    ensures Keeps(s, AddTimed(AddHandler(s, h, None, Some(name), None), env, timer, FEATURES_TIMEOUT))
  {
    hide Keeps, WithEntry, WithTimer, IsTimed;
    var s1 := AddHandler(s, h, None, Some(name), None);
    AddHandlerExtends(s, h, None, Some(name), None);
    ExtendsElse(s1, AddTimed(s1, env, timer, FEATURES_TIMEOUT));
    KeepsJoins(s, s1, AddTimed(s1, env, timer, FEATURES_TIMEOUT));
  }

  lemma {:induction false} OpenExtends(s: State, env: Env)
    ensures Keeps(s, OnAuthOpen(s, env)) && Keeps(s, OnSaslOpen(s, env))
  {
    hide Keeps, AddHandler, AddTimed;
    var s0 := s.(timed := Restamped(s.timed, env(s.tick).now), tick := s.tick + 1);
    ExtendsElse(s, s0);
    var s1 := AddHandler(s0, HandleError, None, Some("stream:error"), None);
    AddHandlerExtends(s0, HandleError, None, Some("stream:error"), None);
    KeepsJoins(s, s0, s1);
    WatchExtends(s1, env, HandleFeatures, "stream:features", MissingFeatures);
    KeepsJoins(s, s1, OnAuthOpen(s, env));
    WatchExtends(s, env, HandleFeaturesSasl, "stream:features", MissingFeaturesSasl);
  }
}
