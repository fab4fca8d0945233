/** What the functions of the negotiation do to the list of timed handlers: it holds no
    function twice, and a stamp in it only ever moves on with the clock. */
module Clocks {
  import opened Common
  import opened Stanzas
  import opened Negotiation

  predicate DistinctTimers(ts: seq<Timer>) {
    forall i, j :: 0 <= i < j < |ts| ==> ts[i].handler != ts[j].handler
  }

  /** A timer is one of the list, its stamp moved on if at all, or was stamped since. */
  ghost predicate Since(ts: seq<Timer>, t: Timer, now: nat) {
    || now <= t.lastStamp
    || exists i :: 0 <= i < |ts| && ts[i].handler == t.handler && ts[i].lastStamp <= t.lastStamp
  }

  ghost predicate AllSince(ts: seq<Timer>, us: seq<Timer>, now: nat) {
    forall i :: 0 <= i < |us| ==> Since(ts, us[i], now)
  }

  /** The clock does not run backwards. */
  ghost predicate Forward(env: Env) {
    forall i: nat, j: nat :: i <= j ==> env(i).now <= env(j).now
  }

  /** No stamp is ahead of the clock. */
  ghost predicate AllPast(ts: seq<Timer>, now: nat) {
    forall i :: 0 <= i < |ts| ==> ts[i].lastStamp <= now
  }

  ghost predicate Clocked(s: State, r: State, env: Env) {
    && s.tick <= r.tick
    && (Forward(env) && AllPast(s.timed, env(s.tick).now) ==> AllPast(r.timed, env(r.tick).now))
    && (DistinctTimers(s.timed) ==> DistinctTimers(r.timed))
    && (Forward(env) ==> AllSince(s.timed, r.timed, env(s.tick).now))
  }

  lemma {:induction false} SinceSelf(ts: seq<Timer>, now: nat)
    ensures AllSince(ts, ts, now)
  {
  }

  lemma {:induction false} SinceJoins(a: seq<Timer>, b: seq<Timer>, c: seq<Timer>, before: nat, now: nat)
    requires AllSince(a, b, before) && AllSince(b, c, now) && before <= now
    ensures AllSince(a, c, before)
  {
    forall k | 0 <= k < |c| ensures Since(a, c[k], before) {
      assert Since(b, c[k], now);
      if now > c[k].lastStamp {
        var i :| 0 <= i < |b| && b[i].handler == c[k].handler && b[i].lastStamp <= c[k].lastStamp;
        assert Since(a, b[i], before);
      }
    }
  }

  lemma {:induction false} ClockedJoins(s: State, r: State, t: State, env: Env)
    requires Clocked(s, r, env) && Clocked(r, t, env)
    ensures Clocked(s, t, env)
  {
    hide DistinctTimers, AllSince, AllPast;
    if Forward(env) {
      SinceJoins(s.timed, r.timed, t.timed, env(s.tick).now, env(r.tick).now);
    }
  }

  lemma {:induction false} PastLater(ts: seq<Timer>, env: Env, i: nat, j: nat)
    requires i <= j
    ensures Forward(env) && AllPast(ts, env(i).now) ==> AllPast(ts, env(j).now)
  {
  }

  /** The timers are left alone. */
  lemma {:induction false} SameTimers(s: State, r: State, env: Env)
    requires r.timed == s.timed && s.tick <= r.tick
    ensures Clocked(s, r, env)
  {
    PastLater(s.timed, env, s.tick, r.tick);
    hide DistinctTimers, AllSince, AllPast;
    SinceSelf(s.timed, env(s.tick).now);
    PastLater(s.timed, env, s.tick, s.tick + 1);
  }

  lemma {:induction false} WithTimerSince(ts: seq<Timer>, t: Timer, now: nat)
    requires now <= t.lastStamp
    ensures AllSince(ts, WithTimer(ts, t), now)
    ensures t.lastStamp == now && AllPast(ts, now) ==> AllPast(WithTimer(ts, t), now)
    ensures DistinctTimers(ts) ==> DistinctTimers(WithTimer(ts, t))
  {
    forall i | 0 <= i < |WithTimer(ts, t)| ensures Since(ts, WithTimer(ts, t)[i], now) {
      if i < |ts| {
        assert WithTimer(ts, t)[i] == ts[i];
      }
    }
  }

  /** The place of a function in the list. */
  function TimerAt(ts: seq<Timer>, h: Handler): (k: nat)
    ensures k <= |ts| && (k < |ts| ==> ts[k].handler == h)
    ensures forall i :: 0 <= i < k ==> ts[i].handler != h
  {
    if ts == [] || ts[0].handler == h then 0 else TimerAt(ts[1..], h) + 1
  }

  lemma {:induction false} WithoutTimerCuts(ts: seq<Timer>, h: Handler)
    ensures var k := TimerAt(ts, h);
      WithoutTimer(ts, h) == if k < |ts| then ts[..k] + ts[k + 1..] else ts
  {
    if ts != [] && ts[0].handler != h {
      WithoutTimerCuts(ts[1..], h);
    }
  }

  lemma {:induction false} WithoutTimerSince(ts: seq<Timer>, h: Handler, now: nat)
    ensures AllSince(ts, WithoutTimer(ts, h), now)
    ensures AllPast(ts, now) ==> AllPast(WithoutTimer(ts, h), now)
    ensures DistinctTimers(ts) ==> DistinctTimers(WithoutTimer(ts, h))
  {
    WithoutTimerCuts(ts, h);
    hide WithoutTimer;
    var i := TimerAt(ts, h);
    hide TimerAt;
    SinceSelf(ts, now);
    if i < |ts| {
      var r := ts[..i] + ts[i + 1..];
      forall k | 0 <= k < |r| ensures Since(ts, r[k], now) {
        assert r[k] == if k < i then ts[k] else ts[k + 1];
      }
    }
  }

  lemma {:induction false} AddTimedClocked(s: State, env: Env, h: Handler, period: nat)
    ensures Clocked(s, AddTimed(s, env, h, period), env)
  {
    hide WithTimer, AllSince, DistinctTimers, IsTimed, AllPast;
    WithTimerSince(s.timed, Timer(h, period, env(s.tick).now, false), env(s.tick).now);
    PastLater(AddTimed(s, env, h, period).timed, env, s.tick, AddTimed(s, env, h, period).tick);
  }

  lemma {:induction false} DeleteTimedClocked(s: State, env: Env, h: Handler)
    ensures Clocked(s, DeleteTimed(s, h), env)
  {
    hide WithoutTimer, AllSince, DistinctTimers, AllPast;
    WithoutTimerSince(s.timed, h, env(s.tick).now);
  }

  lemma {:induction false} RestampedClocked(s: State, env: Env)
    ensures Clocked(s, s.(timed := Restamped(s.timed, env(s.tick).now), tick := s.tick + 1), env)
  {
  }

  // ------------------------------------------------------ functions and the clock

  lemma {:induction false} RequestClocked(s: State, env: Env, h: Handler, id: string, timer: Handler, period: nat, m: Message)
    ensures Clocked(s, Request(s, env, h, id, timer, period, m), env)
  {
    hide Clocked, AddTimed, WithId, SentAs;
    var s1 := AddId(s, h, id);
    SameTimers(s, s1, env);
    AddTimedClocked(s1, env, timer, period);
    var s2 := AddTimed(s1, env, timer, period);
    ClockedJoins(s, s1, s2, env);
    SendClocked(s2, m, env);
    ClockedJoins(s, s2, Send(s2, m), env);
  }

  lemma {:induction false} SendClocked(s: State, m: Message, env: Env)
    ensures Clocked(s, Send(s, m), env)
  {
    hide Clocked, SentAs;
    SameTimers(s, Send(s, m), env);
  }

  lemma {:induction false} DisconnectClocked(s: State, env: Env)
    ensures Clocked(s, XmppDisconnect(s, env), env)
  {
    hide Clocked, AddTimed, Send;
    if s.link == Disconnected {
      SameTimers(s, s, env);
    } else {
      SendClocked(s, StreamFooter, env);
      AddTimedClocked(Send(s, StreamFooter), env, DisconnectCleanup, DISCONNECT_TIMEOUT);
      ClockedJoins(s, Send(s, StreamFooter), XmppDisconnect(s, env), env);
    }
  }

  lemma {:induction false} AddHandlerClocked(s: State, h: Handler, ns: Option<string>, name: Option<string>, typ: Option<string>, env: Env)
    ensures Clocked(s, AddHandler(s, h, ns, name, typ), env)
  {
    hide Clocked, WithEntry;
    SameTimers(s, AddHandler(s, h, ns, name, typ), env);
  }

  lemma {:induction false} AddIdClocked(s: State, h: Handler, id: string, env: Env)
    ensures Clocked(s, AddId(s, h, id), env)
  {
    hide Clocked, WithId;
    SameTimers(s, AddId(s, h, id), env);
  }

  lemma {:induction false} StopClocked(s: State, env: Env)
    ensures Clocked(s, Stop(s), env)
  {
    hide Clocked;
    SameTimers(s, Stop(s), env);
  }

  lemma {:induction false} ActClocked(s: State, env: Env, a: Action)
    ensures Clocked(s, Act(s, env, a), env)
  {
    hide Clocked, AddTimed, AddHandler, AddId, Send, XmppDisconnect, Stop;
    match a
    case AddStanza(n, ns, name, typ) => AddHandlerClocked(s, User(n), ns, name, typ, env);
    case AddById(n, id) =>
      AddIdClocked(s, User(n), id, env);
      StopClocked(s, env);
    case AddTimer(n, period) => AddTimedClocked(s, env, User(n), period);
    case SendData(data) => SendClocked(s, UserData(data), env);
    case Disconnect => DisconnectClocked(s, env);
    case DisableTls => SameTimers(s, Bar(s), env);
  }

  lemma {:induction false} PerformClocked(s: State, env: Env, actions: seq<Action>)
    ensures Clocked(s, Perform(s, env, actions), env)
    decreases actions
  {
    hide Clocked, Act;
    if actions == [] || s.stopped {
      SameTimers(s, s, env);
    } else {
      var s1 := Act(s, env, actions[0]);
      ActClocked(s, env, actions[0]);
      PerformClocked(s1, env, actions[1..]);
      ClockedJoins(s, s1, Perform(s1, env, actions[1..]), env);
    }
  }

  lemma {:induction false} CallbackClocked(s: State, env: Env)
    ensures Clocked(s, Callback(s, env), env)
  {
    hide Clocked, Perform;
    var s1 := s.(tick := s.tick + 1);
    SameTimers(s, s1, env);
    PerformClocked(s1, env, env(s.tick).actions);
    ClockedJoins(s, s1, Callback(s, env), env);
  }

  /** Something else happens, and user code is called. */
  lemma {:induction false} CalledBackClocked(s: State, s1: State, env: Env)
    requires s1.timed == s.timed && s1.tick == s.tick
    ensures Clocked(s, Callback(s1, env), env)
  {
    hide Clocked, Callback;
    SameTimers(s, s1, env);
    CallbackClocked(s1, env);
    ClockedJoins(s, s1, Callback(s1, env), env);
  }

  lemma {:induction false} ConnDisconnectClocked(s: State, env: Env)
    ensures Clocked(s, ConnDisconnect(s, env), env)
  {
    hide Clocked, Callback;
    CalledBackClocked(s, Observe(s.(link := Disconnected), Notified(false)), env);
  }

  lemma {:induction false} AuthenticateClocked(s: State, env: Env)
    ensures Clocked(s, Authenticate(s, env), env)
  {
    hide Clocked, Callback;
    CalledBackClocked(s, Observe(Observe(s.(authenticated := true), Authenticated), Notified(true)), env);
  }

  lemma {:induction false} TryTlsClocked(s: State, env: Env)
    ensures var s0 := Observe(s, AuthCalled(Left(s)));
      var s1 := TlsAsked(s0, env);
      && Clocked(s, s1.(tlsSupport := false), env)
      && Clocked(s, Send(AddHandler(s1, HandleProceedTls, Some(NS_TLS), None, None), StartTls).(tlsSupport := false), env)
  {
    hide Clocked, WithEntry, SentAs, Left;
    var s1 := TlsAsked(Observe(s, AuthCalled(Left(s))), env);
    SameTimers(s, s1.(tlsSupport := false), env);
    SameTimers(s, Send(AddHandler(s1, HandleProceedTls, Some(NS_TLS), None, None), StartTls).(tlsSupport := false), env);
  }

  lemma {:induction false} TryMechanismClocked(s: State, m: Mechanism, h: Handler, env: Env)
    ensures Clocked(s, TryMechanism(s, m, h), env)
  {
    hide Clocked, WithEntry, SentAs;
    SameTimers(s, TryMechanism(s, m, h), env);
  }

  lemma {:induction false} TryAuthClocked(s: State, env: Env)
    ensures Clocked(s, TryAuth(s, env), env)
    decreases s.tlsSupport
  {
    hide Clocked, AddHandler, Send, Observe, Left, TryMechanism, Request, XmppDisconnect, TlsAsked;
    var s1 := TlsAsked(Observe(s, AuthCalled(Left(s))), env).(tlsSupport := false);
    if s.tlsSupport {
      TryTlsClocked(s, env);
      if !env(s.tick).tlsAvailable {
        TryAuthClocked(s1, env);
        ClockedJoins(s, s1, TryAuth(s1, env), env);
      }
    } else {
      TryRestClocked(s, env);
    }
  }

  lemma {:induction false} ObserveClocked(s: State, o: Obs, env: Env)
    ensures Clocked(s, Observe(s, o), env)
  {
    hide Clocked;
    SameTimers(s, Observe(s, o), env);
  }

  lemma {:induction false} TryRestClocked(s: State, env: Env)
    requires !s.tlsSupport
    ensures Clocked(s, TryAuth(s, env), env)
  {
    hide Clocked, Observe, Left, TryMechanism, Request, XmppDisconnect;
    var s0 := Observe(s, AuthCalled(Left(s)));
    ObserveClocked(s, AuthCalled(Left(s)), env);
    SameTimers(s0, s0, env);
    SameTimers(s0, Stop(s0), env);
    TryMechanismClocked(s0, Anonymous, HandleSaslResult, env);
    TryMechanismClocked(s0, DigestMd5, HandleDigestChallenge, env);
    TryMechanismClocked(s0, Plain, HandleSaslResult, env);
    DisconnectClocked(s0, env);
    RequestClocked(s0, env, HandleLegacy, "_xmpp_auth1", MissingLegacy, LEGACY_TIMEOUT, LegacyIq);
    ClockedJoins(s, s0, TryAuth(s, env), env);
  }

  /** A timer is deleted, and something done. */
  lemma {:induction false} AfterDelete(s: State, h: Handler, s1: State, t: State, env: Env)
    requires s1.timed == DeleteTimed(s, h).timed && s1.tick == s.tick && Clocked(s1, t, env)
    ensures Clocked(s, t, env)
  {
    hide Clocked, WithoutTimer;
    DeleteTimedClocked(s, env, h);
    SameTimers(DeleteTimed(s, h), s1, env);
    ClockedJoins(s, DeleteTimed(s, h), s1, env);
    ClockedJoins(s, s1, t, env);
  }

  lemma {:induction false} OnFeaturesClocked(s: State, env: Env, st: Stanza)
    ensures Clocked(s, OnFeatures(s, env, st), env)
  {
    hide Clocked, TryAuth, WithoutTimer, TlsSeen, SaslSeen;
    var s0 := DeleteTimed(s, MissingFeatures);
    var tls, sasl := TlsSeen(s, st), SaslSeen(s, st);
    if tls.None? {
      SameTimers(s0, Stop(s0), env);
      AfterDelete(s, MissingFeatures, s0, Stop(s0), env);
    } else {
      FeaturesReadClocked(s, env, tls.value, sasl);
    }
  }

  lemma {:induction false} FeaturesReadClocked(s: State, env: Env, tls: bool, sasl: Option<set<Mechanism>>)
    ensures var s1 := DeleteTimed(s, MissingFeatures).(tlsSupport := tls);
      && Clocked(s, Stop(s1), env)
      && (sasl.Some? ==> Clocked(s, TryAuth(DeleteTimed(s, MissingFeatures).(tlsSupport := tls, sasl := sasl.value), env), env))
  {
    hide Clocked, TryAuth, WithoutTimer;
    var s1 := DeleteTimed(s, MissingFeatures).(tlsSupport := tls);
    SameTimers(s1, Stop(s1), env);
    AfterDelete(s, MissingFeatures, s1, Stop(s1), env);
    if sasl.Some? {
      var s2 := DeleteTimed(s, MissingFeatures).(tlsSupport := tls, sasl := sasl.value);
      TryAuthClocked(s2, env);
      AfterDelete(s, MissingFeatures, s2, TryAuth(s2, env), env);
    }
  }

  lemma {:induction false} RestartClocked(s: State, open: OpenHandler, env: Env)
    ensures Clocked(s, Restart(s, open), env)
  {
    hide Clocked, SentAs;
    SameTimers(s, Restart(s, open), env);
  }

  lemma {:induction false} OnProceedTlsClocked(s: State, env: Env, st: Stanza)
    ensures Clocked(s, OnProceedTls(s, env, st), env)
  {
    hide Clocked, XmppDisconnect, Restart, Name;
    var s0 := s.(tick := s.tick + 1);
    if Name(st) != Some("proceed") {
      SameTimers(s, s, env);
    } else if !env(s.tick).tlsStarts {
      SameTimers(s, s0, env);
      DisconnectClocked(s0, env);
      ClockedJoins(s, s0, XmppDisconnect(s0, env), env);
    } else {
      var s1 := Observe(s0.(secured := true), TlsStarted);
      RestartClocked(s1, AuthOpen, env);
      SameTimers(s, s1, env);
      ClockedJoins(s, s1, Restart(s1, AuthOpen), env);
    }
  }

  lemma {:induction false} OnSaslResultClocked(s: State, env: Env, st: Stanza)
    ensures Clocked(s, OnSaslResult(s, env, st), env)
  {
    hide Clocked, TryAuth, Restart, XmppDisconnect, Name;
    TryAuthClocked(s, env);
    RestartClocked(s, SaslOpen, env);
    DisconnectClocked(s, env);
  }

  lemma {:induction false} RespondedClocked(s: State, env: Env, text: string)
    ensures Clocked(s, Send(AddHandler(s, HandleDigestRspauth, Some(NS_SASL), None, None), Response(Some(text))), env)
  {
    hide Clocked, WithEntry, SentAs;
    SameTimers(s, Send(AddHandler(s, HandleDigestRspauth, Some(NS_SASL), None, None), Response(Some(text))), env);
  }

  lemma {:induction false} RespondClocked(s: State, env: Env, digest: Digest)
    ensures Clocked(s, Respond(s, env, digest), env)
  {
    hide Clocked, XmppDisconnect, AddHandler, Send;
    match digest
    case Faults => SameTimers(s, Stop(s), env);
    case NoResponse => DisconnectClocked(s, env);
    case Made(text) => RespondedClocked(s, env, text);
  }

  lemma {:induction false} OnDigestChallengeClocked(s: State, env: Env, st: Stanza)
    ensures Clocked(s, OnDigestChallenge(s, env, st), env)
  {
    hide Clocked, OnSaslResult, Respond, Name, GetText;
    var s0 := s.(tick := s.tick + 1);
    OnSaslResultClocked(s, env, st);
    SameTimers(s, Stop(s), env);
    RespondClocked(s0, env, env(s.tick).digest);
    TickClocked(s, env);
    ClockedJoins(s, s0, Respond(s0, env, env(s.tick).digest), env);
  }

  lemma {:induction false} TickClocked(s: State, env: Env)
    ensures Clocked(s, s.(tick := s.tick + 1), env)
  {
    hide AllSince, DistinctTimers, AllPast;
    SinceSelf(s.timed, env(s.tick).now);
    PastLater(s.timed, env, s.tick, s.tick + 1);
  }

  lemma {:induction false} BindResourceClocked(s: State, env: Env, bind: Option<Stanza>)
    ensures Clocked(s, BindResource(s, env, bind), env)
  {
    hide Clocked, XmppDisconnect, Request, RequestedResource;
    DisconnectClocked(s, env);
    SameTimers(s, Stop(s), env);
    if bind.Some? {
      RequestClocked(s, env, HandleBind, "_xmpp_bind1", MissingBind, BIND_TIMEOUT, BindIq(bind.value, RequestedResource(s.account)));
    }
  }

  lemma {:induction false} OnFeaturesSaslClocked(s: State, env: Env, st: Stanza)
    ensures Clocked(s, OnFeaturesSasl(s, env, st), env)
  {
    hide Clocked, BindResource, InNs, ChildByName, WithoutTimer;
    var bind, session := InNs(ChildByName(st, "bind"), NS_BIND), InNs(ChildByName(st, "session"), NS_SESSION);
    if bind.None? || session.None? {
      var s0 := DeleteTimed(s, MissingFeaturesSasl);
      SameTimers(s0, Stop(s0), env);
      AfterDelete(s, MissingFeaturesSasl, s0, Stop(s0), env);
    } else {
      OfferedClocked(s, env, ChildByName(st, "bind"), s.bindRequired || bind.value, s.sessionRequired || session.value);
    }
  }

  lemma {:induction false} OfferedClocked(s: State, env: Env, offer: Option<Stanza>, bind: bool, session: bool)
    ensures Clocked(s, BindResource(DeleteTimed(s, MissingFeaturesSasl).(bindRequired := bind, sessionRequired := session), env, offer), env)
  {
    hide Clocked, BindResource, WithoutTimer;
    var s1 := DeleteTimed(s, MissingFeaturesSasl).(bindRequired := bind, sessionRequired := session);
    BindResourceClocked(s1, env, offer);
    AfterDelete(s, MissingFeaturesSasl, s1, BindResource(s1, env, offer), env);
  }

  lemma {:induction false} ReplyClocked(s: State, env: Env, timer: Handler)
    ensures var s0 := DeleteTimed(s, timer);
      && Clocked(s, XmppDisconnect(s0, env), env) && Clocked(s, Authenticate(s0, env), env)
      && Clocked(s, Request(s0, env, HandleSession, "_xmpp_session1", MissingSession, SESSION_TIMEOUT, SessionIq), env)
  {
    hide Clocked, XmppDisconnect, Authenticate, Request, WithoutTimer;
    var s0 := DeleteTimed(s, timer);
    DisconnectClocked(s0, env);
    AfterDelete(s, timer, s0, XmppDisconnect(s0, env), env);
    AuthenticateClocked(s0, env);
    AfterDelete(s, timer, s0, Authenticate(s0, env), env);
    RequestClocked(s0, env, HandleSession, "_xmpp_session1", MissingSession, SESSION_TIMEOUT, SessionIq);
    AfterDelete(s, timer, s0, Request(s0, env, HandleSession, "_xmpp_session1", MissingSession, SESSION_TIMEOUT, SessionIq), env);
  }

  lemma {:induction false} RepliesClocked(s: State, env: Env, st: Stanza)
    ensures Clocked(s, OnBind(s, env, st), env) && Clocked(s, OnSession(s, env, st), env) && Clocked(s, OnLegacy(s, env, st), env)
  {
    hide Clocked, XmppDisconnect, Authenticate, Request, DeleteTimed;
    ReplyClocked(s, env, MissingBind);
    ReplyClocked(s, env, MissingSession);
    ReplyClocked(s, env, MissingLegacy);
  }

  lemma {:induction false} HandlerClocked(s: State, env: Env, h: Handler, st: Stanza)
    ensures Clocked(Observe(s, Handled(h, st)), OnStanza(s, env, h, st), env)
  {
    hide Clocked, OnFeatures, OnProceedTls, OnSaslResult, OnDigestChallenge, OnFeaturesSasl, OnBind, OnSession, OnLegacy, Callback, Observe, Send;
    var s0 := Observe(s, Handled(h, st));
    match h
    case HandleFeatures => OnFeaturesClocked(s0, env, st);
    case HandleProceedTls => OnProceedTlsClocked(s0, env, st);
    case HandleSaslResult => OnSaslResultClocked(s0, env, st);
    case HandleDigestChallenge => OnDigestChallengeClocked(s0, env, st);
    case HandleDigestRspauth =>
      SendClocked(s0, Response(None), env);
      OnSaslResultClocked(s0, env, st);
    case HandleFeaturesSasl => OnFeaturesSaslClocked(s0, env, st);
    case HandleBind => RepliesClocked(s0, env, st);
    case HandleSession => RepliesClocked(s0, env, st);
    case HandleLegacy => RepliesClocked(s0, env, st);
    case User(_) => CallbackClocked(s0, env);
    case HandleError =>
      SameTimers(s0, Stop(s0), env);
      SameTimers(s0, s0, env);
    case _ => SameTimers(s0, s0, env);
  }

  lemma {:induction false} OnStanzaClocked(s: State, env: Env, h: Handler, st: Stanza)
    ensures Clocked(s, OnStanza(s, env, h, st), env)
  {
    hide Clocked, OnStanza, Observe;
    ObserveClocked(s, Handled(h, st), env);
    HandlerClocked(s, env, h, st);
    ClockedJoins(s, Observe(s, Handled(h, st)), OnStanza(s, env, h, st), env);
  }

  lemma {:induction false} OnTimerClocked(s: State, env: Env, h: Handler)
    ensures Clocked(s, OnTimer(s, env, h), env)
  {
    hide Clocked, TryAuth, ConnDisconnect, Callback, XmppDisconnect, Observe;
    var s0 := Observe(s, Fired(h));
    ObserveClocked(s, Fired(h), env);
    TryAuthClocked(s0, env);
    ConnDisconnectClocked(s0, env);
    CallbackClocked(s0, env);
    DisconnectClocked(s0, env);
    ClockedJoins(s, s0, OnTimer(s, env, h), env);
  }
}
