/** Whatever the server, the user's code and the clock do, a connection is authenticated
    only after the messages that make it so, and no handler of the user runs before. */
module AuthSafety {
  import opened Common
  import opened Stanzas
  import opened Negotiation

  /** The points a history has to pass, in order, on the way to authentication. */
  datatype Milestone =
    | MechanismAsked | Succeeded | Reopened | BindOffered | BindAsked | Bound | SessionOffered | SessionAsked | SessionUp
    | LegacyAsked | LegacyUp

  predicate SaslReply(h: Handler) {
    h == HandleSaslResult || h == HandleDigestChallenge || h == HandleDigestRspauth
  }

  predicate InNamespace(st: Stanza, ns: string) {
    Ns(st) == Some(ns) || HasChildInNs(st, ns)
  }

  predicate OffersBind(st: Stanza) {
    InNs(ChildByName(st, "bind"), NS_BIND) == Some(true) && InNs(ChildByName(st, "session"), NS_SESSION).Some?
  }

  predicate OffersSession(st: Stanza) {
    InNs(ChildByName(st, "session"), NS_SESSION) == Some(true) && InNs(ChildByName(st, "bind"), NS_BIND).Some?
  }

  predicate Meets(o: Obs, m: Milestone) {
    match m
    case MechanismAsked => (o.Queued? || o.Dropped?) && o.msg.Auth?
    case Succeeded => o.Handled? && SaslReply(o.handler) && Name(o.st) == Some("success") && InNamespace(o.st, NS_SASL)
    case Reopened => o == Opened
    case BindOffered => o.Handled? && o.handler == HandleFeaturesSasl && OffersBind(o.st)
    case BindAsked => (o.Queued? || o.Dropped?) && o.msg.BindIq?
    case Bound => o.Handled? && o.handler == HandleBind && Id(o.st) == Some("_xmpp_bind1") && Type(o.st) == Some("result")
    case SessionOffered => o.Handled? && o.handler == HandleFeaturesSasl && OffersSession(o.st)
    case SessionAsked => o == Queued(SessionIq) || o == Dropped(SessionIq)
    case SessionUp =>
      o.Handled? && o.handler == HandleSession && Id(o.st) == Some("_xmpp_session1") && Type(o.st) == Some("result")
    case LegacyAsked => o == Queued(LegacyIq) || o == Dropped(LegacyIq)
    case LegacyUp =>
      && o.Handled? && o.handler == HandleLegacy && Id(o.st) == Some("_xmpp_auth1")
      && Name(o.st) == Some("iq") && Type(o.st) == Some("result")
  }

  /** The milestones are met in order, by later and later observations. */
  predicate Occurs(h: seq<Obs>, ms: seq<Milestone>)
    decreases |h|
  {
    if ms == [] then true
    else if h == [] then false
    else
      var n, k := |h| - 1, |ms| - 1;
      Occurs(h[..n], ms) || (Meets(h[n], ms[k]) && Occurs(h[..n], ms[..k]))
  }

  const LegacyPath := [LegacyAsked, LegacyUp]
  const SaslPath := [MechanismAsked, Succeeded]
  const ReopenPath := [MechanismAsked, Succeeded, Reopened]
  const OfferPath := [MechanismAsked, Succeeded, Reopened, BindOffered]
  const BindPath := [MechanismAsked, Succeeded, Reopened, BindOffered, BindAsked, Bound]
  const SessionPath := [MechanismAsked, Succeeded, Reopened, BindOffered, BindAsked, Bound, SessionAsked, SessionUp]

  /** What must have happened for the connection to be authenticated: the legacy exchange,
      or SASL and a bound resource, and a session if one was offered. */
  predicate Authorised(h: seq<Obs>) {
    || Occurs(h, LegacyPath)
    || (Occurs(h, BindPath) && (Occurs(h, [SessionOffered]) ==> Occurs(h, SessionPath)))
  }

  /** What must have happened before a handler is registered. */
  function Needs(h: Handler): seq<Milestone> {
    match h
    case HandleSaslResult => [MechanismAsked]
    case HandleDigestChallenge => [MechanismAsked]
    case HandleDigestRspauth => [MechanismAsked]
    case HandleFeaturesSasl => ReopenPath
    case HandleBind => OfferPath + [BindAsked]
    case HandleSession => BindPath + [SessionAsked]
    case HandleLegacy => [LegacyAsked]
    case _ => []
  }

  predicate UserRan(o: Obs) {
    || (o.Handled? && o.handler.User?)
    || (o.Fired? && o.handler.User?)
    || o == Notified(true)
  }

  /** An observation that may follow a history. */
  predicate MayFollow(h: seq<Obs>, o: Obs) {
    && (o == Authenticated ==> Authorised(h))
    && (UserRan(o) ==> Authenticated in h)
    && (o.Handled? ==> Occurs(h, Needs(o.handler)))
  }

  predicate Safe(h: seq<Obs>)
    decreases |h|
  {
    h == [] || (Safe(h[..|h| - 1]) && MayFollow(h[..|h| - 1], h[|h| - 1]))
  }

  // --------------------------------------------------- facts about histories

  lemma {:induction false} OccursLater(h: seq<Obs>, o: Obs, ms: seq<Milestone>)
    requires Occurs(h, ms)
    ensures Occurs(h + [o], ms)
  {
    assert (h + [o])[..|h|] == h;
  }

  lemma {:induction false} OccursNext(h: seq<Obs>, o: Obs, ms: seq<Milestone>, m: Milestone)
    requires Occurs(h, ms) && Meets(o, m)
    ensures Occurs(h + [o], ms + [m])
  {
    assert (h + [o])[..|h|] == h && (ms + [m])[..|ms|] == ms;
  }

  lemma {:induction false} OccursOne(h: seq<Obs>, o: Obs, m: Milestone)
    ensures Occurs(h + [o], [m]) <==> Occurs(h, [m]) || Meets(o, m)
  {
    assert (h + [o])[..|h|] == h && [m][..0] == [];
  }

  lemma {:induction false} SafeNext(h: seq<Obs>, o: Obs)
    requires Safe(h) && MayFollow(h, o)
    ensures Safe(h + [o])
  {
    assert (h + [o])[..|h|] == h;
  }

  /** Positions, one per milestone, that increase. */
  ghost predicate Witnesses(h: seq<Obs>, ms: seq<Milestone>, at: seq<nat>) {
    && |at| == |ms|
    && (forall k :: 0 <= k < |at| ==> at[k] < |h| && Meets(h[at[k]], ms[k]))
    && (forall j, k :: 0 <= j < k < |at| ==> at[j] < at[k])
  }

  lemma {:induction false} WitnessLast(h: seq<Obs>, ms: seq<Milestone>, at: seq<nat>)
    requires Witnesses(h, ms, at) && ms != []
    ensures h != []
    ensures Witnesses(h[..|h| - 1], ms, at)
      || (Meets(h[|h| - 1], ms[|ms| - 1]) && Witnesses(h[..|h| - 1], ms[..|ms| - 1], at[..|at| - 1]))
  {
    hide Meets;
    var n, k := |h| - 1, |ms| - 1;
    assert at[k] < |h|;
    assert forall j :: 0 <= j < k ==> at[j] < at[k];
  }

  lemma {:induction false} WitnessMore(h: seq<Obs>, ms: seq<Milestone>, at: seq<nat>)
    requires h != [] && ms != []
    ensures Witnesses(h[..|h| - 1], ms, at) ==> Witnesses(h, ms, at)
    ensures Meets(h[|h| - 1], ms[|ms| - 1]) && Witnesses(h[..|h| - 1], ms[..|ms| - 1], at) ==>
      Witnesses(h, ms, at + [|h| - 1])
  {
    hide Meets;
  }

  /** Occurs says just this: there are increasing positions that meet the milestones. */
  lemma {:induction false} OccursMeansPositions(h: seq<Obs>, ms: seq<Milestone>)
    ensures Occurs(h, ms) <==> exists at :: Witnesses(h, ms, at)
    decreases |h|
  {
    hide Meets;
    if ms == [] {
      assert Witnesses(h, ms, []);
    } else if h == [] {
      forall at ensures !Witnesses(h, ms, at) {
        if Witnesses(h, ms, at) {
          WitnessLast(h, ms, at);
        }
      }
    } else {
      var n, k := |h| - 1, |ms| - 1;
      OccursMeansPositions(h[..n], ms);
      OccursMeansPositions(h[..n], ms[..k]);
      hide Witnesses;
      if at :| Witnesses(h, ms, at) {
        WitnessLast(h, ms, at);
      }
      if at :| Witnesses(h[..n], ms, at) {
        WitnessMore(h, ms, at);
      }
      if at :| Meets(h[n], ms[k]) && Witnesses(h[..n], ms[..k], at) {
        WitnessMore(h, ms, at);
      }
    }
  }

  /** Every observation of a safe history was allowed where it stands. */
  lemma {:induction false} SafeMeansAllowed(h: seq<Obs>)
    ensures Safe(h) <==> forall i :: 0 <= i < |h| ==> MayFollow(h[..i], h[i])
    decreases |h|
  {
    if h != [] {
      var n := |h| - 1;
      SafeMeansAllowed(h[..n]);
      assert forall i :: 0 <= i < n ==> h[..n][..i] == h[..i] && h[..n][i] == h[i];
    }
  }

  // ----------------------------------------------------------- the invariant

  /** A stanza handler is registered with the filter its place in auth.c gives it, and
      what it needs has happened. */
  predicate EntryOk(h: seq<Obs>, e: Entry) {
    && Occurs(h, Needs(e.handler))
    && (SaslReply(e.handler) ==> e.ns == Some(NS_SASL))
    && e.handler !in {HandleBind, HandleSession, HandleLegacy}
  }

  predicate IdOk(h: seq<Obs>, id: string, handler: Handler) {
    && Occurs(h, Needs(handler))
    && match handler
       case HandleBind => id == "_xmpp_bind1"
       case HandleSession => id == "_xmpp_session1"
       case HandleLegacy => id == "_xmpp_auth1"
       case User(_) => true
       case _ => false
  }

  ghost predicate EntriesOk(h: seq<Obs>, hs: seq<Entry>) {
    forall i :: 0 <= i < |hs| ==> EntryOk(h, hs[i])
  }

  /** No function is registered twice for an id. */
  predicate NoTwice(chain: seq<Handler>) {
    forall i, j :: 0 <= i < j < |chain| ==> chain[i] != chain[j]
  }

  ghost predicate ChainOk(h: seq<Obs>, id: string, chain: seq<Handler>) {
    NoTwice(chain) && forall i :: 0 <= i < |chain| ==> IdOk(h, id, chain[i])
  }

  ghost predicate IdsOk(h: seq<Obs>, ids: map<string, seq<Handler>>) {
    forall id :: id in ids ==> ChainOk(h, id, ids[id])
  }

  /** What the flags of the connection stand for. */
  predicate Stand(h: seq<Obs>, open: OpenHandler, bindRequired: bool, sessionRequired: bool, authenticated: bool) {
    && (open == SaslOpen ==> Occurs(h, SaslPath))
    && (bindRequired ==> Occurs(h, OfferPath))
    && (sessionRequired <==> Occurs(h, [SessionOffered]))
    && (authenticated <==> Authenticated in h)
  }

  predicate FlagsOk(s: State) {
    Stand(s.history, s.openHandler, s.bindRequired, s.sessionRequired, s.authenticated)
  }

  ghost predicate Inv(s: State) {
    EntriesOk(s.history, s.handlers) && IdsOk(s.history, s.ids) && FlagsOk(s) && Safe(s.history)
  }

  /** An observation that says nothing about the flags. */
  predicate Quiet(o: Obs) {
    !Meets(o, SessionOffered) && o != Authenticated
  }

  lemma {:induction false} NoTwiceNext(chain: seq<Handler>, h: Handler)
    requires NoTwice(chain) && h !in chain
    ensures NoTwice(chain + [h])
  {
  }

  lemma {:induction false} NoTwiceCut(chain: seq<Handler>, k: nat, prev: nat)
    requires NoTwice(chain) && prev <= k < |chain|
    ensures NoTwice(Unchained(chain, k, prev))
  {
  }

  lemma {:induction false} RegistrationsLater(h: seq<Obs>, o: Obs, hs: seq<Entry>, ids: map<string, seq<Handler>>)
    requires EntriesOk(h, hs) && IdsOk(h, ids)
    ensures EntriesOk(h + [o], hs) && IdsOk(h + [o], ids)
  {
    hide Occurs;
    forall i | 0 <= i < |hs| ensures EntryOk(h + [o], hs[i]) {
      OccursLater(h, o, Needs(hs[i].handler));
    }
    forall id, i | id in ids && 0 <= i < |ids[id]| ensures IdOk(h + [o], id, ids[id][i]) {
      assert IdOk(h, id, ids[id][i]);
      OccursLater(h, o, Needs(ids[id][i]));
    }
  }

  lemma {:induction false} InAppended(h: seq<Obs>, o: Obs, x: Obs)
    ensures x in h + [o] <==> x in h || x == o
  {
  }

  lemma {:induction false} FlagsLater(h: seq<Obs>, o: Obs, open: OpenHandler, bind: bool, session: bool, auth: bool)
    requires Stand(h, open, bind, session, auth) && Quiet(o)
    ensures Stand(h + [o], open, bind, session, auth)
  {
    hide Occurs, Meets;
    OccursOne(h, o, SessionOffered);
    InAppended(h, o, Authenticated);
    if open == SaslOpen {
      OccursLater(h, o, SaslPath);
    }
    if bind {
      OccursLater(h, o, OfferPath);
    }
  }

  lemma {:induction false} ObserveKeeps(s: State, o: Obs)
    requires Inv(s) && MayFollow(s.history, o) && Quiet(o)
    ensures Inv(Observe(s, o))
  {
    hide Occurs, Safe, EntriesOk, IdsOk, MayFollow, Stand, Quiet;
    RegistrationsLater(s.history, o, s.handlers, s.ids);
    SafeNext(s.history, o);
    FlagsLater(s.history, o, s.openHandler, s.bindRequired, s.sessionRequired, s.authenticated);
  }

  lemma {:induction false} SendKeeps(s: State, m: Message)
    requires Inv(s)
    ensures Inv(Send(s, m))
  {
    hide Occurs, Inv;
    ObserveKeeps(s, SentAs(s.link, m));
  }

  lemma {:induction false} AddHandlerKeeps(s: State, h: Handler, ns: Option<string>, name: Option<string>, typ: Option<string>)
    requires Inv(s) && EntryOk(s.history, Entry(h, ns, name, typ, false))
    ensures Inv(AddHandler(s, h, ns, name, typ))
  {
    hide Occurs, Safe, EntryOk;
  }

  lemma {:induction false} AddIdKeeps(s: State, h: Handler, id: string)
    requires Inv(s) && IdOk(s.history, id, h)
    ensures Inv(AddId(s, h, id))
  {
    hide Occurs, Safe, IdOk, NoTwice;
    var chain := Chain(s.ids, id);
    assert NoTwice(chain) by {
      if id in s.ids {
        assert ChainOk(s.history, id, s.ids[id]);
      } else {
        Nothing();
      }
    }
    if h !in chain {
      NoTwiceNext(chain, h);
    }
  }

  lemma {:induction false} Nothing()
    ensures NoTwice([])
  {
  }

  lemma {:induction false} DisconnectKeeps(s: State, env: Env)
    requires Inv(s)
    ensures Inv(XmppDisconnect(s, env))
  {
    hide Occurs, Safe;
    SendKeeps(s, StreamFooter);
  }

  lemma {:induction false} ActKeeps(s: State, env: Env, a: Action)
    requires Inv(s)
    ensures Inv(Act(s, env, a))
  {
    hide Safe, Bar;
    match a
    case AddStanza(n, ns, name, typ) => AddHandlerKeeps(s, User(n), ns, name, typ);
    case AddById(n, id) => AddIdKeeps(s, User(n), id);
    case AddTimer(n, period) =>
    case SendData(data) => SendKeeps(s, UserData(data));
    case Disconnect => DisconnectKeeps(s, env);
    case DisableTls => BarKeeps(s);
  }

  lemma {:induction false} BarKeeps(s: State)
    requires Inv(s)
    ensures Inv(Bar(s))
  {
    hide Inv, Occurs;
    var s0 := s.(tlsDisabled := true);
    SameKeeps(s, s0);
    NotMet(TlsBarred);
    ObserveKeeps(s0, TlsBarred);
  }

  lemma {:induction false} PerformKeeps(s: State, env: Env, actions: seq<Action>)
    requires Inv(s)
    ensures Inv(Perform(s, env, actions))
    decreases actions
  {
    hide Inv, Act;
    if actions != [] && !s.stopped {
      ActKeeps(s, env, actions[0]);
      PerformKeeps(Act(s, env, actions[0]), env, actions[1..]);
    }
  }

  lemma {:induction false} CallbackKeeps(s: State, env: Env)
    requires Inv(s)
    ensures Inv(Callback(s, env))
  {
    hide Perform;
    PerformKeeps(s.(tick := s.tick + 1), env, env(s.tick).actions);
  }

  lemma {:induction false} ConnDisconnectKeeps(s: State, env: Env)
    requires Inv(s)
    ensures Inv(ConnDisconnect(s, env))
  {
    hide Perform, Occurs, Safe;
    var s0 := s.(link := Disconnected);
    assert Inv(s0);
    ObserveKeeps(s0, Notified(false));
    CallbackKeeps(Observe(s0, Notified(false)), env);
  }

  /** The user is told of the connection only when its history allows it. */
  lemma {:induction false} AuthenticateKeeps(s: State, env: Env)
    requires Inv(s) && Authorised(s.history)
    ensures Inv(Authenticate(s, env))
  {
    hide Perform, Occurs, Safe, Meets;
    var o := Authenticated;
    var s1 := Observe(s.(authenticated := true), o);
    RegistrationsLater(s.history, o, s.handlers, s.ids);
    SafeNext(s.history, o);
    OccursOne(s.history, o, SessionOffered);
    assert !Meets(o, SessionOffered) by { NotMet(o); }
    if s.openHandler == SaslOpen {
      OccursLater(s.history, o, SaslPath);
    }
    if s.bindRequired {
      OccursLater(s.history, o, OfferPath);
    }
    assert s1.history[|s.history|] == Authenticated;
    assert Inv(s1);
    NotMet(Notified(true));
    ObserveKeeps(s1, Notified(true));
    CallbackKeeps(Observe(s1, Notified(true)), env);
  }

  lemma {:induction false} NotMet(o: Obs)
    requires !o.Handled?
    ensures !Meets(o, SessionOffered)
  {
  }

  lemma {:induction false} RestartKeeps(s: State, open: OpenHandler)
    requires Inv(s) && (open == SaslOpen ==> Occurs(s.history, SaslPath))
    ensures Inv(Restart(s, open))
  {
    hide Occurs, Safe, Meets;
    var s0 := s.(resetParser := true, openHandler := open);
    assert Inv(s0);
    SendKeeps(s0, StreamHeader);
  }

  lemma {:induction false} TryMechanismKeeps(s: State, m: Mechanism, h: Handler)
    requires Inv(s) && SaslReply(h)
    ensures Inv(TryMechanism(s, m, h))
  {
    hide Safe;
    var sent := Send(s, Message.Auth(m));
    SentFirst(s, m, h);
    hide *;
    SendKeeps(s, Message.Auth(m));
    AskedIsMet(s.history, s.link, Message.Auth(m), MechanismAsked);
    SaslEntryOk(sent.history, h);
    AddHandlerKeeps(sent, h, Some(NS_SASL), None, None);
    SameKeeps(AddHandler(sent, h, Some(NS_SASL), None, None), TryMechanism(s, m, h));
  }

  lemma {:induction false} SaslEntryOk(h: seq<Obs>, handler: Handler)
    requires SaslReply(handler) && Occurs(h, [MechanismAsked])
    ensures EntryOk(h, Entry(handler, Some(NS_SASL), None, None, false))
  {
    hide Occurs;
  }

  /** It makes no difference to the registrations whether the message was sent first. */
  lemma {:induction false} SentFirst(s: State, m: Mechanism, h: Handler)
    ensures var a, t := AddHandler(Send(s, Message.Auth(m)), h, Some(NS_SASL), None, None), TryMechanism(s, m, h);
      && t.history == a.history && t.handlers == a.handlers && t.ids == a.ids && t.openHandler == a.openHandler
      && t.bindRequired == a.bindRequired && t.sessionRequired == a.sessionRequired && t.authenticated == a.authenticated
    ensures Send(s, Message.Auth(m)).history == s.history + [SentAs(s.link, Message.Auth(m))]
  {
    hide SentAs, WithEntry;
  }

  lemma {:induction false} TimedKeeps(s: State, timed: seq<Timer>, tick: nat)
    requires Inv(s)
    ensures Inv(s.(timed := timed, tick := tick))
  {
    hide Safe, Occurs, EntryOk, IdOk;
  }

  lemma {:induction false} AddTimedKeeps(s: State, env: Env, h: Handler, period: nat)
    requires Inv(s)
    ensures Inv(AddTimed(s, env, h, period))
  {
    hide Inv;
    var t := AddTimed(s, env, h, period);
    TimedKeeps(s, t.timed, t.tick);
  }

  lemma {:induction false} DeleteTimedKeeps(s: State, h: Handler)
    requires Inv(s)
    ensures Inv(DeleteTimed(s, h))
  {
    hide Inv;
    TimedKeeps(s, WithoutTimer(s.timed, h), s.tick);
  }

  lemma {:induction false} RequestKeeps(s: State, env: Env, h: Handler, id: string, timer: Handler, period: nat, m: Message)
    requires Inv(s)
    requires IdOk(Send(s, m).history, id, h)
    ensures Inv(Request(s, env, h, id, timer, period, m))
  {
    hide Inv, IdOk, SentAs, Chain, IsTimed;
    SendKeeps(s, m);
    AddIdKeeps(Send(s, m), h, id);
    SameKeeps(AddId(Send(s, m), h, id), Request(s, env, h, id, timer, period, m));
  }

  /** The invariant speaks of these parts of a state only. */
  lemma {:induction false} SameKeeps(s: State, t: State)
    requires Inv(s)
    requires t.history == s.history && t.handlers == s.handlers && t.ids == s.ids && t.openHandler == s.openHandler
    requires t.bindRequired == s.bindRequired && t.sessionRequired == s.sessionRequired && t.authenticated == s.authenticated
    ensures Inv(t)
  {
    hide Safe, Occurs, EntriesOk, IdsOk;
  }

  lemma {:induction false} TryAuthKeeps(s: State, env: Env)
    requires Inv(s)
    ensures Inv(TryAuth(s, env))
    decreases s.tlsSupport
  {
    hide Safe, Occurs, Meets, Inv, TryMechanism, XmppDisconnect, Send, AddHandler, AddId, AddTimed, TlsAsked;
    var o := AuthCalled(Left(s));
    var s0 := Observe(s, o);
    NotMet(o);
    ObserveKeeps(s, o);
    TryAuthCases(s0, env);
    if s.tlsSupport {
      TlsAskedKeeps(s0, env);
      if !env(s.tick).tlsAvailable {
        TryAuthKeeps(TlsAsked(s0, env).(tlsSupport := false), env);
      }
    }
  }

  lemma {:induction false} TlsAskedKeeps(s: State, env: Env)
    requires Inv(s)
    ensures var s1 := TlsAsked(s, env);
      && Inv(s1.(tlsSupport := false))
      && Inv(Send(AddHandler(s1, HandleProceedTls, Some(NS_TLS), None, None), StartTls).(tlsSupport := false))
  {
    var s0, o := s.(tick := s.tick + 1), TlsProbed(s.tick);
    assert TlsAsked(s, env) == Observe(s0, o);
    assert MayFollow(s0.history, o) && Quiet(o);
    hide *;
    TimedKeeps(s, s.timed, s.tick + 1);
    ObserveKeeps(s0, o);
    SupportKeeps(Observe(s0, o), false);
    TryTlsKeeps(Observe(s0, o));
  }

  lemma {:induction false} SupportKeeps(s: State, tlsSupport: bool)
    requires Inv(s)
    ensures Inv(s.(tlsSupport := tlsSupport))
  {
    hide Inv;
    SameKeeps(s, s.(tlsSupport := tlsSupport));
  }

  /** Fields that the invariant does not speak of. */
  lemma {:induction false} PlainFieldsKeep(s: State, tlsSupport: bool, tlsDisabled: bool, sasl: set<Mechanism>, secured: bool, tick: nat)
    requires Inv(s)
    ensures Inv(s.(tlsSupport := tlsSupport, tlsDisabled := tlsDisabled, sasl := sasl, secured := secured, tick := tick))
    ensures Inv(Stop(s))
  {
    hide Safe, Occurs, EntryOk, IdOk;
  }

  lemma {:induction false} TryAuthCases(s: State, env: Env)
    requires Inv(s)
    ensures Inv(TryMechanism(s, Anonymous, HandleSaslResult)) && Inv(TryMechanism(s, Plain, HandleSaslResult))
    ensures Inv(TryMechanism(s, DigestMd5, HandleDigestChallenge))
    ensures Inv(XmppDisconnect(s, env)) && Inv(Stop(s))
    ensures Inv(Request(s, env, HandleLegacy, "_xmpp_auth1", MissingLegacy, LEGACY_TIMEOUT, LegacyIq))
  {
    hide Safe, Meets, Occurs, Inv, TryMechanism, XmppDisconnect, AddHandler, AddId, AddTimed, Request, Listed;
    TryMechanismKeeps(s, Anonymous, HandleSaslResult);
    TryMechanismKeeps(s, Plain, HandleSaslResult);
    TryMechanismKeeps(s, DigestMd5, HandleDigestChallenge);
    DisconnectKeeps(s, env);
    PlainFieldsKeep(s, s.tlsSupport, s.tlsDisabled, s.sasl, s.secured, s.tick);
    TryLegacyKeeps(s, env);
  }

  lemma {:induction false} TryTlsKeeps(s: State)
    requires Inv(s)
    ensures Inv(Send(AddHandler(s, HandleProceedTls, Some(NS_TLS), None, None), StartTls).(tlsSupport := false))
  {
    hide Safe, Meets, Inv, AddHandler;
    AddHandlerKeeps(s, HandleProceedTls, Some(NS_TLS), None, None);
    var s2 := AddHandler(s, HandleProceedTls, Some(NS_TLS), None, None);
    SendKeeps(s2, StartTls);
    var s3 := Send(s2, StartTls);
    PlainFieldsKeep(s3, false, s3.tlsDisabled, s3.sasl, s3.secured, s3.tick);
  }

  lemma {:induction false} TryLegacyKeeps(s: State, env: Env)
    requires Inv(s)
    ensures Inv(Request(s, env, HandleLegacy, "_xmpp_auth1", MissingLegacy, LEGACY_TIMEOUT, LegacyIq))
  {
    hide Safe, Meets, Occurs, Inv, Request;
    AskedIsMet(s.history, s.link, LegacyIq, LegacyAsked);
    RequestKeeps(s, env, HandleLegacy, "_xmpp_auth1", MissingLegacy, LEGACY_TIMEOUT, LegacyIq);
  }

  lemma {:induction false} AskedIsMet(h: seq<Obs>, link: Link, msg: Message, m: Milestone)
    requires (m == MechanismAsked && msg.Auth?) || (m == LegacyAsked && msg == LegacyIq) || (m == BindAsked && msg.BindIq?) || (m == SessionAsked && msg == SessionIq)
    ensures var o := SentAs(link, msg);
      Meets(o, m) && Occurs(h + [o], [m])
  {
    OccursOne(h, SentAs(link, msg), m);
  }

  // ------------------------------------------- the handlers keep the invariant

  lemma {:induction false} OnFeaturesKeeps(s: State, env: Env, st: Stanza)
    requires Inv(s)
    ensures Inv(OnFeatures(s, env, st))
  {
    hide Inv, TryAuth, DeleteTimed, TlsSeen, SaslSeen, Stop;
    var s0 := DeleteTimed(s, MissingFeatures);
    var tls, sasl := TlsSeen(s, st), SaslSeen(s, st);
    DeleteTimedKeeps(s, MissingFeatures);
    StopKeeps(s0);
    if tls.Some? {
      SupportKeeps(s0, tls.value);
      StopKeeps(s0.(tlsSupport := tls.value));
      if sasl.Some? {
        var s1 := s0.(tlsSupport := tls.value, sasl := sasl.value);
        SeenKeeps(s0, tls.value, sasl.value);
        TryAuthKeeps(s1, env);
      }
    }
  }

  lemma {:induction false} SeenKeeps(s: State, tls: bool, sasl: set<Mechanism>)
    requires Inv(s)
    ensures Inv(s.(tlsSupport := tls, sasl := sasl))
  {
    hide Inv;
    SameKeeps(s, s.(tlsSupport := tls, sasl := sasl));
  }

  lemma {:induction false} FeaturesFields(s: State, h: Handler)
    ensures var d := DeleteTimed(s, h);
      d.tlsSupport == s.tlsSupport && d.sasl == s.sasl && d.secured == s.secured && d.tlsDisabled == s.tlsDisabled
      && d.bindRequired == s.bindRequired && d.sessionRequired == s.sessionRequired && d.account == s.account
      && d.history == s.history && d.link == s.link && d.tick == s.tick
  {
  }

  lemma {:induction false} OnProceedTlsKeeps(s: State, env: Env, st: Stanza)
    requires Inv(s)
    ensures Inv(OnProceedTls(s, env, st))
  {
    hide Safe, Occurs, Meets, Inv, XmppDisconnect, Restart;
    PlainFieldsKeep(s, s.tlsSupport, s.tlsDisabled, s.sasl, s.secured, s.tick + 1);
    PlainFieldsKeep(s, s.tlsSupport, s.tlsDisabled, s.sasl, true, s.tick + 1);
    var s1 := s.(tick := s.tick + 1, secured := true);
    NotMet(TlsStarted);
    ObserveKeeps(s1, TlsStarted);
    DisconnectKeeps(s.(tick := s.tick + 1), env);
    RestartKeeps(Observe(s1, TlsStarted), AuthOpen);
  }

  lemma {:induction false} OnSaslResultKeeps(s: State, env: Env, st: Stanza)
    requires Inv(s) && (Name(st) == Some("success") ==> Occurs(s.history, SaslPath))
    ensures Inv(OnSaslResult(s, env, st))
  {
    hide Safe, Occurs, Meets, Inv, XmppDisconnect, Restart, TryAuth;
    TryAuthKeeps(s, env);
    DisconnectKeeps(s, env);
    if Name(st) == Some("success") {
      RestartKeeps(s, SaslOpen);
    }
  }

  lemma {:induction false} OnDigestChallengeKeeps(s: State, env: Env, st: Stanza)
    requires Inv(s) && (Name(st) == Some("success") ==> Occurs(s.history, SaslPath)) && Occurs(s.history, [MechanismAsked])
    ensures Inv(OnDigestChallenge(s, env, st))
  {
    hide Safe, Inv, XmppDisconnect, OnSaslResult, AddHandler, GetText;
    OnSaslResultKeeps(s, env, st);
    PlainFieldsKeep(s, s.tlsSupport, s.tlsDisabled, s.sasl, s.secured, s.tick + 1);
    PlainFieldsKeep(s.(tick := s.tick + 1), s.tlsSupport, s.tlsDisabled, s.sasl, s.secured, s.tick + 1);
    var s0 := s.(tick := s.tick + 1);
    DisconnectKeeps(s0, env);
    var digest := env(s.tick).digest;
    if digest.Made? {
      AddHandlerKeeps(s0, HandleDigestRspauth, Some(NS_SASL), None, None);
      SendKeeps(AddHandler(s0, HandleDigestRspauth, Some(NS_SASL), None, None), Response(Some(digest.text)));
    }
  }

  lemma {:induction false} OnAuthOpenKeeps(s: State, env: Env)
    requires Inv(s)
    ensures Inv(OnAuthOpen(s, env))
  {
    hide Safe, Inv, AddHandler, AddTimed;
    var timed := Restamped(s.timed, env(s.tick).now);
    TimedKeeps(s, timed, s.tick + 1);
    var s0 := s.(timed := timed, tick := s.tick + 1);
    AddHandlerKeeps(s0, HandleError, None, Some("stream:error"), None);
    var s1 := AddHandler(s0, HandleError, None, Some("stream:error"), None);
    AddHandlerKeeps(s1, HandleFeatures, None, Some("stream:features"), None);
    AddTimedKeeps(AddHandler(s1, HandleFeatures, None, Some("stream:features"), None), env, MissingFeatures, FEATURES_TIMEOUT);
  }

  lemma {:induction false} OnSaslOpenKeeps(s: State, env: Env)
    requires Inv(s) && Occurs(s.history, ReopenPath)
    ensures Inv(OnSaslOpen(s, env))
  {
    hide Safe, Inv, AddHandler, AddTimed, Occurs;
    AddHandlerKeeps(s, HandleFeaturesSasl, None, Some("stream:features"), None);
    AddTimedKeeps(AddHandler(s, HandleFeaturesSasl, None, Some("stream:features"), None), env, MissingFeaturesSasl, FEATURES_TIMEOUT);
  }

  /** The connection once the features after SASL were read. */
  function AfterOffer(s: State, st: Stanza, bind: bool, session: bool): State {
    Observe(s, Handled(HandleFeaturesSasl, st)).(
      bindRequired := s.bindRequired || bind, sessionRequired := s.sessionRequired || session)
  }

  predicate Offers(st: Stanza, bind: bool, session: bool) {
    InNs(ChildByName(st, "bind"), NS_BIND) == Some(bind) && InNs(ChildByName(st, "session"), NS_SESSION) == Some(session)
  }

  lemma {:induction false} OfferIsMet(st: Stanza, bind: bool, session: bool)
    requires Offers(st, bind, session)
    ensures bind ==> Meets(Handled(HandleFeaturesSasl, st), BindOffered)
    ensures session <==> Meets(Handled(HandleFeaturesSasl, st), SessionOffered)
  {
    hide InNs, ChildByName;
  }

  lemma {:induction false} OfferOccurs(h: seq<Obs>, st: Stanza, bind: bool, session: bool)
    requires Offers(st, bind, session) && Occurs(h, ReopenPath)
    ensures var g := h + [Handled(HandleFeaturesSasl, st)];
      && (bind || Occurs(h, OfferPath) ==> Occurs(g, OfferPath))
      && (Occurs(g, [SessionOffered]) <==> Occurs(h, [SessionOffered]) || session)
  {
    OfferIsMet(st, bind, session);
    hide Occurs, Offers, Meets;
    var o := Handled(HandleFeaturesSasl, st);
    OccursOne(h, o, SessionOffered);
    if bind {
      OccursNext(h, o, ReopenPath, BindOffered);
      assert ReopenPath + [BindOffered] == OfferPath;
    } else if Occurs(h, OfferPath) {
      OccursLater(h, o, OfferPath);
    }
  }

  lemma {:induction false} OfferFlags(h: seq<Obs>, st: Stanza, open: OpenHandler, b: bool, n: bool, auth: bool, bind: bool, session: bool)
    requires Stand(h, open, b, n, auth) && Occurs(h, ReopenPath) && Offers(st, bind, session)
    ensures var g := h + [Handled(HandleFeaturesSasl, st)];
      Stand(g, open, b || bind, n || session, auth) && (b || bind ==> Occurs(g, OfferPath))
  {
    hide Occurs, Offers;
    var o := Handled(HandleFeaturesSasl, st);
    OfferOccurs(h, st, bind, session);
    InAppended(h, o, Authenticated);
    if open == SaslOpen {
      OccursLater(h, o, SaslPath);
    }
  }

  /** The flags of what the stream offers are set after the observation that says so. */
  lemma {:induction false} OfferKeeps(s: State, st: Stanza, bind: bool, session: bool)
    requires Inv(s) && Occurs(s.history, ReopenPath) && Offers(st, bind, session)
    ensures var r := AfterOffer(s, st, bind, session); Inv(r) && (r.bindRequired ==> Occurs(r.history, OfferPath))
  {
    hide Safe, Occurs, EntriesOk, IdsOk, Offers, Stand;
    OfferFlags(s.history, st, s.openHandler, s.bindRequired, s.sessionRequired, s.authenticated, bind, session);
    assert FlagsOk(s);
    RegistrationsLater(s.history, Handled(HandleFeaturesSasl, st), s.handlers, s.ids);
    SafeNext(s.history, Handled(HandleFeaturesSasl, st));
  }

  lemma {:induction false} FeaturesSaslKept(s: State, env: Env, st: Stanza)
    requires Inv(s) && Occurs(s.history, ReopenPath)
    ensures Kept(OnFeaturesSasl(Observe(s, Handled(HandleFeaturesSasl, st)), env, st))
  {
    var bind, session := InNs(ChildByName(st, "bind"), NS_BIND), InNs(ChildByName(st, "session"), NS_SESSION);
    if bind.Some? && session.Some? {
      hide Safe, Occurs, Inv, OnFeaturesSasl, Observe, InNs, ChildByName;
      OfferKeeps(s, st, bind.value, session.value);
      OfferedKept(s, env, st, bind.value, session.value);
    } else {
      NotOfferedKept(s, env, st);
    }
  }

  lemma {:induction false} NotOfferedKept(s: State, env: Env, st: Stanza)
    requires Inv(s) && Occurs(s.history, ReopenPath)
    requires InNs(ChildByName(st, "bind"), NS_BIND).None? || InNs(ChildByName(st, "session"), NS_SESSION).None?
    ensures Kept(OnFeaturesSasl(Observe(s, Handled(HandleFeaturesSasl, st)), env, st))
  {
    HandledIsSafe(s, HandleFeaturesSasl, st);
    InAppended(s.history, Handled(HandleFeaturesSasl, st), Authenticated);
    hide Safe, Occurs, EntriesOk, IdsOk, WithoutTimer, InNs, ChildByName;
  }

  lemma {:induction false} OfferedKept(s: State, env: Env, st: Stanza, bind: bool, session: bool)
    requires Offers(st, bind, session) && Inv(AfterOffer(s, st, bind, session))
    requires AfterOffer(s, st, bind, session).bindRequired ==> Occurs(AfterOffer(s, st, bind, session).history, OfferPath)
    ensures Inv(OnFeaturesSasl(Observe(s, Handled(HandleFeaturesSasl, st)), env, st))
  {
    hide Safe, Occurs, Inv, WithoutTimer, InNs, ChildByName, BindResource;
    var s2 := DeleteTimed(Observe(s, Handled(HandleFeaturesSasl, st)), MissingFeaturesSasl).(
      bindRequired := s.bindRequired || bind, sessionRequired := s.sessionRequired || session);
    SameKeeps(AfterOffer(s, st, bind, session), s2);
    BindResourceKeeps(s2, env, ChildByName(st, "bind"));
  }

  lemma {:induction false} BindResourceKeeps(s: State, env: Env, bind: Option<Stanza>)
    requires Inv(s) && (s.bindRequired ==> Occurs(s.history, OfferPath))
    ensures Inv(BindResource(s, env, bind))
  {
    hide Safe, Occurs, Inv, XmppDisconnect, Request, RequestedResource;
    if !s.bindRequired {
      DisconnectKeeps(s, env);
    } else if bind.None? {
      SameKeeps(s, Stop(s));
    } else {
      BindRequestKeeps(s, env, bind.value, RequestedResource(s.account));
    }
  }

  lemma {:induction false} HandledIsSafe(s: State, h: Handler, st: Stanza)
    requires Safe(s.history) && (h.User? ==> Authenticated in s.history) && Occurs(s.history, Needs(h))
    ensures Safe(Observe(s, Handled(h, st)).history)
  {
    hide Authorised;
    SafeNext(s.history, Handled(h, st));
  }

  /** A handler of a reply by id may be registered once its request was made. */
  lemma {:induction false} AskKeeps(s: State, env: Env, path: seq<Milestone>, m: Milestone, h: Handler, id: string, timer: Handler, period: nat, msg: Message)
    requires Inv(s) && Occurs(s.history, path) && Needs(h) == path + [m]
    requires (m == BindAsked && msg.BindIq? && h == HandleBind && id == "_xmpp_bind1")
      || (m == SessionAsked && msg == SessionIq && h == HandleSession && id == "_xmpp_session1")
    ensures Inv(Request(s, env, h, id, timer, period, msg))
  {
    var o := SentAs(s.link, msg);
    AskedIsMet(s.history, s.link, msg, m);
    OccursNext(s.history, o, path, m);
    hide Safe, Meets, Occurs, Inv, Request;
    RequestKeeps(s, env, h, id, timer, period, msg);
  }

  lemma {:induction false} BindRequestKeeps(s: State, env: Env, offer: Stanza, resource: Option<string>)
    requires Inv(s) && Occurs(s.history, OfferPath)
    ensures Inv(Request(s, env, HandleBind, "_xmpp_bind1", MissingBind, BIND_TIMEOUT, BindIq(offer, resource)))
  {
    hide Safe, Meets, Occurs, Inv, Request;
    AskKeeps(s, env, OfferPath, BindAsked, HandleBind, "_xmpp_bind1", MissingBind, BIND_TIMEOUT, BindIq(offer, resource));
  }

  lemma {:induction false} SessionRequestKeeps(s: State, env: Env)
    requires Inv(s) && Occurs(s.history, BindPath)
    ensures Inv(Request(s, env, HandleSession, "_xmpp_session1", MissingSession, SESSION_TIMEOUT, SessionIq))
  {
    hide Safe, Meets, Occurs, Inv, Request;
    AskKeeps(s, env, BindPath, SessionAsked, HandleSession, "_xmpp_session1", MissingSession, SESSION_TIMEOUT, SessionIq);
  }

  lemma {:induction false} OnBindKeeps(s: State, env: Env, st: Stanza)
    requires Inv(s) && (Type(st) == Some("result") ==> Occurs(s.history, BindPath))
    ensures Inv(OnBind(s, env, st))
  {
    FeaturesFields(s, MissingBind);
    DeleteTimedKeeps(s, MissingBind);
    var s0 := DeleteTimed(s, MissingBind);
    hide Safe, Meets, Occurs, EntriesOk, IdsOk, XmppDisconnect, Authenticate, DeleteTimed, Request;
    DisconnectKeeps(s0, env);
    if Type(st) == Some("result") {
      if s.sessionRequired {
        SessionRequestKeeps(s0, env);
      } else {
        AuthenticateKeeps(s0, env);
      }
    }
  }

  lemma {:induction false} OccursBefore(h: seq<Obs>, ms: seq<Milestone>, m: Milestone)
    requires Occurs(h, ms + [m])
    ensures Occurs(h, ms)
    decreases |h|
  {
    hide Meets;
    var n := |h| - 1;
    assert (ms + [m])[..|ms|] == ms && h == h[..n] + [h[n]];
    if Occurs(h[..n], ms + [m]) {
      OccursBefore(h[..n], ms, m);
    }
    OccursLater(h[..n], h[n], ms);
  }

  lemma {:induction false} OnSessionKeeps(s: State, env: Env, st: Stanza)
    requires Inv(s) && (Type(st) == Some("result") ==> Occurs(s.history, SessionPath))
    ensures Inv(OnSession(s, env, st))
  {
    FeaturesFields(s, MissingSession);
    DeleteTimedKeeps(s, MissingSession);
    var s0 := DeleteTimed(s, MissingSession);
    hide Safe, Meets, Occurs, Inv, XmppDisconnect, Authenticate, DeleteTimed;
    DisconnectKeeps(s0, env);
    if Type(st) == Some("result") {
      assert SessionPath == (BindPath + [SessionAsked]) + [SessionUp];
      OccursBefore(s.history, BindPath + [SessionAsked], SessionUp);
      OccursBefore(s.history, BindPath, SessionAsked);
      AuthenticateKeeps(s0, env);
    }
  }

  lemma {:induction false} OnLegacyKeeps(s: State, env: Env, st: Stanza)
    requires Inv(s) && (Name(st) == Some("iq") && Type(st) == Some("result") ==> Occurs(s.history, LegacyPath))
    ensures Inv(OnLegacy(s, env, st))
  {
    FeaturesFields(s, MissingLegacy);
    DeleteTimedKeeps(s, MissingLegacy);
    var s0 := DeleteTimed(s, MissingLegacy);
    hide Safe, Meets, Occurs, Inv, XmppDisconnect, Authenticate, DeleteTimed;
    DisconnectKeeps(s0, env);
    if Name(st) == Some("iq") && Type(st) == Some("result") {
      AuthenticateKeeps(s0, env);
    }
  }

  /** What dispatch knows of a handler it calls. */
  ghost predicate MayRun(s: State, h: Handler, st: Stanza) {
    && Occurs(s.history, Needs(h))
    && (SaslReply(h) ==> InNamespace(st, NS_SASL))
    && (h == HandleBind ==> Id(st) == Some("_xmpp_bind1"))
    && (h == HandleSession ==> Id(st) == Some("_xmpp_session1"))
    && (h == HandleLegacy ==> Id(st) == Some("_xmpp_auth1"))
    && Eligible(s, h)
  }

  /** The invariant, or the end of a run that was safe. */
  ghost predicate Kept(s: State) {
    Inv(s) || (s.stopped && Safe(s.history) && (s.authenticated <==> Authenticated in s.history))
  }

  /** The reply that a handler waits for completes its path. */
  lemma {:induction false} ReplyIsMet(h: seq<Obs>, handler: Handler, st: Stanza, path: seq<Milestone>, m: Milestone)
    requires Occurs(h, path) && Meets(Handled(handler, st), m)
    ensures Occurs(h + [Handled(handler, st)], path + [m])
  {
    OccursNext(h, Handled(handler, st), path, m);
  }

  lemma {:induction false} SaslPaths(s: State, h: Handler, st: Stanza)
    requires MayRun(s, h, st) && SaslReply(h)
    ensures var g := Observe(s, Handled(h, st)).history;
      Occurs(g, [MechanismAsked]) && (Name(st) == Some("success") ==> Occurs(g, SaslPath))
  {
    var o := Handled(h, st);
    assert Observe(s, o).history == s.history + [o];
    assert SaslPath == [MechanismAsked] + [Succeeded];
    hide *;
    SaslMayRun(s, h, st);
    OccursLater(s.history, o, [MechanismAsked]);
    if Name(st) == Some("success") {
      SuccessIsMet(h, st);
      ReplyIsMet(s.history, h, st, [MechanismAsked], Succeeded);
    }
  }

  lemma {:induction false} SaslMayRun(s: State, h: Handler, st: Stanza)
    requires MayRun(s, h, st) && SaslReply(h)
    ensures Occurs(s.history, [MechanismAsked]) && InNamespace(st, NS_SASL)
  {
    hide Occurs, InNamespace;
  }

  lemma {:induction false} SuccessIsMet(h: Handler, st: Stanza)
    requires SaslReply(h) && Name(st) == Some("success") && InNamespace(st, NS_SASL)
    ensures Meets(Handled(h, st), Succeeded)
  {
    hide InNamespace, Name;
  }

  lemma {:induction false} ReplyPaths(s: State, h: Handler, st: Stanza)
    requires MayRun(s, h, st)
    ensures var g := Observe(s, Handled(h, st)).history;
      && (h == HandleBind && Type(st) == Some("result") ==> Occurs(g, BindPath))
      && (h == HandleSession && Type(st) == Some("result") ==> Occurs(g, SessionPath))
      && (h == HandleLegacy && Name(st) == Some("iq") && Type(st) == Some("result") ==> Occurs(g, LegacyPath))
  {
    var o := Handled(h, st);
    hide Occurs;
    if h == HandleBind && Type(st) == Some("result") {
      ReplyIsMet(s.history, h, st, Needs(h), Bound);
      assert BindPath == Needs(h) + [Bound];
    }
    if h == HandleSession && Type(st) == Some("result") {
      ReplyIsMet(s.history, h, st, Needs(h), SessionUp);
      assert SessionPath == Needs(h) + [SessionUp];
    }
    if h == HandleLegacy && Name(st) == Some("iq") && Type(st) == Some("result") {
      ReplyIsMet(s.history, h, st, Needs(h), LegacyUp);
      assert LegacyPath == Needs(h) + [LegacyUp];
    }
  }

  lemma {:induction false} HandledKeeps(s: State, h: Handler, st: Stanza)
    requires Inv(s) && (h.User? ==> s.authenticated) && h != HandleFeaturesSasl && Occurs(s.history, Needs(h))
    ensures Inv(Observe(s, Handled(h, st)))
  {
    assert Quiet(Handled(h, st));
    hide Safe, Occurs, Meets, EntriesOk, IdsOk, Authorised;
    ObserveKeeps(s, Handled(h, st));
  }

  lemma {:induction false} SaslStanzaKeeps(s: State, env: Env, h: Handler, st: Stanza)
    requires Inv(s) && MayRun(s, h, st) && SaslReply(h)
    ensures Inv(OnStanza(s, env, h, st))
  {
    var s0 := Observe(s, Handled(h, st));
    SaslPaths(s, h, st);
    HandledKeeps(s, h, st);
    assert h == HandleSaslResult || h == HandleDigestChallenge || h == HandleDigestRspauth;
    assert s0.history == Observe(s, Handled(h, st)).history;
    hide *;
    StanzaCases(s, env, h, st);
    if h == HandleDigestChallenge {
      OnDigestChallengeKeeps(s0, env, st);
    } else if h == HandleDigestRspauth && Name(st) == Some("challenge") {
      SendKeeps(s0, Response(None));
    } else {
      OnSaslResultKeeps(s0, env, st);
    }
  }

  lemma {:induction false} IdStanzaKeeps(s: State, env: Env, h: Handler, st: Stanza)
    requires Inv(s) && MayRun(s, h, st) && (h == HandleBind || h == HandleSession || h == HandleLegacy)
    ensures Inv(OnStanza(s, env, h, st))
  {
    var s0 := Observe(s, Handled(h, st));
    ReplyPaths(s, h, st);
    HandledKeeps(s, h, st);
    hide Safe, Occurs, Meets, Inv, OnBind, OnSession, OnLegacy, MayRun;
    if h == HandleBind {
      OnBindKeeps(s0, env, st);
    } else if h == HandleSession {
      OnSessionKeeps(s0, env, st);
    } else {
      OnLegacyKeeps(s0, env, st);
    }
  }

  lemma {:induction false} OtherStanzaKeeps(s: State, env: Env, h: Handler, st: Stanza)
    requires Inv(s) && MayRun(s, h, st) && !SaslReply(h)
    requires h != HandleBind && h != HandleSession && h != HandleLegacy && h != HandleFeaturesSasl
    ensures Inv(OnStanza(s, env, h, st))
  {
    var s0 := Observe(s, Handled(h, st));
    HandledKeeps(s, h, st);
    assert !SaslReply(h) ==> h != HandleSaslResult && h != HandleDigestChallenge && h != HandleDigestRspauth;
    hide *;
    StanzaCases(s, env, h, st);
    if h == HandleFeatures {
      OnFeaturesKeeps(s0, env, st);
    } else if h == HandleProceedTls {
      OnProceedTlsKeeps(s0, env, st);
    } else if h.User? {
      CallbackKeeps(s0, env);
    } else if h == HandleError {
      StopKeeps(s0);
    } else {
      NoStanzaCase(s, env, h, st);
    }
  }

  lemma {:induction false} StopKeeps(s: State)
    requires Inv(s)
    ensures Inv(Stop(s))
  {
    hide Inv;
    SameKeeps(s, Stop(s));
  }

  lemma {:induction false} OnStanzaKeeps(s: State, env: Env, h: Handler, st: Stanza)
    requires Inv(s) && MayRun(s, h, st)
    ensures Kept(OnStanza(s, env, h, st))
  {
    if SaslReply(h) {
      SaslStanzaKeeps(s, env, h, st);
    } else if h == HandleBind || h == HandleSession || h == HandleLegacy {
      IdStanzaKeeps(s, env, h, st);
    } else if h == HandleFeaturesSasl {
      hide Safe, Occurs, Inv, OnFeaturesSasl, Kept, Observe;
      FeaturesSaslKept(s, env, st);
      assert OnStanza(s, env, h, st) == OnFeaturesSasl(Observe(s, Handled(HandleFeaturesSasl, st)), env, st);
    } else {
      OtherStanzaKeeps(s, env, h, st);
    }
  }

  // ---------------------------------------------- dispatch keeps the invariant

  lemma {:induction false} OnTimerKeeps(s: State, env: Env, h: Handler)
    requires Inv(s) && Eligible(s, h)
    ensures Inv(OnTimer(s, env, h))
  {
    var s0 := Observe(s, Fired(h));
    assert MayFollow(s.history, Fired(h)) && Quiet(Fired(h));
    hide *;
    TimerCases(s, env, h);
    ObserveKeeps(s, Fired(h));
    if h == MissingFeatures {
      TryAuthKeeps(s0, env);
    } else if h == DisconnectCleanup {
      ConnDisconnectKeeps(s0, env);
    } else if h.User? {
      CallbackKeeps(s0, env);
    } else {
      DisconnectKeeps(s0, env);
    }
  }

  lemma {:induction false} IdMayRun(s: State, st: Stanza, id: string, k: nat)
    requires Inv(s) && Id(st) == Some(id) && k < |Chain(s.ids, id)| && Eligible(s, Chain(s.ids, id)[k])
    ensures MayRun(s, Chain(s.ids, id)[k], st)
  {
    hide Occurs, Safe, InNamespace;
    assert IdOk(s.history, id, Chain(s.ids, id)[k]);
  }

  lemma {:induction false} EntryMayRun(s: State, st: Stanza, e: Entry)
    requires EntryOk(s.history, e) && Matches(e, st) && Eligible(s, e.handler)
    ensures MayRun(s, e.handler, st)
  {
    hide Occurs;
  }

  lemma {:induction false} UnchainKeeps(s: State, id: string, k: nat, prev: nat)
    requires Inv(s) && prev <= k < |Chain(s.ids, id)|
    ensures Inv(s.(ids := s.ids[id := Unchained(Chain(s.ids, id), k, prev)]))
  {
    hide Occurs, Safe, IdOk, EntryOk, NoTwice;
    var chain := Chain(s.ids, id);
    if id in s.ids {
      assert ChainOk(s.history, id, s.ids[id]);
      NoTwiceCut(chain, k, prev);
    }
    var ids := s.ids[id := Unchained(chain, k, prev)];
    assert ChainOk(s.history, id, chain);
    assert ChainOk(s.history, id, Unchained(chain, k, prev));
    assert IdsOk(s.history, ids);
  }

  lemma {:induction false} RemoveKeeps(s: State, i: nat)
    requires Inv(s) && i < |s.handlers|
    ensures Inv(s.(handlers := RemoveAt(s.handlers, i)))
  {
    hide Occurs, Safe, IdOk, EntryOk;
  }

  lemma {:induction false} EnableKeeps(s: State)
    requires Inv(s)
    ensures Inv(s.(handlers := Enabled(s.handlers)))
  {
    hide Occurs, Safe, IdOk;
    forall i | 0 <= i < |s.handlers| ensures EntryOk(s.history, Enabled(s.handlers)[i]) {
      assert EntryOk(s.history, s.handlers[i]);
    }
  }

  lemma {:induction false} FireIdsKeeps(s: State, env: Env, st: Stanza, id: string, k: nat, prev: nat, r: nat)
    requires Kept(s) && Id(st) == Some(id)
    ensures Kept(FireIds(s, env, st, id, k, prev, r))
    decreases r
  {
    hide Kept, Inv, OnStanza, Unchained, Stays, Id, MayRun, Eligible;
    var chain := Chain(s.ids, id);
    if !(r == 0 || s.stopped || k >= |chain| || prev > k) {
      assert Inv(s) by { KeptRuns(s); }
      if !Eligible(s, chain[k]) {
        FireIdsKeeps(s, env, st, id, k + 1, prev, r - 1);
      } else {
        IdMayRun(s, st, id, k);
        OnStanzaKeeps(s, env, chain[k], st);
        var s1 := OnStanza(s, env, chain[k], st);
        if s1.stopped || k >= |Chain(s1.ids, id)| || Stays(s, env, chain[k], st) {
          FireIdsKeeps(s1, env, st, id, k + 1, k + 1, r - 1);
        } else {
          KeptRuns(s1);
          UnchainKeeps(s1, id, k, prev);
          InvIsKept(s1.(ids := s1.ids[id := Unchained(Chain(s1.ids, id), k, prev)]));
          FireIdsKeeps(s1.(ids := s1.ids[id := Unchained(Chain(s1.ids, id), k, prev)]), env, st, id, prev, prev, r - 1);
        }
      }
    }
  }

  lemma {:induction false} KeptRuns(s: State)
    requires Kept(s) && !s.stopped
    ensures Inv(s)
  {
  }

  lemma {:induction false} InvIsKept(s: State)
    requires Inv(s)
    ensures Kept(s)
  {
  }

  lemma {:induction false} FireListKeeps(s: State, env: Env, st: Stanza, i: nat, r: nat)
    requires Kept(s)
    ensures Kept(FireList(s, env, st, i, r))
    decreases r
  {
    hide Kept, OnStanza, RemoveAt, Stays, MayRun, Eligible, Matches, EntryOk, Occurs, Safe, IdOk;
    if !(r == 0 || s.stopped || i >= |s.handlers|) {
      var e := s.handlers[i];
      KeptRuns(s);
      if !Eligible(s, e.handler) || !Matches(e, st) {
        FireListKeeps(s, env, st, i + 1, r - 1);
      } else {
        EntryMayRun(s, st, e);
        OnStanzaKeeps(s, env, e.handler, st);
        var s1 := OnStanza(s, env, e.handler, st);
        if s1.stopped || i >= |s1.handlers| || Stays(s, env, e.handler, st) {
          FireListKeeps(s1, env, st, i + 1, r - 1);
        } else {
          KeptRuns(s1);
          RemoveKeeps(s1, i);
          InvIsKept(s1.(handlers := RemoveAt(s1.handlers, i)));
          FireListKeeps(s1.(handlers := RemoveAt(s1.handlers, i)), env, st, i, r - 1);
        }
      }
    }
  }

  lemma {:induction false} FireByIdKeeps(s: State, env: Env, st: Stanza)
    requires Inv(s)
    ensures Kept(FireById(s, env, st))
  {
    hide Kept, Inv, FireIds, Id, Chain;
    InvIsKept(s);
    if Id(st).Some? {
      BusyKeeps(s, Id(st));
      FireIdsKeeps(s.(busyId := Id(st)), env, st, Id(st).value, 0, 0, |Chain(s.ids, Id(st).value)|);
      BusyIsKept(FireIds(s.(busyId := Id(st)), env, st, Id(st).value, 0, 0, |Chain(s.ids, Id(st).value)|));
    }
  }

  lemma {:induction false} FireListedKeeps(s: State, env: Env, st: Stanza)
    requires Kept(s)
    ensures Kept(FireListed(s, env, st))
  {
    hide Kept, Inv, FireList, Enabled;
    if !s.stopped {
      KeptRuns(s);
      EnableKeeps(s);
      InvIsKept(s.(handlers := Enabled(s.handlers)));
      FireListKeeps(s.(handlers := Enabled(s.handlers)), env, st, 0, |s.handlers|);
    }
  }

  lemma {:induction false} FireStanzaKeeps(s: State, env: Env, st: Stanza)
    requires Inv(s)
    ensures Kept(FireStanza(s, env, st))
  {
    var s0 := Observe(s, Received(st));
    hide *;
    StanzaFires(s, env, st);
    ReceivedKeeps(s, st);
    FireByIdKeeps(s0, env, st);
    FireListedKeeps(FireById(s0, env, st), env, st);
  }

  lemma {:induction false} ReceivedKeeps(s: State, st: Stanza)
    requires Inv(s)
    ensures Inv(Observe(s, Received(st)))
  {
    assert Quiet(Received(st)) && MayFollow(s.history, Received(st));
    hide Inv, Meets;
    ObserveKeeps(s, Received(st));
  }

  lemma {:induction false} BusyKeeps(s: State, id: Option<string>)
    requires Inv(s)
    ensures Kept(s.(busyId := id))
  {
    hide Inv;
    SameKeeps(s, s.(busyId := id));
  }

  lemma {:induction false} BusyIsKept(s: State)
    requires Kept(s)
    ensures Kept(s.(busyId := None))
  {
    hide Kept;
    SameIsKept(s, s.(busyId := None));
  }

  lemma {:induction false} SameIsKept(s: State, t: State)
    requires Kept(s) && t.stopped == s.stopped
    requires t.history == s.history && t.handlers == s.handlers && t.ids == s.ids && t.openHandler == s.openHandler
    requires t.bindRequired == s.bindRequired && t.sessionRequired == s.sessionRequired && t.authenticated == s.authenticated
    ensures Kept(t)
  {
    hide Inv;
    if Inv(s) {
      SameKeeps(s, t);
    }
  }

  lemma {:induction false} FireTimersKeeps(s: State, env: Env, i: nat, r: nat)
    requires Inv(s)
    ensures Inv(FireTimers(s, env, i, r))
    decreases r
  {
    hide *;
    if r == 0 || s.stopped || i >= |s.timed| {
      TimersEnd(s, env, i, r);
    } else {
      var t := s.timed[i];
      TimersUnfold(s, env, i, r);
      if !Eligible(s, t.handler) {
        FireTimersKeeps(s, env, i + 1, r - 1);
      } else if Elapsed(t.lastStamp, env(s.tick).now) < t.period {
        TimedKeeps(s, s.timed, s.tick + 1);
        SameTimed(s);
        FireTimersKeeps(s.(tick := s.tick + 1), env, i + 1, r - 1);
      } else {
        var stamped := Stamped(s, env, i);
        StampedKeeps(s, env, i);
        OnTimerKeeps(stamped, env, t.handler);
        var s1 := OnTimer(stamped, env, t.handler);
        if t.handler.User? && env(stamped.tick).keep {
          FireTimersKeeps(s1, env, i + 1, r - 1);
        } else {
          DeleteTimedKeeps(s1, t.handler);
          FireTimersKeeps(DeleteTimed(s1, t.handler), env, i, r - 1);
        }
      }
    }
  }

  lemma {:induction false} SameTimed(s: State)
    ensures s.(timed := s.timed, tick := s.tick + 1) == s.(tick := s.tick + 1)
  {
  }

  lemma {:induction false} StampedKeeps(s: State, env: Env, i: nat)
    requires Inv(s) && i < |s.timed| && Eligible(s, s.timed[i].handler)
    ensures Inv(Stamped(s, env, i)) && Eligible(Stamped(s, env, i), s.timed[i].handler)
  {
    hide Inv;
    SameKeeps(s, Stamped(s, env, i));
  }

  lemma {:induction false} FireTimedKeeps(s: State, env: Env)
    requires Inv(s)
    ensures Inv(FireTimed(s, env))
  {
    hide Inv, FireTimers, EnabledTimers;
    SameKeeps(s, s.(timed := EnabledTimers(s.timed)));
    FireTimersKeeps(s.(timed := EnabledTimers(s.timed)), env, 0, |s.timed|);
  }

  // ------------------------------------------------ events keep the invariant

  lemma {:induction false} OpenStreamKeeps(s: State, env: Env)
    requires Inv(s)
    ensures Inv(OpenStream(s, env))
  {
    assert Quiet(Opened) && Meets(Opened, Reopened);
    assert s.openHandler == SaslOpen ==> Occurs(s.history, SaslPath);
    var s1 := Observe(s, Opened);
    hide Inv, OnAuthOpen, OnSaslOpen, Meets, Occurs;
    ObserveKeeps(s, Opened);
    if s.openHandler == AuthOpen {
      OnAuthOpenKeeps(s1, env);
    } else {
      OccursNext(s.history, Opened, SaslPath, Reopened);
      assert SaslPath + [Reopened] == ReopenPath;
      OnSaslOpenKeeps(s1, env);
    }
  }

  lemma {:induction false} OnStreamStartKeeps(s: State, env: Env, name: string, hasId: bool)
    requires Inv(s)
    ensures Inv(OnStreamStart(s, env, name, hasId))
  {
    var s0 := InStream(s, name, hasId);
    assert Quiet(BadHeader) && MayFollow(s0.history, BadHeader);
    hide *;
    StreamStarts(s, env, name, hasId);
    InStreamKeeps(s, name, hasId);
    ObserveKeeps(s0, BadHeader);
    ConnDisconnectKeeps(Observe(s0, BadHeader), env);
    OpenStreamKeeps(ConnDisconnect(Observe(s0, BadHeader), env), env);
    OpenStreamKeeps(s0, env);
  }

  lemma {:induction false} InStreamKeeps(s: State, name: string, hasId: bool)
    requires Inv(s)
    ensures Inv(InStream(s, name, hasId))
  {
    hide Inv;
    SameKeeps(s, InStream(s, name, hasId));
  }

  lemma {:induction false} OnSaxKeeps(s: State, env: Env, x: Sax)
    requires Kept(s)
    ensures Kept(OnSax(s, env, x))
  {
    hide Inv, Kept, OnStreamStart, FireStanza, ConnDisconnect, WithoutTimer;
    if !s.stopped {
      KeptRuns(s);
      match x
      case StreamStart(name, hasId) =>
        OnStreamStartKeeps(s, env, name, hasId);
        InvIsKept(OnStreamStart(s, env, name, hasId));
      case StanzaIn(st) => FireStanzaKeeps(s, env, st);
      case StreamEnd =>
        var s0 := DeleteTimed(s.(inStream := false, streamDone := true), DisconnectCleanup);
        SameKeeps(s, s0);
        ConnDisconnectKeeps(s0, env);
        InvIsKept(ConnDisconnect(s0, env));
    }
  }

  lemma {:induction false} OnChunkKeeps(s: State, env: Env, chunk: seq<Sax>)
    requires Kept(s)
    ensures Kept(OnChunk(s, env, chunk))
    decreases chunk
  {
    hide Kept, OnSax;
    if chunk != [] {
      OnSaxKeeps(s, env, chunk[0]);
      OnChunkKeeps(OnSax(s, env, chunk[0]), env, chunk[1..]);
    }
  }

  lemma {:induction false} DisconnectedIsKept(s: State, env: Env)
    requires Kept(s) && !s.stopped
    ensures Kept(ConnDisconnect(s, env))
  {
    hide Inv, ConnDisconnect;
    ConnDisconnectKeeps(s, env);
  }

  lemma {:induction false} OnReadKeeps(s: State, env: Env, sax: seq<Sax>, wellFormed: bool)
    requires Kept(s)
    ensures Kept(OnRead(s, env, sax, wellFormed))
  {
    hide Kept, ConnDisconnect, OnChunk;
    OnChunkKeeps(s, env, sax);
    if !OnChunk(s, env, sax).stopped {
      DisconnectedIsKept(OnChunk(s, env, sax), env);
    }
  }

  lemma {:induction false} ConnectedKeeps(s: State)
    requires Inv(s)
    ensures Inv(Send(s.(link := Connected), StreamHeader))
  {
    hide Inv, Send;
    SameKeeps(s, s.(link := Connected));
    SendKeeps(s.(link := Connected), StreamHeader);
  }

  lemma {:induction false} OnIoKeeps(s: State, env: Env, io: Io)
    requires Kept(s)
    ensures Kept(OnIo(s, env, io))
  {
    hide Kept, Inv, ConnDisconnect, OnRead, Send;
    if s.stopped || io == Idle {
    } else if io == ConnectDone {
      KeptRuns(s);
      ConnectedKeeps(s);
      InvIsKept(Send(s.(link := Connected), StreamHeader));
    } else if io.Chunk? {
      OnReadKeeps(s, env, io.sax, io.wellFormed);
    } else {
      DisconnectedIsKept(s, env);
    }
  }

  lemma {:induction false} FireTimedIsKept(s: State, env: Env)
    requires Kept(s)
    ensures Kept(FireTimed(s, env))
  {
    hide Inv, FireTimers;
    if !s.stopped {
      FireTimedKeeps(s, env);
    }
  }

  lemma {:induction false} AfterWriteKeeps(s: State, env: Env, writeFails: bool)
    requires Kept(s) && !s.stopped
    ensures Kept(AfterWrite(s, env, writeFails))
  {
    hide Kept, ConnDisconnect;
    DisconnectedIsKept(s, env);
  }

  lemma {:induction false} AfterResetKeeps(s: State)
    requires Kept(s)
    ensures Kept(AfterReset(s))
  {
    hide Kept;
    SameIsKept(s, AfterReset(s));
  }

  lemma {:induction false} RunOnceKeeps(s: State, env: Env, writeFails: bool, io: Io)
    requires Kept(s) && !s.stopped
    ensures Kept(RunOnce(s, env, writeFails, io))
  {
    hide Kept, AfterWrite, AfterReset, FireTimed, OnIo;
    AfterWriteKeeps(s, env, writeFails);
    AfterResetKeeps(AfterWrite(s, env, writeFails));
    var s2 := AfterReset(AfterWrite(s, env, writeFails));
    FireTimedIsKept(s2, env);
    OnIoKeeps(FireTimed(s2, env), env, io);
    FireTimedIsKept(OnIo(FireTimed(s2, env), env, io), env);
  }

  lemma {:induction false} DropKeeps(s: State, h: Handler, id: string)
    requires Inv(s)
    ensures Inv(DropUser(s, h, id))
  {
    hide Occurs, Safe, EntriesOk, IdsOk, WithoutTimer, WithoutEntry, WithoutId;
    WithoutEntryKeeps(s.history, s.handlers, h);
    WithoutIdKeeps(s.history, s.ids, h, id);
  }

  lemma {:induction false} WithoutIdKeeps(g: seq<Obs>, ids: map<string, seq<Handler>>, h: Handler, id: string)
    requires IdsOk(g, ids)
    ensures IdsOk(g, WithoutId(ids, h, id))
  {
    hide IdOk, WithoutHandler, ChainOk;
    if id in ids {
      WithoutHandlerKeeps(g, id, ids[id], h);
    }
  }

  lemma {:induction false} WithoutEntryKeeps(g: seq<Obs>, hs: seq<Entry>, h: Handler)
    requires EntriesOk(g, hs)
    ensures EntriesOk(g, WithoutEntry(hs, h))
  {
    hide EntryOk;
    if hs != [] {
      WithoutEntryKeeps(g, hs[1..], h);
    }
  }

  lemma {:induction false} WithoutHandlerKeeps(g: seq<Obs>, id: string, chain: seq<Handler>, h: Handler)
    requires ChainOk(g, id, chain)
    ensures ChainOk(g, id, WithoutHandler(chain, h))
  {
    hide IdOk;
    if chain != [] {
      WithoutHandlerKeeps(g, id, chain[1..], h);
      if chain[0] != h {
        var rest := WithoutHandler(chain[1..], h);
        if chain[0] in rest {
          WithoutHandlerIn(chain[1..], h, chain[0]);
        }
        NoTwiceFirst(chain[0], rest);
        assert IdOk(g, id, chain[0]);
      }
    }
  }

  lemma {:induction false} NoTwiceFirst(h: Handler, rest: seq<Handler>)
    requires NoTwice(rest) && h !in rest
    ensures NoTwice([h] + rest)
  {
  }

  lemma {:induction false} WithoutHandlerIn(chain: seq<Handler>, h: Handler, x: Handler)
    requires x in WithoutHandler(chain, h)
    ensures x in chain
  {
    if chain[0] != h && x != chain[0] {
      WithoutHandlerIn(chain[1..], h, x);
    }
  }

  lemma {:induction false} StepKeeps(s: State, env: Env, e: Event)
    requires Kept(s)
    ensures Kept(Step(s, env, e))
  {
    hide Kept, Inv, RunOnce, Act, DropUser;
    if !s.stopped {
      KeptRuns(s);
      match e
      case Pass(writeFails, io) => RunOnceKeeps(s, env, writeFails, io);
      case Call(action) =>
        ActKeeps(s, env, action);
        InvIsKept(Act(s, env, action));
      case Drop(h, id) =>
        DropKeeps(s, h, id);
        InvIsKept(DropUser(s, h, id));
    }
  }

  lemma {:induction false} RunKeeps(s: State, env: Env, events: seq<Event>)
    requires Kept(s)
    ensures Kept(Run(s, env, events))
    decreases events
  {
    hide Kept, Step;
    if events != [] {
      StepKeeps(s, env, events[0]);
      RunKeeps(Step(s, env, events[0]), env, events[1..]);
    }
  }

  /** Safety over whole runs: whatever the account, the answers from outside and the
      events, every observation stands where it was allowed, and the flag says what the
      history says. */
  lemma {:induction false} RunsAreSafe(account: Account, env: Env, events: seq<Event>)
    ensures var s := Run(Init(account), env, events);
      && (forall i :: 0 <= i < |s.history| ==> MayFollow(s.history[..i], s.history[i]))
      && (s.authenticated <==> Authenticated in s.history)
  {
    var s0 := Init(account);
    assert Kept(s0);
    RunKeeps(s0, env, events);
    hide Run;
    SafeMeansAllowed(Run(s0, env, events).history);
  }
}
