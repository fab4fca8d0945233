/** The client side of stream negotiation (src/auth.c) over a list of handlers that its
    own callbacks change (src/handler.c), with the stream callbacks and the order of the
    event loop (src/conn.c, src/event.c): one connection as a state, and each function as
    a step on it. The server, the user's code and the system are arbitrary. */
module Negotiation {
  import opened Common
  import opened Stanzas

  const NS_TLS := "urn:ietf:params:xml:ns:xmpp-tls"
  const NS_SASL := "urn:ietf:params:xml:ns:xmpp-sasl"
  const NS_BIND := "urn:ietf:params:xml:ns:xmpp-bind"
  const NS_SESSION := "urn:ietf:params:xml:ns:xmpp-session"

  const FEATURES_TIMEOUT: nat := 15000
  const BIND_TIMEOUT: nat := 15000
  const SESSION_TIMEOUT: nat := 15000
  const LEGACY_TIMEOUT: nat := 15000
  const DISCONNECT_TIMEOUT: nat := 2000

  /** The functions that can be registered. Only those of the library are named, the user
      cannot name them; so `user_handler` of a registration is whether it is a User. */
  datatype Handler =
    | HandleError | HandleFeatures | HandleProceedTls | HandleSaslResult | HandleDigestChallenge
    | HandleDigestRspauth | HandleFeaturesSasl | HandleBind | HandleSession | HandleLegacy
    | MissingFeatures | MissingFeaturesSasl | MissingBind | MissingSession | MissingLegacy | DisconnectCleanup
    | User(n: nat)

  datatype Entry = Entry(handler: Handler, ns: Option<string>, name: Option<string>, typ: Option<string>, enabled: bool)
  datatype Timer = Timer(handler: Handler, period: nat, lastStamp: nat, enabled: bool)

  datatype Mechanism = Plain | DigestMd5 | Anonymous

  /** What the client sends. */
  datatype Message =
    | StreamHeader | StreamFooter | StartTls
    | Auth(mechanism: Mechanism) | Response(text: Option<string>)
    | LegacyIq | BindIq(offer: Stanza, resource: Option<string>) | SessionIq
    | UserData(data: string)

  datatype Link = Disconnected | Connecting | Connected
  datatype OpenHandler = AuthOpen | SaslOpen

  /** The account: parts of the JID, and the password if one was set. */
  datatype Account = Account(node: Option<string>, resource: Option<string>, pass: Option<string>, client: bool)

  /** What user code may do from a callback. */
  datatype Action =
    | AddStanza(n: nat, ns: Option<string>, name: Option<string>, typ: Option<string>)
    | AddById(n: nat, id: string)
    | AddTimer(n: nat, period: nat)
    | SendData(data: string)
    | Disconnect
    | DisableTls

  /** The outcome of `sasl_digest_md5`: it may read through a NULL pointer, find no
      response, or make one. */
  datatype Digest = Faults | NoResponse | Made(text: string)

  /** Answers from outside, one per question asked. */
  datatype Reply = Reply(tlsAvailable: bool, tlsStarts: bool, digest: Digest, now: nat, actions: seq<Action>, keep: bool)
  type Env = nat -> Reply

  /** The measure of how much is left to try: see NegotiationOrder. */
  datatype Measure = Measure(unsecured: bool, tlsSupport: bool, mechanisms: nat, legacyUntried: bool)

  /** What can be observed of a run. */
  datatype Obs =
    | Opened
    | Received(st: Stanza)
    | Handled(handler: Handler, st: Stanza)
    | Fired(handler: Handler)
    | Queued(msg: Message)
    | Dropped(msg: Message)
    | AuthCalled(measure: Measure)
    | TlsBarred
    | TlsProbed(at: nat)
    | TlsStarted
    | Authenticated
    | Notified(up: bool)
    | BadHeader

  datatype State = State(
    account: Account,
    link: Link,
    tlsSupport: bool, tlsDisabled: bool, sasl: set<Mechanism>, secured: bool,
    bindRequired: bool, sessionRequired: bool, authenticated: bool,
    openHandler: OpenHandler, resetParser: bool,
    inStream: bool, streamDone: bool, hasStreamId: bool,
    handlers: seq<Entry>, ids: map<string, seq<Handler>>, timed: seq<Timer>,
    busyId: Option<string>,
    stopped: bool, tick: nat,
    history: seq<Obs>)

  /** A connection on which `xmpp_connect_client` was called. */
  function Init(account: Account): State {
    State(account, Connecting, false, false, {}, false, false, false, false, AuthOpen, true,
      false, false, false, [], map[], [], None, false, 0, [])
  }

  function Observe(s: State, o: Obs): State {
    s.(history := s.history + [o])
  }

  /** The C code would read through a NULL pointer here: the run ends. */
  function Stop(s: State): State {
    s.(stopped := true)
  }

  /** `xmpp_send_raw`: only a connected connection queues anything. */
  function SentAs(link: Link, m: Message): Obs {
    if link == Connected then Queued(m) else Dropped(m)
  }

  function Send(s: State, m: Message): State {
    Observe(s, SentAs(s.link, m))
  }

  // ------------------------------------------------------------ registrations

  predicate Listed(hs: seq<Entry>, h: Handler) {
    exists i :: 0 <= i < |hs| && hs[i].handler == h
  }

  predicate IsTimed(ts: seq<Timer>, h: Handler) {
    exists i :: 0 <= i < |ts| && ts[i].handler == h
  }

  function Chain(ids: map<string, seq<Handler>>, id: string): seq<Handler> {
    if id in ids then ids[id] else []
  }

  /** `_handler_add`: nothing if the function is in the list already. */
  function WithEntry(hs: seq<Entry>, e: Entry): seq<Entry> {
    if Listed(hs, e.handler) then hs else hs + [e]
  }

  function AddHandler(s: State, h: Handler, ns: Option<string>, name: Option<string>, typ: Option<string>): State {
    s.(handlers := WithEntry(s.handlers, Entry(h, ns, name, typ, false)))
  }

  /** `_id_handler_add`. */
  function WithId(ids: map<string, seq<Handler>>, h: Handler, id: string): map<string, seq<Handler>> {
    if h in Chain(ids, id) then ids else ids[id := Chain(ids, id) + [h]]
  }

  function AddId(s: State, h: Handler, id: string): State {
    s.(ids := WithId(s.ids, h, id))
  }

  /** `_timed_handler_add`: the clock is read for a new one only. */
  function WithTimer(ts: seq<Timer>, t: Timer): seq<Timer> {
    if IsTimed(ts, t.handler) then ts else ts + [t]
  }

  function AddTimed(s: State, env: Env, h: Handler, period: nat): State {
    s.(timed := WithTimer(s.timed, Timer(h, period, env(s.tick).now, false)),
       tick := if IsTimed(s.timed, h) then s.tick else s.tick + 1)
  }

  function WithoutTimer(ts: seq<Timer>, h: Handler): seq<Timer> {
    if ts == [] then [] else if ts[0].handler == h then ts[1..] else [ts[0]] + WithoutTimer(ts[1..], h)
  }

  /** `xmpp_timed_handler_delete`. */
  function DeleteTimed(s: State, h: Handler): State {
    s.(timed := WithoutTimer(s.timed, h))
  }

  // ------------------------------------------------------- disconnecting, user code

  /** `xmpp_disconnect`. */
  function XmppDisconnect(s: State, env: Env): State {
    if s.link == Disconnected then s
    else AddTimed(Send(s, StreamFooter), env, DisconnectCleanup, DISCONNECT_TIMEOUT)
  }

  /** `xmpp_conn_disable_tls`. */
  function Bar(s: State): State {
    Observe(s.(tlsDisabled := true), TlsBarred)
  }

  /** One call of user code into the library. A registration for the very id whose chain
      is being walked is outside this model and ends the run. */
  function Act(s: State, env: Env, a: Action): State {
    match a
    case AddStanza(n, ns, name, typ) => AddHandler(s, User(n), ns, name, typ)
    case AddById(n, id) => if s.busyId == Some(id) then Stop(s) else AddId(s, User(n), id)
    case AddTimer(n, period) => AddTimed(s, env, User(n), period)
    case SendData(data) => Send(s, UserData(data))
    case Disconnect => XmppDisconnect(s, env)
    case DisableTls => Bar(s)
  }

  function Perform(s: State, env: Env, actions: seq<Action>): State
    decreases actions
  {
    if actions == [] || s.stopped then s else Perform(Act(s, env, actions[0]), env, actions[1..])
  }

  /** User code is called and does what the environment says. */
  function Callback(s: State, env: Env): State {
    Perform(s.(tick := s.tick + 1), env, env(s.tick).actions)
  }

  function Notify(s: State, env: Env, up: bool): State {
    Callback(Observe(s, Notified(up)), env)
  }

  /** `conn_disconnect`. */
  function ConnDisconnect(s: State, env: Env): State {
    Notify(s.(link := Disconnected), env, false)
  }

  /** `conn_prepare_reset` and `conn_open_stream`. */
  function Restart(s: State, open: OpenHandler): State {
    Send(s.(resetParser := true, openHandler := open), StreamHeader)
  }

  // -------------------------------------------------------------------- auth.c

  function Left(s: State): Measure {
    Measure(!s.secured, s.tlsSupport, |s.sasl|, !LegacyTried(s.history))
  }

  predicate LegacyTried(h: seq<Obs>) {
    exists i :: 0 <= i < |h| && (h[i] == Queued(LegacyIq) || h[i] == Dropped(LegacyIq))
  }

  function TryMechanism(s: State, m: Mechanism, h: Handler): State {
    Send(AddHandler(s, h, Some(NS_SASL), None, None), Message.Auth(m)).(sasl := s.sasl - {m})
  }

  /** A request: a handler of the reply is registered, a timer, and the message sent. */
  function Request(s: State, env: Env, h: Handler, id: string, timer: Handler, period: nat, m: Message): State {
    Send(AddTimed(AddId(s, h, id), env, timer, period), m)
  }

  /** `tls_new` is called: whether a TLS context can be had is for the system to say. */
  function TlsAsked(s: State, env: Env): State {
    Observe(s.(tick := s.tick + 1), TlsProbed(s.tick))
  }

  lemma {:induction false} TlsAskedIs(s: State, env: Env)
    ensures TlsAsked(s, env) == Observe(s.(tick := s.tick + 1), TlsProbed(s.tick))
  {
    hide Observe;
  }

  /** `_auth`: the next thing to try. */
  function TryAuth(s: State, env: Env): State
    decreases s.tlsSupport
  {
    var s0 := Observe(s, AuthCalled(Left(s)));
    var anonymous := s.account.node.None?;
    if s.tlsSupport then
      var s1 := TlsAsked(s0, env);
      if !env(s.tick).tlsAvailable then TryAuth(s1.(tlsSupport := false), env)
      else Send(AddHandler(s1, HandleProceedTls, Some(NS_TLS), None, None), StartTls).(tlsSupport := false)
    else if anonymous && Anonymous in s.sasl then TryMechanism(s0, Anonymous, HandleSaslResult)
    else if anonymous then XmppDisconnect(s0, env)
    else if DigestMd5 in s.sasl then TryMechanism(s0, DigestMd5, HandleDigestChallenge)
    else if Plain in s.sasl then
      if !s.account.client then XmppDisconnect(s0, env)
      else if s.account.pass.None? then Stop(s0)
      else TryMechanism(s0, Plain, HandleSaslResult)
    else if s.account.client then
      if s.account.pass.None? then Stop(s0)
      else if s.account.resource.None? then XmppDisconnect(s0, env)
      else
        Request(s0, env, HandleLegacy, "_xmpp_auth1", MissingLegacy, LEGACY_TIMEOUT, LegacyIq)
    else s0
  }

  function Lower(c: char): char {
    if 'A' <= c <= 'Z' then c - 'A' + 'a' else c
  }

  /** `strcasecmp(a, b) == 0`. */
  predicate SameIgnoringCase(a: string, b: string) {
    |a| == |b| && forall i :: 0 <= i < |a| ==> Lower(a[i]) == Lower(b[i])
  }

  function MechanismsOf(text: string): set<Mechanism> {
    if SameIgnoringCase(text, "PLAIN") then {Plain}
    else if SameIgnoringCase(text, "DIGEST-MD5") then {DigestMd5}
    else if SameIgnoringCase(text, "ANONYMOUS") then {Anonymous}
    else {}
  }

  /** The mechanisms among the children of `<mechanisms/>`; None if one of them has no
      name, or is a `<mechanism/>` without text. */
  function Offered(children: seq<Stanza>): Option<set<Mechanism>> {
    if children == [] then Some({})
    else if Name(children[0]).None? then None
    else if Name(children[0]) != Some("mechanism") then Offered(children[1..])
    else
      var text, rest := GetText(children[0]), Offered(children[1..]);
      if text.None? || rest.None? then None else Some(MechanismsOf(text.value) + rest.value)
  }

  /** What a child of a certain name says of a feature; None if it has no namespace. */
  function InNs(child: Option<Stanza>, ns: string): Option<bool> {
    if child.None? then Some(false)
    else if Ns(child.value).None? then None
    else Some(Ns(child.value) == Some(ns))
  }

  /** What `tls_support` becomes; None if a child has no namespace to compare. */
  function TlsSeen(s: State, st: Stanza): Option<bool> {
    if s.secured then Some(s.tlsSupport)
    else if s.tlsDisabled then Some(false)
    else
      match InNs(ChildByName(st, "starttls"), NS_TLS)
      case None => None
      case Some(offered) => Some(offered || s.tlsSupport)
  }

  /** What `sasl_support` becomes; None if something is missing that is compared. */
  function SaslSeen(s: State, st: Stanza): Option<set<Mechanism>> {
    var mechanisms := ChildByName(st, "mechanisms");
    match InNs(mechanisms, NS_SASL)
    case None => None
    case Some(offered) =>
      if !offered then Some(s.sasl)
      else
        match Offered(mechanisms.value.children)
        case None => None
        case Some(ms) => Some(s.sasl + ms)
  }

  /** `_handle_features`. */
  function OnFeatures(s: State, env: Env, st: Stanza): State {
    var s0 := DeleteTimed(s, MissingFeatures);
    match TlsSeen(s, st)
    case None => Stop(s0)
    case Some(support) =>
      match SaslSeen(s, st)
      case None => Stop(s0.(tlsSupport := support))
      case Some(sasl) => TryAuth(s0.(tlsSupport := support, sasl := sasl), env)
  }

  /** `_handle_proceedtls_default`. */
  function OnProceedTls(s: State, env: Env, st: Stanza): State {
    if Name(st) != Some("proceed") then s
    else
      var s0 := s.(tick := s.tick + 1);
      if !env(s.tick).tlsStarts then XmppDisconnect(s0, env)
      else Restart(Observe(s0.(secured := true), TlsStarted), AuthOpen)
  }

  lemma {:induction false} ProceedCases(s: State, env: Env, st: Stanza)
    ensures var s0, r := s.(tick := s.tick + 1), OnProceedTls(s, env, st);
      && (Name(st) != Some("proceed") ==> r == s)
      && (Name(st) == Some("proceed") && !env(s.tick).tlsStarts ==> r == XmppDisconnect(s0, env))
      && (Name(st) == Some("proceed") && env(s.tick).tlsStarts ==> r == Restart(Observe(s0.(secured := true), TlsStarted), AuthOpen))
  {
    hide Name, XmppDisconnect, Restart, Observe;
  }

  /** `_handle_sasl_result`. */
  function OnSaslResult(s: State, env: Env, st: Stanza): State {
    if Name(st) == Some("failure") then TryAuth(s, env)
    else if Name(st) == Some("success") then Restart(s, SaslOpen)
    else XmppDisconnect(s, env)
  }

  /** The response to a challenge is sent, if there is one. */
  function Respond(s: State, env: Env, digest: Digest): State {
    match digest
    case Faults => Stop(s)
    case NoResponse => XmppDisconnect(s, env)
    case Made(text) =>
      Send(AddHandler(s, HandleDigestRspauth, Some(NS_SASL), None, None), Response(Some(text)))
  }

  /** `_handle_digestmd5_challenge`. */
  function OnDigestChallenge(s: State, env: Env, st: Stanza): State {
    if Name(st) != Some("challenge") then OnSaslResult(s, env, st)
    else if GetText(st).None? then Stop(s)
    else Respond(s.(tick := s.tick + 1), env, env(s.tick).digest)
  }

  /** `handler_reset_timed`, of all handlers. */
  function Restamped(ts: seq<Timer>, now: nat): seq<Timer> {
    seq(|ts|, i requires 0 <= i < |ts| => ts[i].(lastStamp := now))
  }

  /** `auth_handle_open`. */
  function OnAuthOpen(s: State, env: Env): State {
    var s0 := s.(timed := Restamped(s.timed, env(s.tick).now), tick := s.tick + 1);
    var s1 := AddHandler(s0, HandleError, None, Some("stream:error"), None);
    var s2 := AddHandler(s1, HandleFeatures, None, Some("stream:features"), None);
    AddTimed(s2, env, MissingFeatures, FEATURES_TIMEOUT)
  }

  /** `_handle_open_sasl`. */
  function OnSaslOpen(s: State, env: Env): State {
    var s0 := AddHandler(s, HandleFeaturesSasl, None, Some("stream:features"), None);
    AddTimed(s0, env, MissingFeaturesSasl, FEATURES_TIMEOUT)
  }

  lemma {:induction false} OpensAre(s: State, env: Env)
    ensures OnAuthOpen(s, env)
      == AddTimed(AddHandler(AddHandler(s.(timed := Restamped(s.timed, env(s.tick).now), tick := s.tick + 1),
           HandleError, None, Some("stream:error"), None), HandleFeatures, None, Some("stream:features"), None),
           env, MissingFeatures, FEATURES_TIMEOUT)
    ensures OnSaslOpen(s, env)
      == AddTimed(AddHandler(s, HandleFeaturesSasl, None, Some("stream:features"), None), env, MissingFeaturesSasl, FEATURES_TIMEOUT)
  {
    hide AddTimed, AddHandler, Restamped;
  }

  function RequestedResource(account: Account): Option<string> {
    if account.resource == Some("") then None else account.resource
  }

  /** `_handle_features_sasl`: the timer is gone, what is offered is remembered. */
  function OnFeaturesSasl(s: State, env: Env, st: Stanza): State {
    var s0 := DeleteTimed(s, MissingFeaturesSasl);
    var offersBind, offersSession := InNs(ChildByName(st, "bind"), NS_BIND), InNs(ChildByName(st, "session"), NS_SESSION);
    if offersBind.None? || offersSession.None? then Stop(s0)
    else
      BindResource(s0.(bindRequired := s.bindRequired || offersBind.value, sessionRequired := s.sessionRequired || offersSession.value),
        env, ChildByName(st, "bind"))
  }

  function BindResource(s: State, env: Env, bind: Option<Stanza>): State {
    if !s.bindRequired then XmppDisconnect(s, env)
    else if bind.None? then Stop(s)
    else
      Request(s, env, HandleBind, "_xmpp_bind1", MissingBind, BIND_TIMEOUT, BindIq(bind.value, RequestedResource(s.account)))
  }

  /** `authenticated` is set and the user is told. */
  function Authenticate(s: State, env: Env): State {
    Notify(Observe(s.(authenticated := true), Authenticated), env, true)
  }

  /** `_handle_bind`. */
  function OnBind(s: State, env: Env, st: Stanza): State {
    var s0 := DeleteTimed(s, MissingBind);
    if Type(st) != Some("result") then XmppDisconnect(s0, env)
    else if s.sessionRequired then
      Request(s0, env, HandleSession, "_xmpp_session1", MissingSession, SESSION_TIMEOUT, SessionIq)
    else Authenticate(s0, env)
  }

  /** `_handle_session`. */
  function OnSession(s: State, env: Env, st: Stanza): State {
    var s0 := DeleteTimed(s, MissingSession);
    if Type(st) == Some("result") then Authenticate(s0, env) else XmppDisconnect(s0, env)
  }

  /** `_handle_legacy`. */
  function OnLegacy(s: State, env: Env, st: Stanza): State {
    var s0 := DeleteTimed(s, MissingLegacy);
    if Name(st) == Some("iq") && Type(st) == Some("result") then Authenticate(s0, env) else XmppDisconnect(s0, env)
  }

  /** A handler is called with a stanza. */
  function OnStanza(s: State, env: Env, h: Handler, st: Stanza): State {
    var s0 := Observe(s, Handled(h, st));
    match h
    case HandleError => if st.children == [] then Stop(s0) else s0
    case HandleFeatures => OnFeatures(s0, env, st)
    case HandleProceedTls => OnProceedTls(s0, env, st)
    case HandleSaslResult => OnSaslResult(s0, env, st)
    case HandleDigestChallenge => OnDigestChallenge(s0, env, st)
    case HandleDigestRspauth =>
      if Name(st) == Some("challenge") then Send(s0, Response(None)) else OnSaslResult(s0, env, st)
    case HandleFeaturesSasl => OnFeaturesSasl(s0, env, st)
    case HandleBind => OnBind(s0, env, st)
    case HandleSession => OnSession(s0, env, st)
    case HandleLegacy => OnLegacy(s0, env, st)
    case User(_) => Callback(s0, env)
    case _ => s0
  }

  lemma {:induction false} StanzaCases(s: State, env: Env, h: Handler, st: Stanza)
    ensures var s0, r := Observe(s, Handled(h, st)), OnStanza(s, env, h, st);
      && (h == HandleFeatures ==> r == OnFeatures(s0, env, st))
      && (h == HandleProceedTls ==> r == OnProceedTls(s0, env, st))
      && (h == HandleSaslResult ==> r == OnSaslResult(s0, env, st))
      && (h == HandleDigestChallenge ==> r == OnDigestChallenge(s0, env, st))
      && (h == HandleDigestRspauth && Name(st) == Some("challenge") ==> r == Send(s0, Response(None)))
      && (h == HandleDigestRspauth && Name(st) != Some("challenge") ==> r == OnSaslResult(s0, env, st))
      && (h == HandleFeaturesSasl ==> r == OnFeaturesSasl(s0, env, st))
      && (h == HandleBind ==> r == OnBind(s0, env, st))
      && (h == HandleSession ==> r == OnSession(s0, env, st))
      && (h == HandleLegacy ==> r == OnLegacy(s0, env, st))
      && (h == HandleError ==> r == if st.children == [] then Stop(s0) else s0)
      && (h.User? ==> r == Callback(s0, env))
  {
    hide OnFeatures, OnProceedTls, OnSaslResult, OnDigestChallenge, Send, Observe, Name;
    hide OnFeaturesSasl, OnBind, OnSession, OnLegacy, Stop, Callback;
  }

  /** The other handlers are none of a stanza, and do nothing. */
  lemma {:induction false} NoStanzaCase(s: State, env: Env, h: Handler, st: Stanza)
    ensures h in {MissingFeatures, MissingFeaturesSasl, MissingBind, MissingSession, MissingLegacy, DisconnectCleanup} ==>
      OnStanza(s, env, h, st) == Observe(s, Handled(h, st))
  {
    hide Observe;
  }

  /** Whether a handler returns true and so stays. */
  function Stays(s: State, env: Env, h: Handler, st: Stanza): bool {
    match h
    case HandleError => true
    case HandleDigestRspauth => Name(st) == Some("challenge")
    case User(_) => env(s.tick).keep
    case _ => false
  }

  lemma {:induction false} StaysCases(s: State, env: Env, h: Handler, st: Stanza)
    ensures h == HandleDigestRspauth ==> Stays(s, env, h, st) == (Name(st) == Some("challenge"))
    ensures h.User? ==> Stays(s, env, h, st) == env(s.tick).keep
    ensures h != HandleDigestRspauth && !h.User? ==> Stays(s, env, h, st) == (h == HandleError)
  {
    hide Name;
  }

  lemma {:induction false} ActCases(s: State, env: Env, a: Action)
    ensures a.AddStanza? ==> Act(s, env, a) == AddHandler(s, User(a.n), a.ns, a.name, a.typ)
    ensures a.AddById? ==> Act(s, env, a) == if s.busyId == Some(a.id) then Stop(s) else AddId(s, User(a.n), a.id)
    ensures a.AddTimer? ==> Act(s, env, a) == AddTimed(s, env, User(a.n), a.period)
    ensures a.SendData? ==> Act(s, env, a) == Send(s, UserData(a.data))
    ensures a.Disconnect? ==> Act(s, env, a) == XmppDisconnect(s, env)
    ensures a.DisableTls? ==> Act(s, env, a) == Observe(s.(tlsDisabled := true), TlsBarred)
  {
    hide AddHandler, Stop, AddId, AddTimed, Send, XmppDisconnect, Observe;
  }

  lemma {:induction false} AddTimedCases(s: State, env: Env, h: Handler, period: nat)
    ensures IsTimed(s.timed, h) ==> AddTimed(s, env, h, period) == s
    ensures !IsTimed(s.timed, h) ==>
      AddTimed(s, env, h, period) == s.(timed := s.timed + [Timer(h, period, env(s.tick).now, false)], tick := s.tick + 1)
  {
    hide IsTimed;
  }

  /** A timed handler is called. */
  function OnTimer(s: State, env: Env, h: Handler): State {
    var s0 := Observe(s, Fired(h));
    match h
    case MissingFeatures => TryAuth(s0, env)
    case DisconnectCleanup => ConnDisconnect(s0, env)
    case User(_) => Callback(s0, env)
    case _ => XmppDisconnect(s0, env)
  }

  lemma {:induction false} TimerCases(s: State, env: Env, h: Handler)
    ensures var s0 := Observe(s, Fired(h));
      && s0.stopped == s.stopped && s.history <= s0.history
      && (h == MissingFeatures ==> OnTimer(s, env, h) == TryAuth(s0, env))
      && (h == DisconnectCleanup ==> OnTimer(s, env, h) == ConnDisconnect(s0, env))
      && (h.User? ==> OnTimer(s, env, h) == Callback(s0, env))
      && (h != MissingFeatures && h != DisconnectCleanup && !h.User? ==> OnTimer(s, env, h) == XmppDisconnect(s0, env))
  {
    hide TryAuth, ConnDisconnect, Callback, XmppDisconnect;
  }

  // ------------------------------------------------------------------ handler.c

  predicate Eligible(s: State, h: Handler) {
    h.User? ==> s.authenticated
  }

  /** The filters of a registration. */
  predicate Matches(e: Entry, st: Stanza) {
    && (e.ns.None? || Ns(st) == e.ns || HasChildInNs(st, e.ns.value))
    && (e.name.None? || Name(st) == e.name)
    && (e.typ.None? || Type(st) == e.typ)
  }

  /** The chain after its k-th handler was removed: what was before it up to the last one
      that was called (prev of them), and what comes after it. Handlers that were skipped
      directly before it are lost (src/handler.c:56-66). */
  function Unchained(chain: seq<Handler>, k: nat, prev: nat): seq<Handler>
    requires prev <= k < |chain|
  {
    chain[..prev] + chain[k + 1..]
  }

  /** The id handlers: r of the chain are left, from position k on; `prev` is the number of
      the chain's handlers up to the last one that was called and stayed. */
  function FireIds(s: State, env: Env, st: Stanza, id: string, k: nat, prev: nat, r: nat): State
    decreases r
  {
    var chain := Chain(s.ids, id);
    if r == 0 || s.stopped || k >= |chain| || prev > k then s
    else if !Eligible(s, chain[k]) then FireIds(s, env, st, id, k + 1, prev, r - 1)
    else
      var s1 := OnStanza(s, env, chain[k], st);
      if s1.stopped || k >= |Chain(s1.ids, id)| || Stays(s, env, chain[k], st) then
        FireIds(s1, env, st, id, k + 1, k + 1, r - 1)
      else
        FireIds(s1.(ids := s1.ids[id := Unchained(Chain(s1.ids, id), k, prev)]), env, st, id, prev, prev, r - 1)
  }

  function Enabled(hs: seq<Entry>): (r: seq<Entry>)
    ensures |r| == |hs| && forall i :: 0 <= i < |hs| ==> r[i] == hs[i].(enabled := true)
  {
    seq(|hs|, i requires 0 <= i < |hs| => hs[i].(enabled := true))
  }

  function RemoveAt<T>(xs: seq<T>, i: nat): seq<T>
    requires i < |xs|
  {
    xs[..i] + xs[i + 1..]
  }

  /** The stanza handlers: r of those that were there at the start are left, from
      position i on. */
  function FireList(s: State, env: Env, st: Stanza, i: nat, r: nat): State
    decreases r
  {
    if r == 0 || s.stopped || i >= |s.handlers| then s
    else
      var e := s.handlers[i];
      if !Eligible(s, e.handler) || !Matches(e, st) then FireList(s, env, st, i + 1, r - 1)
      else
        var s1 := OnStanza(s, env, e.handler, st);
        if s1.stopped || i >= |s1.handlers| || Stays(s, env, e.handler, st) then FireList(s1, env, st, i + 1, r - 1)
        else FireList(s1.(handlers := RemoveAt(s1.handlers, i)), env, st, i, r - 1)
  }

  /** The handlers of the id of the stanza, if it has one. */
  function FireById(s: State, env: Env, st: Stanza): State {
    if Id(st).None? then s
    else
      FireIds(s.(busyId := Id(st)), env, st, Id(st).value, 0, 0, |Chain(s.ids, Id(st).value)|).(busyId := None)
  }

  /** The list of handlers, all of which are enabled first. */
  function FireListed(s: State, env: Env, st: Stanza): State {
    if s.stopped then s else FireList(s.(handlers := Enabled(s.handlers)), env, st, 0, |s.handlers|)
  }

  /** `handler_fire_stanza`. */
  function FireStanza(s: State, env: Env, st: Stanza): State {
    FireListed(FireById(Observe(s, Received(st)), env, st), env, st)
  }

  lemma {:induction false} StanzaFires(s: State, env: Env, st: Stanza)
    ensures FireStanza(s, env, st) == FireListed(FireById(Observe(s, Received(st)), env, st), env, st)
  {
    hide FireById, FireListed, Observe;
  }

  /** `time_elapsed`, in unsigned 64-bit arithmetic. */
  function Elapsed(from: nat, to: nat): nat {
    (to - from) % 0x1_0000_0000_0000_0000
  }

  function EnabledTimers(ts: seq<Timer>): (r: seq<Timer>)
    ensures |r| == |ts| && forall i :: 0 <= i < |ts| ==> r[i] == ts[i].(enabled := true)
  {
    seq(|ts|, i requires 0 <= i < |ts| => ts[i].(enabled := true))
  }

  /** The clock was read, and is read again for the stamp of the timer that fires. */
  function Stamped(s: State, env: Env, i: nat): State
    requires i < |s.timed|
  {
    s.(timed := s.timed[i := s.timed[i].(lastStamp := env(s.tick + 1).now)], tick := s.tick + 2)
  }

  /** The timed handlers: r of those that were there at the start are left. */
  function FireTimers(s: State, env: Env, i: nat, r: nat): State
    decreases r
  {
    if r == 0 || s.stopped || i >= |s.timed| then s
    else
      var t := s.timed[i];
      if !Eligible(s, t.handler) then FireTimers(s, env, i + 1, r - 1)
      else
        var now := env(s.tick).now;
        if Elapsed(t.lastStamp, now) < t.period then FireTimers(s.(tick := s.tick + 1), env, i + 1, r - 1)
        else
          var stamped := Stamped(s, env, i);
          var s1 := OnTimer(stamped, env, t.handler);
          if t.handler.User? && env(stamped.tick).keep then FireTimers(s1, env, i + 1, r - 1)
          else FireTimers(DeleteTimed(s1, t.handler), env, i, r - 1)
  }

  /** One turn of the loop, and its end. */
  lemma {:induction false} TimersUnfold(s: State, env: Env, i: nat, r: nat)
    requires 0 < r && !s.stopped && i < |s.timed|
    ensures var t := s.timed[i];
      if !Eligible(s, t.handler) then FireTimers(s, env, i, r) == FireTimers(s, env, i + 1, r - 1)
      else if Elapsed(t.lastStamp, env(s.tick).now) < t.period then
        FireTimers(s, env, i, r) == FireTimers(s.(tick := s.tick + 1), env, i + 1, r - 1)
      else
        var stamped := Stamped(s, env, i);
        var s1 := OnTimer(stamped, env, t.handler);
        FireTimers(s, env, i, r)
          == if t.handler.User? && env(stamped.tick).keep then FireTimers(s1, env, i + 1, r - 1)
             else FireTimers(DeleteTimed(s1, t.handler), env, i, r - 1)
  {
    hide OnTimer, DeleteTimed, Stamped, Eligible, Elapsed;
  }

  lemma {:induction false} TimersEnd(s: State, env: Env, i: nat, r: nat)
    requires r == 0 || s.stopped || i >= |s.timed|
    ensures FireTimers(s, env, i, r) == s
  {
    hide OnTimer, DeleteTimed, Stamped, Eligible, Elapsed;
  }

  /** `handler_fire_timed`, for this connection. */
  function FireTimed(s: State, env: Env): State {
    if s.stopped || s.link != Connected then s
    else FireTimers(s.(timed := EnabledTimers(s.timed)), env, 0, |s.timed|)
  }

  // ------------------------------------------------------------ streams and events

  /** What the parser reports to the connection. */
  datatype Sax = StreamStart(name: string, hasId: bool) | StanzaIn(st: Stanza) | StreamEnd

  /** The open handler is called. */
  function OpenStream(s: State, env: Env): State {
    if s.stopped then s
    else if s.openHandler == AuthOpen then OnAuthOpen(Observe(s, Opened), env)
    else OnSaslOpen(Observe(s, Opened), env)
  }

  function InStream(s: State, name: string, hasId: bool): State {
    s.(inStream := true, hasStreamId := s.hasStreamId || (name == "stream:stream" && hasId))
  }

  /** `_handle_stream_start`: a header that is not accepted disconnects, and the open
      handler is called all the same. */
  function OnStreamStart(s: State, env: Env, name: string, hasId: bool): State {
    var s0 := InStream(s, name, hasId);
    if name != "stream:stream" || !s0.hasStreamId then OpenStream(ConnDisconnect(Observe(s0, BadHeader), env), env)
    else OpenStream(s0, env)
  }

  /** A header was accepted, or not. */
  lemma {:induction false} StreamStarts(s: State, env: Env, name: string, hasId: bool)
    ensures var s0 := InStream(s, name, hasId);
      OnStreamStart(s, env, name, hasId) == OpenStream(s0, env)
      || OnStreamStart(s, env, name, hasId) == OpenStream(ConnDisconnect(Observe(s0, BadHeader), env), env)
  {
    hide OpenStream, ConnDisconnect, Observe, InStream;
  }

  function OnSax(s: State, env: Env, x: Sax): State {
    if s.stopped then s
    else
      match x
      case StreamStart(name, hasId) =>
        if s.inStream || s.streamDone then s else OnStreamStart(s, env, name, hasId)
      case StanzaIn(st) => if !s.inStream then s else FireStanza(s, env, st)
      case StreamEnd =>
        if !s.inStream then s
        else ConnDisconnect(DeleteTimed(s.(inStream := false, streamDone := true), DisconnectCleanup), env)
  }

  function OnChunk(s: State, env: Env, chunk: seq<Sax>): State
    decreases chunk
  {
    if chunk == [] then s else OnChunk(OnSax(s, env, chunk[0]), env, chunk[1..])
  }

  /** What `select` and the socket give one pass of the event loop. */
  datatype Io = Idle | ConnectDone | ConnectFailed | Chunk(sax: seq<Sax>, wellFormed: bool) | ReadFailed

  function OnRead(s: State, env: Env, sax: seq<Sax>, wellFormed: bool): State {
    var s1 := OnChunk(s, env, sax);
    if s1.stopped || wellFormed then s1 else ConnDisconnect(s1, env)
  }

  function OnIo(s: State, env: Env, io: Io): State {
    if s.stopped then s
    else if s.link == Connecting then
      if io == ConnectDone then Send(s.(link := Connected), StreamHeader)
      else if io == ConnectFailed then ConnDisconnect(s, env)
      else s
    else if s.link == Connected then
      match io
      case Chunk(sax, wellFormed) => OnRead(s, env, sax, wellFormed)
      case ReadFailed => ConnDisconnect(s, env)
      case _ => s
    else s
  }

  /** The first part of a pass: the queue is written, which may fail. */
  function AfterWrite(s: State, env: Env, writeFails: bool): State {
    if s.link == Connected && writeFails then ConnDisconnect(s, env) else s
  }

  /** The parser starts anew if that was asked for. */
  function AfterReset(s: State): State {
    if s.resetParser then s.(resetParser := false, inStream := false, streamDone := false) else s
  }

  /** `xmpp_run_once`: sending, the reset of the parser, timers, input, timers. */
  function RunOnce(s: State, env: Env, writeFails: bool, io: Io): State {
    var s1 := OnIo(FireTimed(AfterReset(AfterWrite(s, env, writeFails)), env), env, io);
    if io == Idle then s1 else FireTimed(s1, env)
  }

  /** A pass of the event loop, or a call by the user between two passes. */
  datatype Event = Pass(writeFails: bool, io: Io) | Call(action: Action) | Drop(h: Handler, id: string)

  function WithoutEntry(hs: seq<Entry>, h: Handler): seq<Entry> {
    if hs == [] then [] else if hs[0].handler == h then hs[1..] else [hs[0]] + WithoutEntry(hs[1..], h)
  }

  function WithoutHandler(chain: seq<Handler>, h: Handler): seq<Handler> {
    if chain == [] then [] else if chain[0] == h then chain[1..] else [chain[0]] + WithoutHandler(chain[1..], h)
  }

  function WithoutId(ids: map<string, seq<Handler>>, h: Handler, id: string): map<string, seq<Handler>> {
    if id in ids then ids[id := WithoutHandler(ids[id], h)] else ids
  }

  /** The user deletes a handler of his wherever it is registered. */
  function DropUser(s: State, h: Handler, id: string): State {
    s.(handlers := WithoutEntry(s.handlers, h), ids := WithoutId(s.ids, h, id), timed := WithoutTimer(s.timed, h))
  }

  function Step(s: State, env: Env, e: Event): State {
    if s.stopped then s
    else
      match e
      case Pass(writeFails, io) => RunOnce(s, env, writeFails, io)
      case Call(action) => Act(s, env, action)
      case Drop(h, id) => if h.User? then DropUser(s, h, id) else s
  }

  function Run(s: State, env: Env, events: seq<Event>): State
    decreases events
  {
    if events == [] then s else Run(Step(s, env, events[0]), env, events[1..])
  }
}
