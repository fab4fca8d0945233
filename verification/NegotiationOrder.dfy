/** The order of the negotiation. Of a connection only a small core counts: which handlers
    that can call `_auth` again are registered, some flags, and the steps taken. */
module NegotiationOrder {
  import opened Common
  import opened Stanzas
  import opened Negotiation
  import opened Frames
  import AuthSafety

  /** The handlers from which `_auth` is reached, now or once the stream was reopened. */
  predicate Token(h: Handler) {
    || h == HandleFeatures || h == HandleProceedTls
    || h == HandleSaslResult || h == HandleDigestChallenge || h == HandleDigestRspauth
  }

  predicate SaslToken(h: Handler) {
    h == HandleSaslResult || h == HandleDigestChallenge || h == HandleDigestRspauth
  }

  predicate Credential(o: Obs) {
    (o.Queued? || o.Dropped?) && (o.msg.Auth? || o.msg.Response? || o.msg == LegacyIq)
  }

  predicate Asked(p: seq<Obs>, m: Message) {
    Queued(m) in p || Dropped(m) in p
  }

  predicate HasCredential(p: seq<Obs>) {
    exists i :: 0 <= i < |p| && Credential(p[i])
  }

  /** The steps of the negotiation among the observations. */
  predicate Relevant(o: Obs) {
    || o.AuthCalled? || o == TlsStarted || Credential(o) || o == Queued(StartTls) || o == Dropped(StartTls)
    || o == Fired(MissingFeatures) || o.TlsProbed?
  }

  /** Lexicographically less is left to try. */
  predicate Less(a: Measure, b: Measure) {
    || (!a.unsecured && b.unsecured)
    || (a.unsecured == b.unsecured
        && (|| (!a.tlsSupport && b.tlsSupport)
            || (a.tlsSupport == b.tlsSupport
                && (|| a.mechanisms < b.mechanisms
                    || (a.mechanisms == b.mechanisms && !a.legacyUntried && b.legacyUntried)))))
  }

  ghost predicate BelowAll(m: Measure, p: seq<Obs>) {
    forall i :: 0 <= i < |p| && p[i].AuthCalled? ==> Less(m, p[i].measure)
  }

  /** A step that may follow the steps taken before: `_auth` always has less to try; no
      starttls, and no thought of it, after another or after a credential; no credential on
      a stream that a starttls was sent on, until TLS has started; TLS starts once, not after
      the features timeout; no mechanism twice, no legacy request twice. */
  ghost predicate MayStep(p: seq<Obs>, o: Obs) {
    match o
    case AuthCalled(m) => BelowAll(m, p)
    case TlsProbed(_) => !HasCredential(p)
    case TlsStarted => Asked(p, StartTls) && TlsStarted !in p && !Late(p)
    case Queued(m) => MayAsk(p, m)
    case Dropped(m) => MayAsk(p, m)
    case _ => true
  }

  ghost predicate MayAsk(p: seq<Obs>, m: Message) {
    match m
    case StartTls => !Asked(p, StartTls) && !HasCredential(p) && TlsStarted !in p
    case Auth(_) => !Asked(p, m) && (Asked(p, StartTls) ==> TlsStarted in p)
    case Response(_) => Asked(p, StartTls) ==> TlsStarted in p
    case LegacyIq => !Asked(p, LegacyIq) && (Asked(p, StartTls) ==> TlsStarted in p)
    case _ => true
  }

  ghost predicate Orderly(t: seq<Obs>)
    decreases |t|
  {
    t == [] || (Orderly(t[..|t| - 1]) && MayStep(t[..|t| - 1], t[|t| - 1]))
  }

  // ------------------------------------------------------------------- the core

  /** The features timeout has fired. */
  predicate Late(h: seq<Obs>) {
    Fired(MissingFeatures) in h
  }

  /** A handler that can make the next step: once the features timeout has fired, the one
      of the features is not to be called any more. */
  predicate Live(h: Handler, late: bool) {
    Token(h) && !(late && h == HandleFeatures)
  }

  function Tokens(hs: seq<Entry>, late: bool): seq<Handler>
    decreases |hs|
  {
    if hs == [] then []
    else Tokens(hs[..|hs| - 1], late) + (if Live(hs[|hs| - 1].handler, late) then [hs[|hs| - 1].handler] else [])
  }

  /** The timers that wait for the features. */
  function Watches(ts: seq<Timer>): nat {
    if ts == [] then 0 else (if ts[0].handler == MissingFeatures then 1 else 0) + Watches(ts[1..])
  }

  function Steps(h: seq<Obs>): seq<Obs>
    decreases |h|
  {
    if h == [] then []
    else Steps(h[..|h| - 1]) + (if Relevant(h[|h| - 1]) then [h[|h| - 1]] else [])
  }

  datatype Core = Core(
    tokens: seq<Handler>, waiting: nat, open: OpenHandler, resetParser: bool, inStream: bool, streamDone: bool,
    tlsSupport: bool, sasl: set<Mechanism>, secured: bool, steps: seq<Obs>)

  function CoreOf(s: State): Core {
    Core(Tokens(s.handlers, Late(s.history)), Watches(s.timed), s.openHandler, s.resetParser, s.inStream, s.streamDone,
      s.tlsSupport, s.sasl, s.secured, Steps(s.history))
  }

  /** A stream start is to come that makes the connection look for features. */
  predicate Awaited(c: Core) {
    c.open == AuthOpen && (c.resetParser || (!c.inStream && !c.streamDone))
  }

  ghost predicate AllUnsecured(p: seq<Obs>) {
    forall i :: 0 <= i < |p| && p[i].AuthCalled? ==> p[i].measure.unsecured
  }

  /** No mechanism that was tried is left. */
  ghost predicate Untried(p: seq<Obs>, sasl: set<Mechanism>) {
    forall m :: m in sasl ==> !Asked(p, Message.Auth(m))
  }

  predicate TlsFirst(c: Core) {
    Asked(c.steps, StartTls) ==> c.secured
  }

  predicate NoneCalled(p: seq<Obs>) {
    forall i :: 0 <= i < |p| ==> !p[i].AuthCalled?
  }

  /** Before features are read, or given up. */
  ghost predicate Expecting(c: Core) {
    && AllUnsecured(c.steps) && (!c.secured ==> NoneCalled(c.steps)) && !HasCredential(c.steps)
    && !c.tlsSupport && TlsFirst(c) && !Late(c.steps)
  }

  /** Before the answer to starttls. */
  ghost predicate Starting(c: Core) {
    !c.secured && !c.tlsSupport && Asked(c.steps, StartTls) && AllUnsecured(c.steps) && !HasCredential(c.steps) && !Late(c.steps)
  }

  function LeftOf(c: Core): Measure {
    Measure(!c.secured, c.tlsSupport, |c.sasl|, true)
  }

  /** Before the answer of a mechanism, or before `_auth` tries the next thing. */
  ghost predicate Trying(c: Core) {
    && BelowAll(LeftOf(c), c.steps) && Untried(c.steps, c.sasl) && !Asked(c.steps, LegacyIq) && TlsFirst(c)
    && (c.tlsSupport ==> !c.secured && !HasCredential(c.steps) && !Late(c.steps))
  }

  ghost predicate Ok(c: Core) {
    && Orderly(c.steps) && (c.secured <==> TlsStarted in c.steps)
    && |c.tokens| <= 1 && (Awaited(c) ==> c.tokens == [] && Expecting(c))
    && (c.waiting > 0 ==> c.waiting == 1 && c.tokens == [HandleFeatures])
    && (c.tokens != [] ==>
          if c.tokens[0] == HandleFeatures then Expecting(c)
          else if c.tokens[0] == HandleProceedTls then Starting(c)
          else SaslToken(c.tokens[0]) && Trying(c) && !c.tlsSupport)
  }

  // --------------------------------------------------------- facts about the core

  lemma {:induction false} StepsNext(h: seq<Obs>, o: Obs)
    ensures Steps(h + [o]) == Steps(h) + (if Relevant(o) then [o] else [])
  {
    assert (h + [o])[..|h|] == h;
  }

  lemma {:induction false} InSteps(h: seq<Obs>, o: Obs)
    requires Relevant(o)
    ensures o in Steps(h) <==> o in h
    decreases |h|
  {
    hide Relevant;
    if h != [] {
      var n := |h| - 1;
      InSteps(h[..n], o);
      assert h == h[..n] + [h[n]];
    }
  }

  lemma {:induction false} OrderlyNext(t: seq<Obs>, o: Obs)
    requires Orderly(t) && MayStep(t, o)
    ensures Orderly(t + [o])
  {
    assert (t + [o])[..|t|] == t;
  }

  lemma {:induction false} TokensNext(hs: seq<Entry>, e: Entry, late: bool)
    ensures Tokens(hs + [e], late) == Tokens(hs, late) + (if Live(e.handler, late) then [e.handler] else [])
  {
    assert (hs + [e])[..|hs|] == hs;
  }

  lemma {:induction false} TokensJoin(a: seq<Entry>, b: seq<Entry>, late: bool)
    ensures Tokens(a + b, late) == Tokens(a, late) + Tokens(b, late)
    decreases |b|
  {
    hide Live;
    if b == [] {
      assert a + b == a;
    } else {
      var n := |b| - 1;
      assert (a + b)[..|a| + n] == a + b[..n];
      TokensJoin(a, b[..n], late);
    }
  }

  /** Taking out an entry takes out its token, if it is one. */
  lemma {:induction false} TokensRemoved(hs: seq<Entry>, i: nat, late: bool)
    requires i < |hs|
    ensures var own := if Live(hs[i].handler, late) then [hs[i].handler] else [];
      && Tokens(hs, late) == Tokens(hs[..i], late) + own + Tokens(hs[i + 1..], late)
      && Tokens(RemoveAt(hs, i), late) == Tokens(hs[..i], late) + Tokens(hs[i + 1..], late)
  {
    hide Live;
    assert hs == (hs[..i] + [hs[i]]) + hs[i + 1..];
    TokensJoin(hs[..i] + [hs[i]], hs[i + 1..], late);
    TokensNext(hs[..i], hs[i], late);
    TokensJoin(hs[..i], hs[i + 1..], late);
  }

  lemma {:induction false} TokensEnabled(hs: seq<Entry>, late: bool)
    ensures Tokens(Enabled(hs), late) == Tokens(hs, late)
    decreases |hs|
  {
    hide Live;
    if hs != [] {
      var n := |hs| - 1;
      TokensEnabled(hs[..n], late);
      assert Enabled(hs)[..n] == Enabled(hs[..n]);
    }
  }

  lemma {:induction false} TokensAre(hs: seq<Entry>, i: nat, late: bool)
    requires i < |hs| && Live(hs[i].handler, late)
    ensures hs[i].handler in Tokens(hs, late)
  {
    hide Live;
    TokensRemoved(hs, i, late);
  }

  lemma {:induction false} UserEntriesAreNoTokens(hs: seq<Entry>, h: Handler, late: bool)
    requires h.User?
    ensures Tokens(WithoutEntry(hs, h), late) == Tokens(hs, late)
    decreases |hs|
  {
    if hs != [] {
      UserEntriesAreNoTokens(hs[1..], h, late);
      TokensJoin([hs[0]], hs[1..], late);
      TokensJoin([hs[0]], WithoutEntry(hs[1..], h), late);
      assert hs == [hs[0]] + hs[1..];
      TokensNext([], hs[0], late);
      assert [] + [hs[0]] == [hs[0]];
    }
  }

  lemma {:induction false} TokensWith(hs: seq<Entry>, e: Entry, late: bool)
    ensures Tokens(WithEntry(hs, e), late)
      == Tokens(hs, late) + (if Live(e.handler, late) && !Listed(hs, e.handler) then [e.handler] else [])
  {
    hide Live, Listed;
    TokensNext(hs, e, late);
  }

  /** The timeout takes the handler of the features from those that count. */
  lemma {:induction false} TokensTimedOut(hs: seq<Entry>)
    requires Tokens(hs, false) == [HandleFeatures]
    ensures Tokens(hs, true) == []
    decreases |hs|
  {
    hide Token;
    var n := |hs| - 1;
    if Live(hs[n].handler, false) {
      assert |Tokens(hs[..n], false)| == 0 && ([] + [hs[n].handler])[0] == HandleFeatures;
      NoTokens(hs[..n]);
    } else {
      TokensTimedOut(hs[..n]);
    }
  }

  lemma {:induction false} NoTokens(hs: seq<Entry>)
    requires Tokens(hs, false) == []
    ensures Tokens(hs, true) == []
    decreases |hs|
  {
    hide Token;
    if hs != [] {
      NoTokens(hs[..|hs| - 1]);
    }
  }

  // ----------------------------------------------------- facts about the timers

  lemma {:induction false} WatchesNext(ts: seq<Timer>, t: Timer)
    ensures Watches(ts + [t]) == Watches(ts) + (if t.handler == MissingFeatures then 1 else 0)
  {
    if ts == [] {
      assert [] + [t] == [t];
    } else {
      WatchesNext(ts[1..], t);
      assert (ts + [t])[1..] == ts[1..] + [t];
    }
  }

  /** A timer that is there already, or is none for the features, changes nothing. */
  lemma {:induction false} WatchesWith(ts: seq<Timer>, t: Timer)
    requires t.handler != MissingFeatures
    ensures Watches(WithTimer(ts, t)) == Watches(ts)
  {
    WatchesNext(ts, t);
  }

  lemma {:induction false} WatchesNone(ts: seq<Timer>)
    requires Watches(ts) == 0
    ensures !IsTimed(ts, MissingFeatures)
  {
    if ts != [] {
      WatchesNone(ts[1..]);
      assert forall i :: 0 < i < |ts| ==> ts[i] == ts[1..][i - 1];
    }
  }

  lemma {:induction false} WatchesSame(ts: seq<Timer>, us: seq<Timer>)
    requires |us| == |ts| && forall i :: 0 <= i < |ts| ==> us[i].handler == ts[i].handler
    ensures Watches(us) == Watches(ts)
    decreases |ts|
  {
    if ts != [] {
      WatchesSame(ts[1..], us[1..]);
    }
  }

  lemma {:induction false} WatchesWithout(ts: seq<Timer>, h: Handler)
    ensures Watches(WithoutTimer(ts, h)) == if h == MissingFeatures && Watches(ts) > 0 then Watches(ts) - 1 else Watches(ts)
  {
    if ts != [] && ts[0].handler != h {
      WatchesWithout(ts[1..], h);
      assert ([ts[0]] + WithoutTimer(ts[1..], h))[1..] == WithoutTimer(ts[1..], h);
    }
  }

  // --------------------------------------------------- what `_auth` does to the core

  /** `_auth` may be called. */
  ghost predicate Ready(c: Core) {
    Orderly(c.steps) && (c.secured <==> TlsStarted in c.steps) && !Awaited(c) && Trying(c)
  }

  lemma {:induction false} InNext<T>(p: seq<T>, o: T, x: T)
    ensures x in p + [o] <==> x in p || x == o
  {
  }

  lemma {:induction false} AskedNext(p: seq<Obs>, o: Obs, m: Message)
    ensures Asked(p + [o], m) <==> Asked(p, m) || o == Queued(m) || o == Dropped(m)
  {
    InNext(p, o, Queued(m));
    InNext(p, o, Dropped(m));
  }

  lemma {:induction false} CredentialNext(p: seq<Obs>, o: Obs)
    ensures HasCredential(p + [o]) <==> HasCredential(p) || Credential(o)
  {
    hide Credential;
    var q := p + [o];
    assert forall i :: 0 <= i < |p| ==> q[i] == p[i];
    assert q[|p|] == o;
  }

  lemma {:induction false} UntriedNext(p: seq<Obs>, o: Obs, sasl: set<Mechanism>)
    requires Untried(p, sasl)
    requires forall m :: o == Queued(Message.Auth(m)) || o == Dropped(Message.Auth(m)) ==> m !in sasl
    ensures Untried(p + [o], sasl)
  {
    hide Asked;
    forall m | m in sasl ensures !Asked(p + [o], Message.Auth(m)) {
      AskedNext(p, o, Message.Auth(m));
    }
  }

  lemma {:induction false} BelowNext(m: Measure, was: Measure, p: seq<Obs>)
    requires BelowAll(was, p) && Less(m, was)
    ensures BelowAll(m, p + [AuthCalled(was)])
  {
    var q := p + [AuthCalled(was)];
    forall i | 0 <= i < |q| && q[i].AuthCalled? ensures Less(m, q[i].measure) {
      if i < |p| {
        LessJoins(m, was, p[i].measure);
      }
    }
  }

  lemma {:induction false} LessJoins(a: Measure, b: Measure, c: Measure)
    requires Less(a, b) && Less(b, c)
    ensures Less(a, c)
  {
  }

  lemma {:induction false} BelowLater(m: Measure, p: seq<Obs>, o: Obs)
    requires BelowAll(m, p) && !o.AuthCalled?
    ensures BelowAll(m, p + [o])
  {
    hide Less;
    var q := p + [o];
    assert forall i :: 0 <= i < |p| ==> q[i] == p[i];
  }

  lemma {:induction false} UnsecuredNext(p: seq<Obs>, o: Obs)
    requires AllUnsecured(p) && (o.AuthCalled? ==> o.measure.unsecured)
    ensures AllUnsecured(p + [o])
  {
  }

  /** The steps once `_auth` was called. */
  function Called(c: Core): seq<Obs> {
    c.steps + [AuthCalled(LeftOf(c))]
  }

  lemma {:induction false} CallIsOrderly(c: Core)
    requires Ready(c)
    ensures Orderly(Called(c)) && (c.secured <==> TlsStarted in Called(c)) && Untried(Called(c), c.sasl)
    ensures forall m: Message :: Asked(Called(c), m) <==> Asked(c.steps, m)
    ensures HasCredential(Called(c)) <==> HasCredential(c.steps)
    ensures !c.secured ==> AllUnsecured(Called(c))
    ensures Late(Called(c)) <==> Late(c.steps)
  {
    var o := AuthCalled(LeftOf(c));
    assert !Credential(o);
    InNext(c.steps, o, Fired(MissingFeatures));
    AllBelowUnsecured(LeftOf(c), c.steps);
    hide Orderly, Asked, HasCredential, Credential, Less;
    OrderlyNext(c.steps, o);
    InNext(c.steps, o, TlsStarted);
    CredentialNext(c.steps, o);
    UntriedNext(c.steps, o, c.sasl);
    forall m: Message ensures Asked(Called(c), m) <==> Asked(c.steps, m) {
      AskedNext(c.steps, o, m);
    }
    if !c.secured {
      UnsecuredNext(c.steps, o);
    }
  }

  lemma {:induction false} AllBelowUnsecured(m: Measure, p: seq<Obs>)
    requires BelowAll(m, p)
    ensures m.unsecured ==> AllUnsecured(p)
  {
  }

  /** The steps once it was asked whether TLS can be had. */
  function Probed(c: Core, at: nat): seq<Obs> {
    Called(c) + [TlsProbed(at)]
  }

  /** A step that is no call of `_auth`, no request and no start of TLS. */
  predicate Harmless(o: Obs) {
    o.TlsProbed? || o.Fired?
  }

  lemma {:induction false} HarmlessNext(p: seq<Obs>, o: Obs, sasl: set<Mechanism>)
    requires Harmless(o)
    ensures forall m: Message :: Asked(p + [o], m) <==> Asked(p, m)
    ensures HasCredential(p + [o]) <==> HasCredential(p)
    ensures TlsStarted in p + [o] <==> TlsStarted in p
    ensures Untried(p, sasl) ==> Untried(p + [o], sasl)
    ensures AllUnsecured(p) ==> AllUnsecured(p + [o])
    ensures Late(p + [o]) <==> Late(p) || o == Fired(MissingFeatures)
  {
    forall m: Message ensures Asked(p + [o], m) <==> Asked(p, m) {
      AskedNext(p, o, m);
    }
    InNext(p, o, TlsStarted);
    InNext(p, o, Fired(MissingFeatures));
    CredentialNext(p, o);
    assert !Credential(o);
    hide Asked, HasCredential, Credential;
    if Untried(p, sasl) {
      UntriedNext(p, o, sasl);
    }
    if AllUnsecured(p) {
      UnsecuredNext(p, o);
    }
  }

  lemma {:induction false} ProbeIsOrderly(c: Core, at: nat)
    requires Ready(c) && c.tlsSupport
    ensures var q := Probed(c, at);
      && Orderly(q) && !c.secured && TlsStarted !in q && Untried(q, c.sasl) && AllUnsecured(q) && !HasCredential(q)
      && !Late(q) && !Asked(q, LegacyIq) && !Asked(q, StartTls)
  {
    CallIsOrderly(c);
    ReadyParts(c);
    var o := TlsProbed(at);
    assert !HasCredential(Called(c)) ==> MayStep(Called(c), o);
    assert Harmless(o) && Probed(c, at) == Called(c) + [o];
    hide *;
    HarmlessNext(Called(c), o, c.sasl);
    OrderlyNext(Called(c), o);
  }

  /** TLS is not there: `_auth` goes on without. */
  lemma {:induction false} CallWithoutTls(c: Core, at: nat)
    requires Ready(c) && c.tlsSupport
    ensures Ready(c.(steps := Probed(c, at), tlsSupport := false))
  {
    ProbeIsOrderly(c, at);
    ReadyParts(c);
    var d := c.(steps := Probed(c, at), tlsSupport := false);
    assert Less(LeftOf(d), LeftOf(c));
    hide *;
    LeftIs(c);
    BelowNext(LeftOf(d), LeftOf(c), c.steps);
    BelowLater(LeftOf(d), Called(c), TlsProbed(at));
    ProbedIs(c, at);
    SameAwaited(c, d);
    TryingWhen(d);
    ReadyWhen(d);
  }

  lemma {:induction false} ProbedIs(c: Core, at: nat)
    ensures Probed(c, at) == Called(c) + [TlsProbed(at)]
  {
  }

  lemma {:induction false} ReadyWhen(c: Core)
    requires Orderly(c.steps) && (c.secured <==> TlsStarted in c.steps) && !Awaited(c) && Trying(c)
    ensures Ready(c)
  {
  }

  /** With a reply handler of a mechanism, or with none, the core is as it should be. */
  lemma {:induction false} TryingIsOk(d: Core)
    requires Orderly(d.steps) && (d.secured <==> TlsStarted in d.steps) && !Awaited(d)
    requires d.tokens == [] || (|d.tokens| == 1 && SaslToken(d.tokens[0]) && Trying(d) && !d.tlsSupport)
    requires d.waiting == 0
    ensures Ok(d)
  {
    hide Orderly, Trying, Expecting, Starting;
  }

  lemma {:induction false} StartingIsOk(d: Core)
    requires Orderly(d.steps) && (d.secured <==> TlsStarted in d.steps) && !Awaited(d)
    requires d.tokens == [HandleProceedTls] && Starting(d) && d.waiting == 0
    ensures Ok(d)
  {
    hide Orderly, Trying, Expecting, Starting;
  }

  lemma {:induction false} ReadyParts(c: Core)
    requires Ready(c)
    ensures Orderly(c.steps) && (c.secured <==> TlsStarted in c.steps) && !Awaited(c)
    ensures BelowAll(LeftOf(c), c.steps) && Untried(c.steps, c.sasl) && !Asked(c.steps, LegacyIq)
    ensures Asked(c.steps, StartTls) ==> c.secured
    ensures c.tlsSupport ==> !c.secured && !HasCredential(c.steps) && !Late(c.steps)
  {
    hide Orderly, BelowAll, Untried, Asked, HasCredential, Awaited, Late;
  }

  /** Steps and tokens do not matter for what is awaited. */
  lemma {:induction false} SameAwaited(c: Core, d: Core)
    requires d.open == c.open && d.resetParser == c.resetParser && d.inStream == c.inStream && d.streamDone == c.streamDone
    ensures Awaited(d) <==> Awaited(c)
  {
  }

  lemma {:induction false} TryingWhen(d: Core)
    requires BelowAll(LeftOf(d), d.steps) && Untried(d.steps, d.sasl) && !Asked(d.steps, LegacyIq) && !d.tlsSupport
    requires Asked(d.steps, StartTls) ==> d.secured
    ensures Trying(d)
  {
    hide BelowAll, Untried, Asked, HasCredential;
  }

  lemma {:induction false} MayAskTls(p: seq<Obs>, o: Obs)
    requires o == Queued(StartTls) || o == Dropped(StartTls)
    requires !Asked(p, StartTls) && !HasCredential(p) && TlsStarted !in p
    ensures MayStep(p, o) && !Credential(o) && !o.AuthCalled? && o != TlsStarted && o != Fired(MissingFeatures)
  {
    hide Asked, HasCredential;
  }

  lemma {:induction false} StartingWhen(d: Core)
    requires !d.secured && !d.tlsSupport && Asked(d.steps, StartTls) && AllUnsecured(d.steps) && !HasCredential(d.steps)
    requires !Late(d.steps)
    ensures Starting(d)
  {
    hide Asked, AllUnsecured, HasCredential, Late;
  }

  lemma {:induction false} CallAsksTls(c: Core, at: nat, o: Obs)
    requires Ready(c) && c.tlsSupport && (o == Queued(StartTls) || o == Dropped(StartTls))
    ensures Ok(c.(steps := Probed(c, at) + [o], tlsSupport := false, tokens := [HandleProceedTls], waiting := 0))
  {
    ProbeIsOrderly(c, at);
    ReadyParts(c);
    hide *;
    var q := Probed(c, at);
    MayAskTls(q, o);
    OrderlyNext(q, o);
    CredentialNext(q, o);
    AskedNext(q, o, StartTls);
    InNext(q, o, TlsStarted);
    LateNext(q, o);
    UnsecuredNext(q, o);
    var d := c.(steps := q + [o], tlsSupport := false, tokens := [HandleProceedTls], waiting := 0);
    SameAwaited(c, d);
    StartingWhen(d);
    StartingIsOk(d);
  }

  lemma {:induction false} LateNext(p: seq<Obs>, o: Obs)
    ensures Late(p + [o]) <==> Late(p) || o == Fired(MissingFeatures)
  {
    InNext(p, o, Fired(MissingFeatures));
  }

  /** What is left once a mechanism was tried. */
  lemma {:induction false} TryLeavesLess(p: seq<Obs>, sasl: set<Mechanism>, m: Mechanism, secured: bool, o: Obs)
    requires m in sasl && (o == Queued(Message.Auth(m)) || o == Dropped(Message.Auth(m)))
    requires Untried(p, sasl) && BelowAll(Measure(!secured, false, |sasl|, true), p)
    ensures var q := p + [AuthCalled(Measure(!secured, false, |sasl|, true))] + [o];
      Untried(q, sasl - {m}) && BelowAll(Measure(!secured, false, |sasl - {m}|, true), q)
  {
    var was, now := Measure(!secured, false, |sasl|, true), Measure(!secured, false, |sasl - {m}|, true);
    assert Less(now, was);
    assert Untried(p, sasl - {m});
    hide Asked, BelowAll, Untried, Less;
    UntriedNext(p, AuthCalled(was), sasl - {m});
    UntriedNext(p + [AuthCalled(was)], o, sasl - {m});
    BelowNext(now, was, p);
    BelowLater(now, p + [AuthCalled(was)], o);
  }

  lemma {:induction false} TryIsOrderly(c: Core, m: Mechanism, o: Obs)
    requires Ready(c) && !c.tlsSupport && m in c.sasl && (o == Queued(Message.Auth(m)) || o == Dropped(Message.Auth(m)))
    ensures var q := Called(c) + [o];
      && Orderly(q) && (c.secured <==> TlsStarted in q) && !Asked(q, LegacyIq) && (Asked(q, StartTls) ==> c.secured)
  {
    CallIsOrderly(c);
    assert MayStep(Called(c), o);
    hide Orderly, HasCredential, Asked, BelowAll, Untried, Credential, Less;
    OrderlyNext(Called(c), o);
    AskedNext(Called(c), o, StartTls);
    AskedNext(Called(c), o, LegacyIq);
    InNext(Called(c), o, TlsStarted);
  }

  lemma {:induction false} CallTries(c: Core, m: Mechanism, h: Handler, o: Obs)
    requires Ready(c) && !c.tlsSupport && m in c.sasl && SaslToken(h)
    requires o == Queued(Message.Auth(m)) || o == Dropped(Message.Auth(m))
    ensures Ok(c.(steps := Called(c) + [o], sasl := c.sasl - {m}, tokens := [h], waiting := 0))
  {
    TryIsOrderly(c, m, o);
    ReadyParts(c);
    hide *;
    var d := c.(steps := Called(c) + [o], sasl := c.sasl - {m}, tokens := [h], waiting := 0);
    LeftIs(c);
    LeftIs(d);
    TryLeavesLess(c.steps, c.sasl, m, c.secured, o);
    SameAwaited(c, d);
    TryingWhen(d);
    TryingIsOk(d);
  }

  lemma {:induction false} LeftIs(c: Core)
    ensures LeftOf(c) == Measure(!c.secured, c.tlsSupport, |c.sasl|, true)
    ensures Called(c) == c.steps + [AuthCalled(LeftOf(c))]
  {
  }

  lemma {:induction false} CallAsksLegacy(c: Core, o: Obs)
    requires Ready(c) && !c.tlsSupport && (o == Queued(LegacyIq) || o == Dropped(LegacyIq))
    ensures Ok(c.(steps := Called(c) + [o], tokens := [], waiting := 0))
  {
    CallIsOrderly(c);
    assert MayStep(Called(c), o);
    hide Orderly, HasCredential, Asked, BelowAll;
    OrderlyNext(Called(c), o);
    InNext(Called(c), o, TlsStarted);
  }

  lemma {:induction false} CallGivesUp(c: Core)
    requires Ready(c)
    ensures Ok(c.(steps := Called(c), tokens := [], waiting := 0))
  {
    CallIsOrderly(c);
    hide Orderly, HasCredential, Asked, BelowAll;
  }

  // ------------------------------------------------ functions that leave the core

  predicate Aside(s: State, r: State) {
    CoreOf(r) == CoreOf(s)
  }

  /** Fields the core does not hold. */
  lemma {:induction false} AsideElse(s: State, r: State)
    requires r.handlers == s.handlers && r.openHandler == s.openHandler && r.resetParser == s.resetParser
    requires r.inStream == s.inStream && r.streamDone == s.streamDone && r.tlsSupport == s.tlsSupport
    requires r.sasl == s.sasl && r.secured == s.secured && r.history == s.history && Watches(r.timed) == Watches(s.timed)
    ensures Aside(s, r)
  {
    hide Steps, Tokens;
  }

  lemma {:induction false} ObserveCore(s: State, o: Obs)
    requires o != Fired(MissingFeatures)
    ensures CoreOf(Observe(s, o)) == CoreOf(s).(steps := CoreOf(s).steps + (if Relevant(o) then [o] else []))
  {
    StepsNext(s.history, o);
    LateNext(s.history, o);
    hide Steps, Tokens, Relevant, Late, Watches;
  }

  lemma {:induction false} ObserveAside(s: State, o: Obs)
    requires !Relevant(o)
    ensures Aside(s, Observe(s, o))
  {
    assert o != Fired(MissingFeatures);
    hide Steps, Tokens, Relevant, Late, Watches;
    ObserveCore(s, o);
  }

  lemma {:induction false} SendAside(s: State, m: Message)
    requires !m.StartTls? && !m.Auth? && !m.Response? && !m.LegacyIq?
    ensures Aside(s, Send(s, m))
  {
    assert !Relevant(SentAs(s.link, m));
    hide Aside, Observe, Relevant;
    ObserveAside(s, SentAs(s.link, m));
  }

  lemma {:induction false} AddHandlerAside(s: State, h: Handler, ns: Option<string>, name: Option<string>, typ: Option<string>)
    requires !Token(h)
    ensures Aside(s, AddHandler(s, h, ns, name, typ))
  {
    hide Steps, Tokens, WithEntry, Listed, Late, Watches;
    TokensWith(s.handlers, Entry(h, ns, name, typ, false), Late(s.history));
  }

  lemma {:induction false} AddTimedAside(s: State, env: Env, h: Handler, period: nat)
    requires h != MissingFeatures
    ensures Aside(s, AddTimed(s, env, h, period))
  {
    WatchesWith(s.timed, Timer(h, period, env(s.tick).now, false));
    hide Steps, Tokens, WithTimer, IsTimed, Watches, Late;
  }

  lemma {:induction false} RequestAside(s: State, env: Env, h: Handler, id: string, timer: Handler, period: nat, m: Message)
    requires !m.StartTls? && !m.Auth? && !m.Response? && !m.LegacyIq? && timer != MissingFeatures
    ensures Aside(s, Request(s, env, h, id, timer, period, m))
  {
    var s0 := AddId(s, h, id);
    hide CoreOf, AddId, AddTimed, Send;
    AddByIdAside(s, h, id);
    AddTimedAside(s0, env, timer, period);
    SendAside(AddTimed(s0, env, timer, period), m);
  }

  lemma {:induction false} DisconnectAside(s: State, env: Env)
    ensures Aside(s, XmppDisconnect(s, env))
  {
    hide CoreOf, AddTimed, Send;
    SendAside(s, StreamFooter);
    AddTimedAside(Send(s, StreamFooter), env, DisconnectCleanup, DISCONNECT_TIMEOUT);
  }

  lemma {:induction false} ActAside(s: State, env: Env, a: Action)
    ensures Aside(s, Act(s, env, a))
  {
    hide CoreOf, AddTimed, AddId, AddHandler, Send, XmppDisconnect, Bar;
    match a
    case AddStanza(n, ns, name, typ) => AddHandlerAside(s, User(n), ns, name, typ);
    case AddById(n, id) => AddByIdAside(s, User(n), id);
    case AddTimer(n, period) => AddTimedAside(s, env, User(n), period);
    case SendData(data) => SendAside(s, UserData(data));
    case Disconnect => DisconnectAside(s, env);
    case DisableTls => BarAside(s);
  }

  lemma {:induction false} AddByIdAside(s: State, h: Handler, id: string)
    ensures Aside(s, AddId(s, h, id)) && Aside(s, Stop(s))
  {
    hide Steps, Tokens, WithId, Watches, Late;
  }

  lemma {:induction false} BarAside(s: State)
    ensures Aside(s, Bar(s))
  {
    assert !Relevant(TlsBarred);
    var s0 := s.(tlsDisabled := true);
    assert Bar(s) == Observe(s0, TlsBarred);
    hide CoreOf, Relevant, Observe, Bar, Watches;
    AsideElse(s, s0);
    ObserveAside(s0, TlsBarred);
  }

  lemma {:induction false} PerformAside(s: State, env: Env, actions: seq<Action>)
    ensures Aside(s, Perform(s, env, actions))
    decreases actions
  {
    hide CoreOf, Act;
    if actions != [] && !s.stopped {
      ActAside(s, env, actions[0]);
      PerformAside(Act(s, env, actions[0]), env, actions[1..]);
    }
  }

  lemma {:induction false} CallbackAside(s: State, env: Env)
    ensures Aside(s, Callback(s, env))
  {
    hide CoreOf, Perform;
    var s1 := s.(tick := s.tick + 1);
    AsideElse(s, s1);
    PerformAside(s1, env, env(s.tick).actions);
  }

  lemma {:induction false} NotifyAside(s: State, env: Env, up: bool)
    ensures Aside(s, Notify(s, env, up))
  {
    assert !Relevant(Notified(up));
    hide CoreOf, Callback, Observe;
    ObserveAside(s, Notified(up));
    CallbackAside(Observe(s, Notified(up)), env);
  }

  lemma {:induction false} ConnDisconnectAside(s: State, env: Env)
    ensures Aside(s, ConnDisconnect(s, env))
  {
    hide CoreOf, Notify;
    AsideElse(s, s.(link := Disconnected));
    NotifyAside(s.(link := Disconnected), env, false);
  }

  lemma {:induction false} AuthenticateAside(s: State, env: Env)
    ensures Aside(s, Authenticate(s, env))
  {
    assert !Relevant(Authenticated);
    hide CoreOf, Notify, Observe;
    var s1 := s.(authenticated := true);
    AsideElse(s, s1);
    ObserveAside(s1, Authenticated);
    NotifyAside(Observe(s1, Authenticated), env, true);
  }

  lemma {:induction false} BindResourceAside(s: State, env: Env, bind: Option<Stanza>)
    ensures Aside(s, BindResource(s, env, bind))
  {
    hide CoreOf, XmppDisconnect, Request, RequestedResource, Stop;
    if !s.bindRequired {
      DisconnectAside(s, env);
    } else if bind.None? {
      StopAside(s);
    } else {
      RequestAside(s, env, HandleBind, "_xmpp_bind1", MissingBind, BIND_TIMEOUT, BindIq(bind.value, RequestedResource(s.account)));
    }
  }

  lemma {:induction false} OnFeaturesSaslAside(s: State, env: Env, st: Stanza)
    ensures Aside(s, OnFeaturesSasl(s, env, st))
  {
    WatchesWithout(s.timed, MissingFeaturesSasl);
    hide CoreOf, BindResource, InNs, ChildByName, WithoutTimer, Watches;
    var s0 := DeleteTimed(s, MissingFeaturesSasl);
    var bind, session := InNs(ChildByName(st, "bind"), NS_BIND), InNs(ChildByName(st, "session"), NS_SESSION);
    if bind.None? || session.None? {
      AsideElse(s, Stop(s0));
    } else {
      var s1 := s0.(bindRequired := s.bindRequired || bind.value, sessionRequired := s.sessionRequired || session.value);
      AsideElse(s, s1);
      BindResourceAside(s1, env, ChildByName(st, "bind"));
    }
  }

  lemma {:induction false} ReplyAside(s: State, env: Env, timer: Handler)
    requires timer != MissingFeatures
    ensures var s0 := DeleteTimed(s, timer);
      && Aside(s, XmppDisconnect(s0, env)) && Aside(s, Authenticate(s0, env))
      && Aside(s, Request(s0, env, HandleSession, "_xmpp_session1", MissingSession, SESSION_TIMEOUT, SessionIq))
  {
    WatchesWithout(s.timed, timer);
    hide CoreOf, XmppDisconnect, Authenticate, Request, WithoutTimer, Watches;
    var s0 := DeleteTimed(s, timer);
    AsideElse(s, s0);
    DisconnectAside(s0, env);
    AuthenticateAside(s0, env);
    RequestAside(s0, env, HandleSession, "_xmpp_session1", MissingSession, SESSION_TIMEOUT, SessionIq);
  }

  lemma {:induction false} RepliesAside(s: State, env: Env, st: Stanza)
    ensures Aside(s, OnBind(s, env, st)) && Aside(s, OnSession(s, env, st)) && Aside(s, OnLegacy(s, env, st))
  {
    hide Aside, XmppDisconnect, Authenticate, Request, DeleteTimed;
    ReplyAside(s, env, MissingBind);
    ReplyAside(s, env, MissingSession);
    ReplyAside(s, env, MissingLegacy);
  }

  /** A handler that is no token leaves the core as it was. */
  lemma {:induction false} OtherStanzaAside(s: State, env: Env, h: Handler, st: Stanza)
    requires !Token(h)
    ensures Aside(s, OnStanza(s, env, h, st))
  {
    var s0 := Observe(s, Handled(h, st));
    assert !Relevant(Handled(h, st));
    hide CoreOf, Observe, OnFeaturesSasl, OnBind, OnSession, OnLegacy, Callback, Stop;
    ObserveAside(s, Handled(h, st));
    match h
    case HandleFeaturesSasl => OnFeaturesSaslAside(s0, env, st);
    case HandleBind => RepliesAside(s0, env, st);
    case HandleSession => RepliesAside(s0, env, st);
    case HandleLegacy => RepliesAside(s0, env, st);
    case User(_) => CallbackAside(s0, env);
    case HandleError => StopAside(s0);
    case _ =>
  }

  // ------------------------------------------------------------- tokens that run

  /** The first token is that of the handler that runs, if one runs; without it, and once
      the timer of the features is deleted, all is well. */
  ghost predicate Done(c: Core, own: seq<Handler>, waiting: nat) {
    own <= c.tokens && c.waiting == waiting && Ok(c.(tokens := c.tokens[|own|..], waiting := 0))
  }

  lemma {:induction false} LeftIsOfCore(s: State)
    requires !Asked(Steps(s.history), LegacyIq)
    ensures Left(s) == LeftOf(CoreOf(s))
  {
    assert !LegacyTried(s.history) by {
      if i :| 0 <= i < |s.history| && (s.history[i] == Queued(LegacyIq) || s.history[i] == Dropped(LegacyIq)) {
        assert s.history[i] in s.history;
        InSteps(s.history, Queued(LegacyIq));
        InSteps(s.history, Dropped(LegacyIq));
      }
    }
    hide Steps, Tokens, LegacyTried;
  }

  lemma {:induction false} FewerTokens(c: Core, h: Handler)
    requires Ok(c.(tokens := [h]))
    ensures Ok(c.(tokens := [], waiting := 0))
  {
    hide Orderly, Trying, Expecting, Starting;
  }

  /** A token is added after the one that runs, unless it is there already. */
  lemma {:induction false} OfferedToken(c: Core, hs: seq<Entry>, e: Entry, own: seq<Handler>, late: bool)
    requires Tokens(hs, late) == own && |own| <= 1 && Live(e.handler, late) && Ok(c.(tokens := [e.handler], waiting := 0))
    ensures Done(c.(tokens := Tokens(WithEntry(hs, e), late)), own, c.waiting)
  {
    hide Tokens, Ok, WithEntry, Listed, Live;
    TokensWith(hs, e, late);
    if Listed(hs, e.handler) {
      ListedToken(hs, e.handler, late);
      FewerTokens(c.(waiting := 0), e.handler);
      assert own[|own|..] == [];
    } else {
      assert (own + [e.handler])[|own|..] == [e.handler];
    }
  }

  lemma {:induction false} ListedToken(hs: seq<Entry>, h: Handler, late: bool)
    requires Listed(hs, h) && Live(h, late)
    ensures h in Tokens(hs, late)
  {
    var i :| 0 <= i < |hs| && hs[i].handler == h;
    TokensAre(hs, i, late);
  }

  lemma {:induction false} CalledCore(s: State)
    requires !Asked(Steps(s.history), LegacyIq)
    ensures CoreOf(Observe(s, AuthCalled(Left(s)))) == CoreOf(s).(steps := Called(CoreOf(s)))
  {
    LeftIsOfCore(s);
    assert Relevant(AuthCalled(Left(s)));
    hide CoreOf, Left, Relevant, Observe, LeftOf;
    ObserveCore(s, AuthCalled(Left(s)));
  }

  lemma {:induction false} AskedCore(s: State, env: Env)
    ensures CoreOf(TlsAsked(s, env)) == CoreOf(s).(steps := CoreOf(s).steps + [TlsProbed(s.tick)])
  {
    var o := TlsProbed(s.tick);
    var s0 := s.(tick := s.tick + 1);
    assert TlsAsked(s, env) == Observe(s0, o);
    assert Relevant(o);
    hide CoreOf, Relevant, Observe, TlsAsked, Watches;
    TickAside(s);
    ObserveCore(s0, o);
  }

  lemma {:induction false} OfferCore(s: State, h: Handler, ns: string, m: Message)
    requires Relevant(SentAs(s.link, m))
    ensures CoreOf(Send(AddHandler(s, h, Some(ns), None, None), m))
      == CoreOf(s).(tokens := Tokens(WithEntry(s.handlers, Entry(h, Some(ns), None, None, false)), Late(s.history)),
                    steps := CoreOf(s).steps + [SentAs(s.link, m)])
  {
    assert SentAs(s.link, m) != Fired(MissingFeatures);
    hide Tokens, Steps, Relevant, WithEntry, SentAs, Observe, Late, Watches;
    ObserveCore(AddHandler(s, h, Some(ns), None, None), SentAs(s.link, m));
  }

  lemma {:induction false} TryTlsOrder(s: State, c: Core, at: nat, own: seq<Handler>)
    requires Ready(c) && c.tlsSupport && c.tokens == own && |own| <= 1 && CoreOf(s) == c.(steps := Probed(c, at))
    ensures Done(CoreOf(Send(AddHandler(s, HandleProceedTls, Some(NS_TLS), None, None), StartTls).(tlsSupport := false)), own, c.waiting)
  {
    var o, late := SentAs(s.link, StartTls), Late(s.history);
    assert Tokens(s.handlers, late) == own && Live(HandleProceedTls, late);
    assert Relevant(o);
    CallAsksTls(c, at, o);
    SupportCore(Send(AddHandler(s, HandleProceedTls, Some(NS_TLS), None, None), StartTls), false);
    hide Tokens, Ok, Ready, WithEntry, Steps, Probed, SentAs, Late, CoreOf, Done, Live, Relevant, Send, AddHandler;
    OfferCore(s, HandleProceedTls, NS_TLS, StartTls);
    OfferedToken(c.(steps := Probed(c, at) + [o], tlsSupport := false), s.handlers,
      Entry(HandleProceedTls, Some(NS_TLS), None, None, false), own, late);
  }

  lemma {:induction false} SupportCore(s: State, tlsSupport: bool)
    ensures CoreOf(s.(tlsSupport := tlsSupport)) == CoreOf(s).(tlsSupport := tlsSupport)
  {
    hide Tokens, Steps, Late, Watches;
  }

  lemma {:induction false} TryMechanismOrder(s: State, c: Core, m: Mechanism, k: Handler, own: seq<Handler>)
    requires Ready(c) && !c.tlsSupport && c.tokens == own && |own| <= 1 && m in c.sasl && SaslToken(k)
    requires CoreOf(s) == c.(steps := Called(c))
    ensures Done(CoreOf(TryMechanism(s, m, k)), own, c.waiting)
  {
    var o, late := SentAs(s.link, Message.Auth(m)), Late(s.history);
    assert Relevant(o) && Live(k, late);
    assert c.sasl == s.sasl && c.tlsSupport == s.tlsSupport;
    assert Tokens(s.handlers, late) == own;
    CallTries(c, m, k, o);
    var s1 := Send(AddHandler(s, k, Some(NS_SASL), None, None), Message.Auth(m));
    hide Tokens, Ok, Ready, Done, WithEntry, Steps, Called, SentAs, Relevant, CoreOf, Send, AddHandler, Late, Live;
    OfferCore(s, k, NS_SASL, Message.Auth(m));
    OfferedToken(c.(steps := Called(c) + [o], sasl := c.sasl - {m}), s.handlers, Entry(k, Some(NS_SASL), None, None, false), own, late);
    TriedCore(s1, s.sasl - {m});
  }

  lemma {:induction false} TriedCore(s: State, sasl: set<Mechanism>)
    ensures CoreOf(s.(sasl := sasl)) == CoreOf(s).(sasl := sasl)
  {
    hide Tokens, Steps, Late, Watches;
  }

  lemma {:induction false} RequestCore(s: State, env: Env, h: Handler, id: string, timer: Handler, period: nat, m: Message)
    requires Relevant(SentAs(s.link, m)) && timer != MissingFeatures
    ensures CoreOf(Request(s, env, h, id, timer, period, m)) == CoreOf(s).(steps := CoreOf(s).steps + [SentAs(s.link, m)])
  {
    assert SentAs(s.link, m) != Fired(MissingFeatures);
    var s0 := AddId(s, h, id);
    hide CoreOf, AddId, AddTimed, Relevant, SentAs, Observe;
    AddByIdAside(s, h, id);
    AddTimedAside(s0, env, timer, period);
    ObserveCore(AddTimed(s0, env, timer, period), SentAs(s.link, m));
    SameLink(s, env, h, id, timer, period);
  }

  lemma {:induction false} SameLink(s: State, env: Env, h: Handler, id: string, timer: Handler, period: nat)
    ensures AddTimed(AddId(s, h, id), env, timer, period).link == s.link
  {
    hide WithId, WithTimer, IsTimed;
  }

  lemma {:induction false} TryLegacyOrder(s: State, env: Env, c: Core, own: seq<Handler>)
    requires Ready(c) && !c.tlsSupport && c.tokens == own && CoreOf(s) == c.(steps := Called(c))
    ensures Done(CoreOf(Request(s, env, HandleLegacy, "_xmpp_auth1", MissingLegacy, LEGACY_TIMEOUT, LegacyIq)), own, c.waiting)
  {
    var o := SentAs(s.link, LegacyIq);
    SentIs(s.link, LegacyIq);
    assert Relevant(o);
    var d := c.(steps := Called(c) + [o]);
    hide *;
    CallAsksLegacy(c, o);
    RequestCore(s, env, HandleLegacy, "_xmpp_auth1", MissingLegacy, LEGACY_TIMEOUT, LegacyIq);
    DoneWhen(d, own);
  }

  /** Nothing is registered besides what runs. */
  lemma {:induction false} DoneWhen(c: Core, own: seq<Handler>)
    requires c.tokens == own && Ok(c.(tokens := [], waiting := 0))
    ensures Done(c, own, c.waiting)
  {
    hide Ok;
    assert own[|own|..] == [];
  }

  lemma {:induction false} GiveUpOrder(s: State, env: Env, c: Core, own: seq<Handler>)
    requires Ready(c) && c.tokens == own && CoreOf(s) == c.(steps := Called(c))
    ensures Done(CoreOf(s), own, c.waiting) && Done(CoreOf(Stop(s)), own, c.waiting)
    ensures Done(CoreOf(XmppDisconnect(s, env)), own, c.waiting)
  {
    CallGivesUp(c);
    hide Ok, Ready, Called, XmppDisconnect, CoreOf, Watches;
    AsideElse(s, Stop(s));
    DisconnectAside(s, env);
    assert own[|own|..] == [];
  }

  lemma {:induction false} TriedTlsOrder(s: State, s0: State, env: Env, own: seq<Handler>)
    requires Ready(CoreOf(s)) && CoreOf(s).tokens == own && |own| <= 1 && s.tlsSupport
    requires CoreOf(s0) == CoreOf(s).(steps := Called(CoreOf(s)))
    ensures var s1 := TlsAsked(s0, env);
      if env(s0.tick).tlsAvailable then
        Done(CoreOf(Send(AddHandler(s1, HandleProceedTls, Some(NS_TLS), None, None), StartTls).(tlsSupport := false)), own, CoreOf(s).waiting)
      else
        var d := CoreOf(s1.(tlsSupport := false)); Ready(d) && d.tokens == own && d.waiting == CoreOf(s).waiting
  {
    var c := CoreOf(s);
    assert c.tlsSupport;
    var s1 := TlsAsked(s0, env);
    AskedCore(s0, env);
    ProbedIs(c, s0.tick);
    hide Ready, Done, Called, CoreOf, AddHandler, Send, TlsAsked, Probed;
    if env(s0.tick).tlsAvailable {
      TryTlsOrder(s1, c, s0.tick, own);
    } else {
      CallWithoutTls(c, s0.tick);
      SupportCore(s1, false);
    }
  }

  lemma {:induction false} TryOrder(s: State, c: Core, m: Mechanism, k: Handler, own: seq<Handler>)
    requires Ready(c) && !c.tlsSupport && c.tokens == own && |own| <= 1 && SaslToken(k) && CoreOf(s) == c.(steps := Called(c))
    ensures m in c.sasl ==> Done(CoreOf(TryMechanism(s, m, k)), own, c.waiting)
  {
    hide Ready, Done, CoreOf, Called, TryMechanism;
    if m in c.sasl {
      TryMechanismOrder(s, c, m, k, own);
    }
  }

  /** `_auth`: called when it may be, it leaves a core in which all is well. */
  lemma {:induction false} TryAuthOrder(s: State, env: Env, own: seq<Handler>)
    requires Ready(CoreOf(s)) && CoreOf(s).tokens == own && |own| <= 1
    ensures Done(CoreOf(TryAuth(s, env)), own, CoreOf(s).waiting)
    decreases s.tlsSupport
  {
    var s0 := Observe(s, AuthCalled(Left(s)));
    assert s0.tick == s.tick;
    hide Ready, Done, CoreOf, Called, Left, AddHandler, Send, TryMechanism, Request, XmppDisconnect, Observe, Stop, TlsAsked;
    if !s.tlsSupport {
      TryRestOrder(s, env, own);
    } else {
      CalledWhenReady(s);
      TriedTlsOrder(s, s0, env, own);
      if !env(s.tick).tlsAvailable {
        TryAuthOrder(TlsAsked(s0, env).(tlsSupport := false), env, own);
      }
    }
  }

  lemma {:induction false} CalledWhenReady(s: State)
    requires Ready(CoreOf(s))
    ensures CoreOf(Observe(s, AuthCalled(Left(s)))) == CoreOf(s).(steps := Called(CoreOf(s)))
    ensures CoreOf(s).sasl == s.sasl && CoreOf(s).tlsSupport == s.tlsSupport
  {
    CalledCore(s);
  }

  lemma {:induction false} TryRestOrder(s: State, env: Env, own: seq<Handler>)
    requires Ready(CoreOf(s)) && CoreOf(s).tokens == own && |own| <= 1 && !s.tlsSupport
    ensures Done(CoreOf(TryAuth(s, env)), own, CoreOf(s).waiting)
  {
    hide Ready, Done, CoreOf, Called, Left, TryMechanism, Request, XmppDisconnect, Stop, Observe;
    var s0 := Observe(s, AuthCalled(Left(s)));
    CalledWhenReady(s);
    var c := CoreOf(s);
    GiveUpOrder(s0, env, c, own);
    TryOrder(s0, c, Anonymous, HandleSaslResult, own);
    TryOrder(s0, c, DigestMd5, HandleDigestChallenge, own);
    TryOrder(s0, c, Plain, HandleSaslResult, own);
    TryLegacyOrder(s0, env, c, own);
  }

  // ------------------------------------------------- the steps of the handlers

  lemma {:induction false} NoneAsked(p: seq<Obs>, m: Message)
    requires !HasCredential(p) && (m.Auth? || m == LegacyIq)
    ensures !Asked(p, m)
  {
    assert Credential(Queued(m)) && Credential(Dropped(m));
  }

  /** The features are read: `_auth` may be called. */
  lemma {:induction false} ExpectingIsReady(c: Core, tls: bool, sasl: set<Mechanism>)
    requires Ok(c) && c.tokens == [HandleFeatures] && (c.secured ==> !tls)
    ensures Ready(c.(tlsSupport := tls, sasl := sasl, waiting := 0))
  {
    hide Orderly, HasCredential, Asked, Late;
    NoneAsked(c.steps, LegacyIq);
    forall m ensures !Asked(c.steps, Message.Auth(m)) {
      NoneAsked(c.steps, Message.Auth(m));
    }
  }

  /** TLS has started: the stream is opened anew. */
  lemma {:induction false} SecuredIsOk(c: Core)
    requires Ok(c) && c.tokens == [HandleProceedTls]
    ensures Ok(c.(secured := true, steps := c.steps + [TlsStarted], resetParser := true, open := AuthOpen, tokens := []))
  {
    var p, o := c.steps, TlsStarted;
    var d := c.(secured := true, steps := p + [o], resetParser := true, open := AuthOpen, tokens := []);
    StartingParts(c);
    assert Asked(p, StartTls) && TlsStarted !in p && !Late(p) ==> MayStep(p, o);
    assert !Credential(o) && o != Fired(MissingFeatures) && !o.AuthCalled?;
    hide *;
    OrderlyNext(p, o);
    CredentialNext(p, o);
    UnsecuredNext(p, o);
    InNext(p, o, TlsStarted);
    LateNext(p, o);
    ExpectingIsOk(d);
  }

  lemma {:induction false} StartingParts(c: Core)
    requires Ok(c) && c.tokens == [HandleProceedTls]
    ensures Orderly(c.steps) && TlsStarted !in c.steps && Asked(c.steps, StartTls) && AllUnsecured(c.steps)
    ensures !HasCredential(c.steps) && !Late(c.steps) && !c.tlsSupport && c.waiting == 0
  {
    hide Orderly, HasCredential, Asked, AllUnsecured, Late, Awaited;
  }

  lemma {:induction false} ExpectingIsOk(d: Core)
    requires Orderly(d.steps) && d.secured && TlsStarted in d.steps && AllUnsecured(d.steps) && !HasCredential(d.steps)
    requires !Late(d.steps) && !d.tlsSupport && d.waiting == 0 && d.tokens == []
    ensures Ok(d)
  {
    hide Orderly, HasCredential, Asked, AllUnsecured, Late, Awaited;
  }

  /** A mechanism failed: `_auth` may be called. */
  lemma {:induction false} TryingIsReady(c: Core)
    requires Ok(c) && c.tokens != [] && SaslToken(c.tokens[0])
    ensures Ready(c)
  {
    hide Orderly, BelowAll, Untried, HasCredential, Asked;
  }

  lemma {:induction false} ReopenedIsOk(c: Core, h: Handler)
    requires Ok(c) && c.tokens == [h]
    ensures Ok(c.(resetParser := true, open := SaslOpen, tokens := [], waiting := 0))
  {
    hide Orderly, Trying, Expecting, Starting;
  }

  /** A response is sent on the way. */
  lemma {:induction false} ResponseIsOk(c: Core, h: Handler, k: Handler, o: Obs)
    requires Ok(c) && c.tokens == [h] && SaslToken(h) && SaslToken(k) && (o.Queued? || o.Dropped?) && o.msg.Response?
    ensures Ok(c.(steps := c.steps + [o], tokens := [k], waiting := 0))
  {
    SaslParts(c, h);
    hide *;
    MayRespond(c.steps, o);
    OrderlyNext(c.steps, o);
    InNext(c.steps, o, TlsStarted);
    AskedNext(c.steps, o, StartTls);
    AskedNext(c.steps, o, LegacyIq);
    BelowLater(LeftOf(c), c.steps, o);
    UntriedNext(c.steps, o, c.sasl);
    var d := c.(steps := c.steps + [o], tokens := [k], waiting := 0);
    LeftIs(c);
    LeftIs(d);
    SameAwaited(c, d);
    TryingWhen(d);
    TryingIsOk(d);
  }

  lemma {:induction false} SaslParts(c: Core, h: Handler)
    requires Ok(c) && c.tokens == [h] && SaslToken(h)
    ensures Orderly(c.steps) && (c.secured <==> TlsStarted in c.steps) && !Awaited(c) && !c.tlsSupport
    ensures BelowAll(LeftOf(c), c.steps) && Untried(c.steps, c.sasl) && !Asked(c.steps, LegacyIq)
    ensures Asked(c.steps, StartTls) ==> c.secured
    ensures c.waiting == 0
  {
    hide Orderly, BelowAll, Untried, Asked, HasCredential, Awaited, AllUnsecured, Late;
  }

  lemma {:induction false} WaitsForOne(c: Core, h: Handler)
    requires Ok(c) && c.tokens == [h]
    ensures c.waiting <= 1 && (h != HandleFeatures ==> c.waiting == 0)
  {
    hide Orderly, BelowAll, Untried, Asked, HasCredential, Awaited, AllUnsecured, Late;
  }

  lemma {:induction false} MayRespond(p: seq<Obs>, o: Obs)
    requires (o.Queued? || o.Dropped?) && o.msg.Response? && (Asked(p, StartTls) ==> TlsStarted in p)
    ensures MayStep(p, o) && !o.AuthCalled? && o != TlsStarted
    ensures forall m: Message :: (o == Queued(m) || o == Dropped(m)) ==> m != StartTls && m != LegacyIq && !m.Auth?
  {
    hide Asked;
  }

  /** What holds after the handler of a token was called: it is still there and all is
      well if it stays, and without it all is well if not. */
  ghost predicate After(s: State, env: Env, h: Handler, st: Stanza) {
    var c := CoreOf(OnStanza(s, env, h, st));
    if Stays(s, env, h, st) then c.tokens == [h] && Ok(c) else Done(c, [h], 0)
  }

  lemma {:induction false} DoneAside(s: State, r: State, h: Handler)
    requires Ok(CoreOf(s)) && CoreOf(s).tokens == [h] && Aside(s, r)
    ensures Done(CoreOf(r), [h], CoreOf(s).waiting)
  {
    hide CoreOf, Ok;
    FewerTokens(CoreOf(s), h);
    assert CoreOf(s).(tokens := [h]) == CoreOf(s);
    assert [h][1..] == [];
  }

  lemma {:induction false} OnFeaturesOrder(s: State, env: Env, st: Stanza)
    requires Ok(CoreOf(s)) && CoreOf(s).tokens == [HandleFeatures]
    ensures Done(CoreOf(OnFeatures(s, env, st)), [HandleFeatures], 0)
  {
    hide Ok, Done, CoreOf, TryAuth, DeleteTimed, TlsSeen, SaslSeen;
    var tls, sasl := TlsSeen(s, st), SaslSeen(s, st);
    if tls.None? {
      UnreadOrder(s);
    } else if sasl.None? {
      SeenAside(s, tls.value);
    } else {
      SeenOrder(s, env, st);
    }
  }

  lemma {:induction false} UnreadOrder(s: State)
    requires Ok(CoreOf(s)) && CoreOf(s).tokens == [HandleFeatures]
    ensures Done(CoreOf(Stop(DeleteTimed(s, MissingFeatures))), [HandleFeatures], 0)
  {
    hide Ok, CoreOf, DeleteTimed, Stop;
    WaitsForOne(CoreOf(s), HandleFeatures);
    DeletedCore(s);
    StopAside(DeleteTimed(s, MissingFeatures));
    FewerTokens(CoreOf(s), HandleFeatures);
    assert CoreOf(s).(tokens := [HandleFeatures]) == CoreOf(s);
    assert [HandleFeatures][1..] == [];
  }

  lemma {:induction false} StopAside(s: State)
    ensures Aside(s, Stop(s))
  {
    hide Tokens, Steps, Late, Watches;
  }

  /** The timer of the features is gone. */
  lemma {:induction false} DeletedCore(s: State)
    requires CoreOf(s).waiting <= 1
    ensures CoreOf(DeleteTimed(s, MissingFeatures)) == CoreOf(s).(waiting := 0)
  {
    WatchesWithout(s.timed, MissingFeatures);
    hide Tokens, Steps, Late, WithoutTimer, Watches;
  }

  lemma {:induction false} SeenOrder(s: State, env: Env, st: Stanza)
    requires Ok(CoreOf(s)) && CoreOf(s).tokens == [HandleFeatures] && TlsSeen(s, st).Some? && SaslSeen(s, st).Some?
    ensures var tls, sasl := TlsSeen(s, st).value, SaslSeen(s, st).value;
      Done(CoreOf(TryAuth(DeleteTimed(s, MissingFeatures).(tlsSupport := tls, sasl := sasl), env)), [HandleFeatures], 0)
  {
    var c := CoreOf(s);
    var s0 := DeleteTimed(s, MissingFeatures);
    var tls, sasl := TlsSeen(s, st).value, SaslSeen(s, st).value;
    SecuredSeesNone(s, st);
    assert c.secured == s.secured;
    hide Ok, Done, CoreOf, TryAuth, DeleteTimed, TlsSeen, SaslSeen, Ready;
    ExpectingIsReady(c, tls, sasl);
    WaitsForOne(c, HandleFeatures);
    DeletedCore(s);
    SeenCore(s0, tls, sasl);
    TryAuthOrder(s0.(tlsSupport := tls, sasl := sasl), env, [HandleFeatures]);
  }

  lemma {:induction false} SecuredSeesNone(s: State, st: Stanza)
    requires Ok(CoreOf(s)) && CoreOf(s).tokens == [HandleFeatures]
    ensures s.secured ==> TlsSeen(s, st) == Some(false)
  {
    assert CoreOf(s).tlsSupport == s.tlsSupport;
    hide Tokens, Steps, Late, Watches, Orderly, HasCredential, AllUnsecured, Asked;
  }

  lemma {:induction false} SeenCore(s: State, tls: bool, sasl: set<Mechanism>)
    ensures CoreOf(s.(tlsSupport := tls, sasl := sasl)) == CoreOf(s).(tlsSupport := tls, sasl := sasl)
  {
    hide Tokens, Steps, Late, Watches;
  }

  /** The run stops in the middle of the features. */
  lemma {:induction false} SeenAside(s: State, tls: bool)
    requires Ok(CoreOf(s)) && CoreOf(s).tokens == [HandleFeatures]
    ensures Done(CoreOf(Stop(DeleteTimed(s, MissingFeatures).(tlsSupport := tls))), [HandleFeatures], 0)
  {
    var c := CoreOf(s);
    WaitsForOne(c, HandleFeatures);
    hide CoreOf, Orderly, HasCredential, AllUnsecured, Asked, DeleteTimed, Stop, Late;
    var s0 := DeleteTimed(s, MissingFeatures);
    DeletedCore(s);
    SupportCore(s0, tls);
    StopAside(s0.(tlsSupport := tls));
    assert [HandleFeatures][1..] == [];
  }

  lemma {:induction false} OnProceedTlsOrder(s: State, env: Env, st: Stanza)
    requires Ok(CoreOf(s)) && CoreOf(s).tokens == [HandleProceedTls]
    ensures Done(CoreOf(OnProceedTls(s, env, st)), [HandleProceedTls], 0)
  {
    hide Ok, Done, CoreOf, XmppDisconnect, Restart, Name, Observe, Watches;
    var s0 := s.(tick := s.tick + 1);
    WaitsForOne(CoreOf(s), HandleProceedTls);
    AsideElse(s, s0);
    DisconnectAside(s0, env);
    DoneAside(s, s, HandleProceedTls);
    DoneAside(s, XmppDisconnect(s0, env), HandleProceedTls);
    SecuredOrder(s0);
  }

  lemma {:induction false} RestartCore(s: State, open: OpenHandler)
    ensures CoreOf(Restart(s, open)) == CoreOf(s).(resetParser := true, open := open)
  {
    var s0 := s.(resetParser := true, openHandler := open);
    hide *;
    RestartIs(s, open);
    SendAside(s0, StreamHeader);
    AsideIs(s0, Send(s0, StreamHeader));
    RestartingCore(s, open);
  }

  lemma {:induction false} RestartIs(s: State, open: OpenHandler)
    ensures Restart(s, open) == Send(s.(resetParser := true, openHandler := open), StreamHeader)
  {
    hide Send;
  }

  lemma {:induction false} RestartingCore(s: State, open: OpenHandler)
    ensures CoreOf(s.(resetParser := true, openHandler := open)) == CoreOf(s).(resetParser := true, open := open)
  {
    hide Tokens, Steps, Late, Watches;
  }

  lemma {:induction false} StartedCore(s: State)
    ensures CoreOf(Observe(s.(secured := true), TlsStarted)) == CoreOf(s).(secured := true, steps := CoreOf(s).steps + [TlsStarted])
  {
    assert Relevant(TlsStarted);
    var s0 := s.(secured := true);
    assert CoreOf(s0) == CoreOf(s).(secured := true) by { hide Tokens, Steps, Late, Watches; }
    hide CoreOf, Relevant, Observe;
    ObserveCore(s0, TlsStarted);
  }

  lemma {:induction false} SecuredOrder(s: State)
    requires Ok(CoreOf(s)) && CoreOf(s).tokens == [HandleProceedTls]
    ensures Done(CoreOf(Restart(Observe(s.(secured := true), TlsStarted), AuthOpen)), [HandleProceedTls], 0)
  {
    hide Ok, CoreOf, Restart, Observe;
    WaitsForOne(CoreOf(s), HandleProceedTls);
    SecuredIsOk(CoreOf(s));
    StartedCore(s);
    RestartCore(Observe(s.(secured := true), TlsStarted), AuthOpen);
    assert [HandleProceedTls][1..] == [];
  }

  lemma {:induction false} OnSaslResultOrder(s: State, env: Env, st: Stanza, h: Handler)
    requires Ok(CoreOf(s)) && CoreOf(s).tokens == [h] && SaslToken(h)
    ensures Done(CoreOf(OnSaslResult(s, env, st)), [h], 0)
  {
    hide Ok, CoreOf, TryAuth, Restart, XmppDisconnect, Ready, Name;
    WaitsForOne(CoreOf(s), h);
    DisconnectAside(s, env);
    DoneAside(s, XmppDisconnect(s, env), h);
    TryingIsReady(CoreOf(s));
    TryAuthOrder(s, env, [h]);
    ReopenedIsOk(CoreOf(s), h);
    RestartCore(s, SaslOpen);
    assert [h][1..] == [];
  }

  lemma {:induction false} RespondOrder(s: State, env: Env, digest: Digest)
    requires Ok(CoreOf(s)) && CoreOf(s).tokens == [HandleDigestChallenge]
    ensures Done(CoreOf(Respond(s, env, digest)), [HandleDigestChallenge], 0)
  {
    hide Ok, Done, CoreOf, XmppDisconnect, AddHandler, Send, Stop;
    WaitsForOne(CoreOf(s), HandleDigestChallenge);
    match digest
    case Faults =>
      StopAside(s);
      DoneAside(s, Stop(s), HandleDigestChallenge);
    case NoResponse =>
      DisconnectAside(s, env);
      DoneAside(s, XmppDisconnect(s, env), HandleDigestChallenge);
    case Made(text) => RespondedOrder(s, text);
  }

  lemma {:induction false} RespondedOrder(s: State, text: string)
    requires Ok(CoreOf(s)) && CoreOf(s).tokens == [HandleDigestChallenge]
    ensures Done(CoreOf(Send(AddHandler(s, HandleDigestRspauth, Some(NS_SASL), None, None), Response(Some(text)))), [HandleDigestChallenge], 0)
  {
    var c, h := CoreOf(s), HandleDigestChallenge;
    var o, late := SentAs(s.link, Response(Some(text))), Late(s.history);
    assert Tokens(s.handlers, late) == [h];
    assert Relevant(o) && Live(HandleDigestRspauth, late);
    hide Ok, Done, CoreOf, AddHandler, Send, Tokens, WithEntry, SentAs, Relevant, Late, Live;
    WaitsForOne(c, h);
    SentIs(s.link, Response(Some(text)));
    ResponseIsOk(c, h, HandleDigestRspauth, o);
    OfferCore(s, HandleDigestRspauth, NS_SASL, Response(Some(text)));
    OfferedToken(c.(steps := c.steps + [o]), s.handlers, Entry(HandleDigestRspauth, Some(NS_SASL), None, None, false), [h], late);
  }

  lemma {:induction false} SentIs(link: Link, m: Message)
    ensures SentAs(link, m).Queued? || SentAs(link, m).Dropped?
    ensures SentAs(link, m).msg == m
  {
  }

  lemma {:induction false} OnDigestChallengeOrder(s: State, env: Env, st: Stanza)
    requires Ok(CoreOf(s)) && CoreOf(s).tokens == [HandleDigestChallenge]
    ensures Done(CoreOf(OnDigestChallenge(s, env, st)), [HandleDigestChallenge], 0)
  {
    hide Ok, Done, CoreOf, OnSaslResult, Respond, Name, GetText, Stop;
    var s0 := s.(tick := s.tick + 1);
    WaitsForOne(CoreOf(s), HandleDigestChallenge);
    OnSaslResultOrder(s, env, st, HandleDigestChallenge);
    StopAside(s);
    DoneAside(s, Stop(s), HandleDigestChallenge);
    TickAside(s);
    RespondOrder(s0, env, env(s.tick).digest);
  }

  lemma {:induction false} TickAside(s: State)
    ensures Aside(s, s.(tick := s.tick + 1))
  {
    hide Tokens, Steps, Late, Watches;
  }

  lemma {:induction false} RspauthOrder(s: State, env: Env, st: Stanza)
    requires Ok(CoreOf(s)) && CoreOf(s).tokens == [HandleDigestRspauth] && Name(st) == Some("challenge")
    ensures var c := CoreOf(Send(s, Response(None))); c.tokens == [HandleDigestRspauth] && Ok(c)
  {
    var o := SentAs(s.link, Response(None));
    assert Relevant(o) && o != Fired(MissingFeatures);
    hide Ok, CoreOf, Observe, Relevant, SentAs;
    SentIs(s.link, Response(None));
    WaitsForOne(CoreOf(s), HandleDigestRspauth);
    ResponseIsOk(CoreOf(s), HandleDigestRspauth, HandleDigestRspauth, o);
    ObserveCore(s, o);
  }

  lemma {:induction false} TokenStanzaOrder(s: State, env: Env, h: Handler, st: Stanza)
    requires Token(h) && Ok(CoreOf(s)) && CoreOf(s).tokens == [h]
    ensures After(s, env, h, st)
  {
    var s0 := Observe(s, Handled(h, st));
    assert !Relevant(Handled(h, st));
    TokensAreFive(h);
    hide *;
    ObserveAside(s, Handled(h, st));
    AsideIs(s, s0);
    StanzaCases(s, env, h, st);
    StaysOnChallenge(s, env, h, st);
    if h == HandleFeatures {
      OnFeaturesOrder(s0, env, st);
    } else if h == HandleProceedTls {
      OnProceedTlsOrder(s0, env, st);
    } else if h == HandleDigestChallenge {
      OnDigestChallengeOrder(s0, env, st);
    } else if h == HandleDigestRspauth && Name(st) == Some("challenge") {
      RspauthOrder(s0, env, st);
    } else {
      OnSaslResultOrder(s0, env, st, h);
    }
    AfterWhen(s, env, h, st);
  }

  lemma {:induction false} TokensAreFive(h: Handler)
    requires Token(h)
    ensures h == HandleFeatures || h == HandleProceedTls || SaslToken(h)
    ensures SaslToken(h) <==> h == HandleSaslResult || h == HandleDigestChallenge || h == HandleDigestRspauth
  {
  }

  lemma {:induction false} StaysOnChallenge(s: State, env: Env, h: Handler, st: Stanza)
    requires Token(h)
    ensures Stays(s, env, h, st) <==> h == HandleDigestRspauth && Name(st) == Some("challenge")
  {
    hide Name;
  }

  lemma {:induction false} AfterWhen(s: State, env: Env, h: Handler, st: Stanza)
    requires var c := CoreOf(OnStanza(s, env, h, st)); if Stays(s, env, h, st) then c.tokens == [h] && Ok(c) else Done(c, [h], 0)
    ensures After(s, env, h, st)
  {
    hide Ok, Done, CoreOf, OnStanza, Stays;
  }

  // ------------------------------------------------- the steps and the history

  lemma {:induction false} SameBelow(m: Measure, h: seq<Obs>)
    requires BelowAll(m, Steps(h))
    ensures BelowAll(m, h)
  {
    hide Less;
    forall i | 0 <= i < |h| && h[i].AuthCalled? ensures Less(m, h[i].measure) {
      assert h[i] in h && Relevant(h[i]);
      InSteps(h, h[i]);
      var j :| 0 <= j < |Steps(h)| && Steps(h)[j] == h[i];
    }
  }

  lemma {:induction false} SameCredential(h: seq<Obs>)
    ensures HasCredential(Steps(h)) <==> HasCredential(h)
  {
    if i :| 0 <= i < |h| && Credential(h[i]) {
      InSteps(h, h[i]);
    }
    if i :| 0 <= i < |Steps(h)| && Credential(Steps(h)[i]) {
      assert Steps(h)[i] in Steps(h);
      InSteps(h, Steps(h)[i]);
    }
  }

  /** What may follow the steps may follow the history. */
  lemma {:induction false} SameMayStep(h: seq<Obs>, o: Obs)
    requires MayStep(Steps(h), o)
    ensures MayStep(h, o)
  {
    InSteps(h, TlsStarted);
    InSteps(h, Fired(MissingFeatures));
    InSteps(h, Queued(StartTls));
    InSteps(h, Dropped(StartTls));
    InSteps(h, Queued(LegacyIq));
    InSteps(h, Dropped(LegacyIq));
    SameCredential(h);
    if o.AuthCalled? {
      SameBelow(o.measure, h);
    } else if (o.Queued? || o.Dropped?) && o.msg.Auth? {
      InSteps(h, Queued(o.msg));
      InSteps(h, Dropped(o.msg));
    }
    hide Steps, BelowAll, HasCredential;
  }

  lemma {:induction false} OrderlyBefore(t: seq<Obs>, o: Obs)
    ensures Orderly(t + [o]) ==> Orderly(t) && MayStep(t, o)
  {
    assert (t + [o])[..|t|] == t;
  }

  lemma {:induction false} OrderlyMeansAllowed(h: seq<Obs>, i: nat)
    requires Orderly(Steps(h)) && i < |h| && Relevant(h[i])
    ensures MayStep(h[..i], h[i])
    decreases |h|
  {
    hide MayStep, Relevant;
    var n := |h| - 1;
    var before := Steps(h[..n]);
    assert before + [] == before;
    OrderlyBefore(before, h[n]);
    if i < n {
      assert Orderly(before);
      OrderlyMeansAllowed(h[..n], i);
      assert h[..n][..i] == h[..i];
    } else {
      assert MayStep(Steps(h[..n]), h[n]);
      SameMayStep(h[..n], h[n]);
    }
  }

  // -------------------------------------------------- dispatch keeps the order

  predicate ReadsFeatures(o: Obs) {
    o.Handled? && o.handler == HandleFeatures
  }

  /** Features were read though the wait for them had been given up before. */
  ghost predicate Belated(h: seq<Obs>) {
    exists i, j :: 0 <= i < j < |h| && h[i] == Fired(MissingFeatures) && ReadsFeatures(h[j])
  }

  /** Up to features that are read too late each step may follow what came before it. */
  ghost predicate Timely(h: seq<Obs>) {
    forall i :: 0 <= i < |h| && !Belated(h[..i]) && Relevant(h[i]) ==> MayStep(h[..i], h[i])
  }

  ghost predicate Spoiled(s: State) {
    Belated(s.history) && Timely(s.history)
  }

  /** A stream that is to be reset is open or was closed. */
  predicate ResetOk(s: State) {
    s.resetParser ==> s.inStream || s.streamDone
  }

  ghost predicate Fine(s: State) {
    Spoiled(s) || (if s.stopped then Orderly(Steps(s.history)) else Ok(CoreOf(s)))
  }

  ghost predicate FineToRead(s: State) {
    Fine(s) && (Spoiled(s) || ResetOk(s))
  }

  lemma {:induction false} SpoiledStays(s: State, r: State)
    requires Spoiled(s) && s.history <= r.history
    ensures Spoiled(r)
  {
    hide MayStep, Relevant, Belated;
    BelatedGrows(s.history, r.history);
    TimelyGrows(s.history, r.history);
  }

  lemma {:induction false} BelatedGrows(g: seq<Obs>, h: seq<Obs>)
    requires Belated(g) && g <= h
    ensures Belated(h)
  {
    var i, j :| 0 <= i < j < |g| && g[i] == Fired(MissingFeatures) && ReadsFeatures(g[j]);
    assert h[i] == Fired(MissingFeatures) && ReadsFeatures(h[j]);
  }

  /** Once features were read too late nothing more is asked of the order. */
  lemma {:induction false} TimelyGrows(g: seq<Obs>, h: seq<Obs>)
    requires Belated(g) && Timely(g) && g <= h
    ensures Timely(h)
  {
    hide MayStep, Relevant, Belated;
    forall i | 0 <= i < |h| && !Belated(h[..i]) && Relevant(h[i]) ensures MayStep(h[..i], h[i]) {
      if i < |g| {
        assert h[..i] == g[..i];
      } else {
        BelatedGrows(g, h[..i]);
      }
    }
  }

  lemma {:induction false} OrderlyIsTimely(h: seq<Obs>)
    requires Orderly(Steps(h))
    ensures Timely(h)
  {
    hide MayStep, Relevant, Belated, Orderly, Steps;
    forall i | 0 <= i < |h| && !Belated(h[..i]) && Relevant(h[i]) ensures MayStep(h[..i], h[i]) {
      OrderlyMeansAllowed(h, i);
    }
  }

  lemma {:induction false} TimelyNext(h: seq<Obs>, o: Obs)
    requires Timely(h) && !Relevant(o)
    ensures Timely(h + [o])
  {
    hide MayStep, Relevant, Belated;
    var g := h + [o];
    forall i | 0 <= i < |g| && !Belated(g[..i]) && Relevant(g[i]) ensures MayStep(g[..i], g[i]) {
      assert g[..i] == h[..i];
    }
  }

  lemma {:induction false} AsideFine(s: State, r: State)
    requires Fine(s) && !s.stopped && Aside(s, r) && s.history <= r.history
    ensures Fine(r) && (FineToRead(s) ==> FineToRead(r))
  {
    hide Steps, Tokens, Orderly, Late, Watches, Belated, Timely;
    if Spoiled(s) {
      SpoiledStays(s, r);
    }
    assert Ok(CoreOf(s)) ==> Orderly(CoreOf(s).steps);
    hide Ok;
  }

  lemma {:induction false} StanzaGrows(s: State, env: Env, h: Handler, st: Stanza)
    ensures var r := OnStanza(s, env, h, st);
      && s.history <= r.history && s.handlers <= r.handlers && r.inStream == s.inStream && r.streamDone == s.streamDone
      && (Late(r.history) <==> Late(s.history)) && Observe(s, Handled(h, st)).history <= r.history
  {
    var s0, r := Observe(s, Handled(h, st)), OnStanza(s, env, h, st);
    LateNext(s.history, Handled(h, st));
    hide OnStanza, AllInner, AllNew, Distinct, BarredBy, Late;
    OnStanzaExtends(s, env, h, st);
    InnerIsNotLate(s.link, s0.history, r.history);
  }

  /** No handler makes the timeout fire. */
  lemma {:induction false} InnerIsNotLate(link: Link, g: seq<Obs>, h: seq<Obs>)
    requires g <= h && AllInner(link, h[|g|..])
    ensures Late(h) <==> Late(g)
  {
    assert h == g + h[|g|..];
    assert forall i :: 0 <= i < |h[|g|..]| ==> Inner(link, h[|g|..][i]);
  }

  lemma {:induction false} OtherStanzaFine(s: State, env: Env, h: Handler, st: Stanza)
    requires Fine(s) && !s.stopped && !Token(h)
    ensures Fine(OnStanza(s, env, h, st))
  {
    hide CoreOf, OnStanza, Fine, Late;
    StanzaGrows(s, env, h, st);
    OtherStanzaAside(s, env, h, st);
    AsideFine(s, OnStanza(s, env, h, st));
  }

  /** The entry whose handler ran is taken out. */
  lemma {:induction false} TokensLeft(hs: seq<Entry>, more: seq<Entry>, i: nat, late: bool)
    requires hs <= more && i < |hs| && Live(hs[i].handler, late) && Tokens(hs, late) == [hs[i].handler]
    requires Tokens(more, late) != []
    ensures Tokens(RemoveAt(more, i), late) == Tokens(more, late)[1..]
  {
    hide *;
    TokensRemoved(hs, i, late);
    TokensRemoved(more, i, late);
    assert hs[..i] == more[..i];
    JustOne(Tokens(hs[..i], late), hs[i].handler, Tokens(hs[i + 1..], late), Tokens(more[i + 1..], late));
  }

  lemma {:induction false} JustOne(a: seq<Handler>, h: Handler, b: seq<Handler>, c: seq<Handler>)
    requires a + [h] + b == [h]
    ensures a == [] && (a + [h] + c)[1..] == a + c
  {
    assert |a + [h] + b| == 1;
  }

  lemma {:induction false} OnlyToken(s: State, i: nat)
    requires Ok(CoreOf(s)) && i < |s.handlers| && Live(s.handlers[i].handler, Late(s.history))
    ensures CoreOf(s).tokens == [s.handlers[i].handler]
  {
    hide Tokens, Steps, Orderly, Live, Late, Watches;
    TokensAre(s.handlers, i, Late(s.history));
  }

  lemma {:induction false} DoneIsOrderly(c: Core, own: seq<Handler>, waiting: nat)
    requires Done(c, own, waiting)
    ensures Orderly(c.steps)
  {
  }

  lemma {:induction false} RemovedCore(s: State, r: State, i: nat)
    requires i < |s.handlers| && Live(s.handlers[i].handler, Late(s.history)) && Done(CoreOf(r), [s.handlers[i].handler], 0)
    requires CoreOf(s).tokens == [s.handlers[i].handler] && s.handlers <= r.handlers && (Late(r.history) <==> Late(s.history))
    ensures Ok(CoreOf(r.(handlers := RemoveAt(r.handlers, i))))
  {
    TokensLeft(s.handlers, r.handlers, i, Late(s.history));
    assert CoreOf(r.(handlers := RemoveAt(r.handlers, i))) == CoreOf(r).(tokens := CoreOf(r).tokens[1..], waiting := 0) by {
      hide Tokens, Steps, RemoveAt, Late, Watches;
    }
    hide CoreOf, Ok;
  }

  /** A handler was called, and its entry taken out if it does not stay. */
  lemma {:induction false} TokenStanzaFine(s: State, env: Env, st: Stanza, i: nat)
    requires Fine(s) && !s.stopped && i < |s.handlers| && Token(s.handlers[i].handler)
    ensures var h := s.handlers[i].handler;
      var r := OnStanza(s, env, h, st);
      && i < |r.handlers|
      && (r.stopped || Stays(s, env, h, st) ==> Fine(r))
      && (!r.stopped && !Stays(s, env, h, st) ==> Fine(r.(handlers := RemoveAt(r.handlers, i))))
  {
    var h := s.handlers[i].handler;
    var r := OnStanza(s, env, h, st);
    StanzaGrows(s, env, h, st);
    hide OnStanza, Tokens, Steps, Ok, Orderly, Stays, RemoveAt, CoreOf, Belated, Timely, Late, Token;
    if Spoiled(s) {
      SpoiledStays(s, r);
    } else if h == HandleFeatures && Late(s.history) {
      StepsOf(s);
      ReadLate(s, r, st);
    } else {
      LiveStanzaFine(s, env, st, i);
    }
  }

  lemma {:induction false} LiveStanzaFine(s: State, env: Env, st: Stanza, i: nat)
    requires Ok(CoreOf(s)) && i < |s.handlers| && Live(s.handlers[i].handler, Late(s.history))
    ensures var h := s.handlers[i].handler;
      var r := OnStanza(s, env, h, st);
      && i < |r.handlers|
      && (r.stopped || Stays(s, env, h, st) ==> Fine(r))
      && (!r.stopped && !Stays(s, env, h, st) ==> Fine(r.(handlers := RemoveAt(r.handlers, i))))
  {
    var h := s.handlers[i].handler;
    var r := OnStanza(s, env, h, st);
    assert Token(h);
    hide *;
    StanzaGrows(s, env, h, st);
    OnlyToken(s, i);
    TokenStanzaOrder(s, env, h, st);
    AfterMeans(s, env, h, st);
    StepsOf(r);
    if Stays(s, env, h, st) {
      OkOrOrderly(r);
    } else {
      DoneIsOrderly(CoreOf(r), [h], 0);
      OkOrOrderly(r);
      RemovedCore(s, r, i);
      OkOrOrderly(r.(handlers := RemoveAt(r.handlers, i)));
    }
  }

  lemma {:induction false} AfterMeans(s: State, env: Env, h: Handler, st: Stanza)
    requires After(s, env, h, st)
    ensures var c := CoreOf(OnStanza(s, env, h, st)); if Stays(s, env, h, st) then Ok(c) else Done(c, [h], 0)
  {
  }

  lemma {:induction false} OkOrOrderly(s: State)
    ensures Ok(CoreOf(s)) ==> !s.stopped ==> Fine(s)
    ensures Orderly(Steps(s.history)) ==> s.stopped ==> Fine(s)
  {
    hide Ok, CoreOf, Orderly, Steps, Belated, Timely;
  }

  lemma {:induction false} ReadLate(s: State, r: State, st: Stanza)
    requires Late(s.history) && Observe(s, Handled(HandleFeatures, st)).history <= r.history
    requires Orderly(Steps(s.history))
    ensures Spoiled(r)
  {
    var o := Handled(HandleFeatures, st);
    assert !Relevant(o);
    LateIsBelated(s.history, o);
    hide MayStep, Relevant, Belated, Orderly, Steps, Late;
    OrderlyIsTimely(s.history);
    TimelyNext(s.history, o);
    BelatedGrows(s.history + [o], r.history);
    TimelyGrows(s.history + [o], r.history);
  }

  lemma {:induction false} LateIsBelated(h: seq<Obs>, o: Obs)
    requires Late(h) && ReadsFeatures(o)
    ensures Belated(h + [o])
  {
    var g := h + [o];
    var i :| 0 <= i < |h| && h[i] == Fired(MissingFeatures);
    assert g[i] == Fired(MissingFeatures) && ReadsFeatures(g[|h|]);
  }

  lemma {:induction false} StepsOf(r: State)
    ensures CoreOf(r).steps == Steps(r.history)
    ensures Ok(CoreOf(r)) ==> Orderly(CoreOf(r).steps)
  {
    hide Steps, Tokens, Orderly, Late, Watches;
  }

  lemma {:induction false} OtherRemovedFine(r: State, i: nat)
    requires Fine(r) && i < |r.handlers| && !Token(r.handlers[i].handler)
    ensures Fine(r.(handlers := RemoveAt(r.handlers, i)))
  {
    TokensRemoved(r.handlers, i, Late(r.history));
    CoreOfList(r, RemoveAt(r.handlers, i));
    hide Token, Steps, Tokens, Ok, Orderly, RemoveAt, CoreOf, Late, Belated, Timely;
  }

  lemma {:induction false} CoreOfList(r: State, hs: seq<Entry>)
    ensures Tokens(hs, Late(r.history)) == Tokens(r.handlers, Late(r.history)) ==> CoreOf(r.(handlers := hs)) == CoreOf(r)
  {
    hide Steps, Tokens, Late, Watches;
  }

  lemma {:induction false} ElseFine(s: State, r: State)
    requires Fine(s) && r.stopped == s.stopped && Aside(s, r) && r.history == s.history
    ensures Fine(r) && (FineToRead(s) ==> FineToRead(r))
  {
    hide Tokens, Steps, Ok, Orderly, Late, Watches, Belated, Timely;
  }

  lemma {:induction false} FireListFine(s: State, env: Env, st: Stanza, i: nat, r: nat)
    requires Fine(s)
    ensures var t := FireList(s, env, st, i, r); Fine(t) && t.inStream == s.inStream
    decreases r
  {
    hide Fine, OnStanza, RemoveAt, Stays, Eligible, Matches, Token;
    if !(r == 0 || s.stopped || i >= |s.handlers|) {
      var e := s.handlers[i];
      if !Eligible(s, e.handler) || !Matches(e, st) {
        FireListFine(s, env, st, i + 1, r - 1);
      } else {
        CalledFine(s, env, st, i);
        var s1 := OnStanza(s, env, e.handler, st);
        if s1.stopped || i >= |s1.handlers| || Stays(s, env, e.handler, st) {
          FireListFine(s1, env, st, i + 1, r - 1);
        } else {
          FireListFine(s1.(handlers := RemoveAt(s1.handlers, i)), env, st, i, r - 1);
        }
      }
    }
  }

  lemma {:induction false} CalledFine(s: State, env: Env, st: Stanza, i: nat)
    requires Fine(s) && !s.stopped && i < |s.handlers|
    ensures var h := s.handlers[i].handler;
      var r := OnStanza(s, env, h, st);
      && r.inStream == s.inStream
      && (r.stopped || i >= |r.handlers| || Stays(s, env, h, st) ==> Fine(r))
      && (!(r.stopped || i >= |r.handlers| || Stays(s, env, h, st)) ==> Fine(r.(handlers := RemoveAt(r.handlers, i))))
  {
    var h := s.handlers[i].handler;
    hide Fine, OnStanza, RemoveAt, Stays, Token;
    StanzaGrows(s, env, h, st);
    if Token(h) {
      TokenStanzaFine(s, env, st, i);
    } else {
      OtherStanzaFine(s, env, h, st);
      OtherRemovedFine(OnStanza(s, env, h, st), i);
    }
  }

  lemma {:induction false} FireIdsFine(s: State, env: Env, st: Stanza, id: string, k: nat, prev: nat, r: nat)
    requires Fine(s) && AuthSafety.Kept(s) && Id(st) == Some(id)
    ensures var t := FireIds(s, env, st, id, k, prev, r); Fine(t) && t.inStream == s.inStream
    decreases r
  {
    hide Fine, AuthSafety.Kept, AuthSafety.Inv, OnStanza, Unchained, Stays, Id, AuthSafety.MayRun, Eligible, Token;
    var chain := Chain(s.ids, id);
    if !(r == 0 || s.stopped || k >= |chain| || prev > k) {
      AuthSafety.KeptRuns(s);
      if !Eligible(s, chain[k]) {
        FireIdsFine(s, env, st, id, k + 1, prev, r - 1);
      } else {
        IdIsNoToken(s, id, k);
        AuthSafety.IdMayRun(s, st, id, k);
        AuthSafety.OnStanzaKeeps(s, env, chain[k], st);
        OtherStanzaFine(s, env, chain[k], st);
        StanzaGrows(s, env, chain[k], st);
        var s1 := OnStanza(s, env, chain[k], st);
        if s1.stopped || k >= |Chain(s1.ids, id)| || Stays(s, env, chain[k], st) {
          FireIdsFine(s1, env, st, id, k + 1, k + 1, r - 1);
        } else {
          UnchainedFine(s1, id, k, prev);
          FireIdsFine(s1.(ids := s1.ids[id := Unchained(Chain(s1.ids, id), k, prev)]), env, st, id, prev, prev, r - 1);
        }
      }
    }
  }

  lemma {:induction false} UnchainedFine(s: State, id: string, k: nat, prev: nat)
    requires Fine(s) && AuthSafety.Kept(s) && !s.stopped && prev <= k < |Chain(s.ids, id)|
    ensures var t := s.(ids := s.ids[id := Unchained(Chain(s.ids, id), k, prev)]); Fine(t) && AuthSafety.Kept(t)
  {
    hide Fine, CoreOf, AuthSafety.Kept, AuthSafety.Inv, Unchained;
    var t := s.(ids := s.ids[id := Unchained(Chain(s.ids, id), k, prev)]);
    AsideElse(s, t);
    ElseFine(s, t);
    AuthSafety.KeptRuns(s);
    AuthSafety.UnchainKeeps(s, id, k, prev);
    AuthSafety.InvIsKept(t);
  }

  /** No token is ever registered for an id. */
  lemma {:induction false} IdIsNoToken(s: State, id: string, k: nat)
    requires AuthSafety.Inv(s) && k < |Chain(s.ids, id)|
    ensures !Token(Chain(s.ids, id)[k])
  {
    hide AuthSafety.Occurs, AuthSafety.Safe;
    assert AuthSafety.IdOk(s.history, id, Chain(s.ids, id)[k]);
  }

  lemma {:induction false} FireByIdFine(s: State, env: Env, st: Stanza)
    requires Fine(s) && AuthSafety.Inv(s)
    ensures var t := FireById(s, env, st); Fine(t) && t.inStream == s.inStream
  {
    hide Fine, CoreOf, AuthSafety.Inv, AuthSafety.Kept, FireIds, Id, Chain;
    if Id(st).Some? {
      BusyFine(s, Id(st));
      AuthSafety.BusyKeeps(s, Id(st));
      FireIdsFine(s.(busyId := Id(st)), env, st, Id(st).value, 0, 0, |Chain(s.ids, Id(st).value)|);
      BusyFine(FireIds(s.(busyId := Id(st)), env, st, Id(st).value, 0, 0, |Chain(s.ids, Id(st).value)|), None);
    }
  }

  lemma {:induction false} BusyFine(s: State, id: Option<string>)
    requires Fine(s)
    ensures Fine(s.(busyId := id))
  {
    hide Fine, CoreOf, Watches;
    AsideElse(s, s.(busyId := id));
    ElseFine(s, s.(busyId := id));
  }

  lemma {:induction false} FireListedFine(s: State, env: Env, st: Stanza)
    requires Fine(s)
    ensures var t := FireListed(s, env, st); Fine(t) && t.inStream == s.inStream
  {
    hide Fine, FireList, Enabled;
    if !s.stopped {
      EnabledFine(s);
      FireListFine(s.(handlers := Enabled(s.handlers)), env, st, 0, |s.handlers|);
    }
  }

  lemma {:induction false} FireStanzaFine(s: State, env: Env, st: Stanza)
    requires Fine(s) && AuthSafety.Inv(s) && !s.stopped
    ensures var t := FireStanza(s, env, st); Fine(t) && t.inStream == s.inStream
  {
    var s0 := Observe(s, Received(st));
    assert !Relevant(Received(st)) && s.history <= s0.history && s0.inStream == s.inStream;
    hide *;
    StanzaFires(s, env, st);
    ObserveAside(s, Received(st));
    AsideFine(s, s0);
    AuthSafety.ReceivedKeeps(s, st);
    FireByIdFine(s0, env, st);
    FireListedFine(FireById(s0, env, st), env, st);
  }

  lemma {:induction false} EnabledFine(s: State)
    requires Fine(s)
    ensures Fine(s.(handlers := Enabled(s.handlers)))
  {
    TokensEnabled(s.handlers, Late(s.history));
    hide Tokens, Steps, Ok, Orderly, Enabled, Late, Watches, Belated, Timely;
    assert CoreOf(s.(handlers := Enabled(s.handlers))) == CoreOf(s);
  }

  lemma {:induction false} ConnDisconnectFine(s: State, env: Env)
    requires Fine(s) && !s.stopped
    ensures Fine(ConnDisconnect(s, env)) && (FineToRead(s) ==> FineToRead(ConnDisconnect(s, env)))
    ensures s.history <= ConnDisconnect(s, env).history
  {
    hide Fine, CoreOf, Notify, AllInner, AllNew, Distinct;
    ConnDisconnectAside(s, env);
    NotifyExtends(s.(link := Disconnected), env, false);
    AsideFine(s, ConnDisconnect(s, env));
  }

  /** The timeout fires: the handler of the features counts no more, and `_auth` may be
      called. */
  lemma {:induction false} TimeoutCore(s: State)
    requires CoreOf(s).tokens == [HandleFeatures] && !Late(s.history)
    ensures CoreOf(Observe(s, Fired(MissingFeatures)))
      == CoreOf(s).(tokens := [], steps := CoreOf(s).steps + [Fired(MissingFeatures)])
  {
    TokensTimedOut(s.handlers);
    StepsNext(s.history, Fired(MissingFeatures));
    LateNext(s.history, Fired(MissingFeatures));
    assert Relevant(Fired(MissingFeatures));
    hide Tokens, Steps, Late, Watches, Relevant;
  }

  lemma {:induction false} TimeoutIsReady(c: Core)
    requires Ok(c) && c.tokens == [HandleFeatures]
    ensures !Late(c.steps) && Ready(c.(tokens := [], steps := c.steps + [Fired(MissingFeatures)]))
  {
    var o := Fired(MissingFeatures);
    ExpectingIsReady(c, false, c.sasl);
    var d := c.(tlsSupport := false, sasl := c.sasl, waiting := 0);
    ReadyParts(d);
    assert MayStep(c.steps, o) && Harmless(o) && !o.AuthCalled?;
    assert !c.tlsSupport && !Late(c.steps);
    var e := c.(tokens := [], steps := c.steps + [o]);
    hide *;
    OrderlyNext(c.steps, o);
    HarmlessNext(c.steps, o, c.sasl);
    LeftIs(d);
    LeftIs(e);
    BelowLater(LeftOf(d), c.steps, o);
    SameAwaited(d, e);
    TryingWhen(e);
    ReadyWhen(e);
  }

  lemma {:induction false} LateIs(s: State)
    ensures Late(s.history) <==> Late(CoreOf(s).steps)
  {
    InSteps(s.history, Fired(MissingFeatures));
    hide Steps, Tokens, Watches;
  }

  /** The timer of the features fires, and is deleted. */
  lemma {:induction false} TimedOutOk(s: State, env: Env)
    requires Ok(CoreOf(s)) && CoreOf(s).waiting > 0
    ensures Ok(CoreOf(DeleteTimed(TryAuth(Observe(s, Fired(MissingFeatures)), env), MissingFeatures)))
  {
    var s0 := Observe(s, Fired(MissingFeatures));
    assert CoreOf(s).tokens == [HandleFeatures] && CoreOf(s).waiting == 1 by {
      hide CoreOf, Orderly, Expecting, Trying, Starting;
    }
    TimeoutIsReady(CoreOf(s));
    LateIs(s);
    TimeoutCore(s);
    hide Ok, CoreOf, Ready, TryAuth, Observe, DeleteTimed, Late;
    TryAuthOrder(s0, env, []);
    var c := CoreOf(TryAuth(s0, env));
    assert c.tokens[0..] == c.tokens;
    DeletedCore(TryAuth(s0, env));
  }

  lemma {:induction false} TimeoutGrows(s: State, env: Env)
    ensures var t := DeleteTimed(TryAuth(Observe(s, Fired(MissingFeatures)), env), MissingFeatures);
      && s.history <= t.history && t.inStream == s.inStream && t.streamDone == s.streamDone && t.resetParser == s.resetParser
  {
    var s0 := Observe(s, Fired(MissingFeatures));
    TryAuthResets(s0, env);
    hide AllInner, AllNew, Distinct, TryAuth, BarredBy, WithoutTimer;
    TryAuthExtends(s0, env);
  }

  predicate SameReset(s: State, r: State) {
    r.resetParser == s.resetParser
  }

  lemma {:induction false} ObservedResets(s: State, env: Env)
    ensures var s0 := Observe(s, AuthCalled(Left(s)));
      SameReset(s, s0) && SameReset(s, Stop(s0)) && SameReset(s, TlsAsked(s0, env).(tlsSupport := false))
  {
    hide Left;
  }

  lemma {:induction false} TlsResets(s: State, env: Env)
    ensures var s1 := TlsAsked(Observe(s, AuthCalled(Left(s))), env);
      SameReset(s, Send(AddHandler(s1, HandleProceedTls, Some(NS_TLS), None, None), StartTls).(tlsSupport := false))
  {
    hide WithEntry, SentAs, Left;
  }

  lemma {:induction false} MechanismResets(s: State, m: Mechanism, h: Handler)
    ensures SameReset(s, TryMechanism(s, m, h))
  {
    hide WithEntry, SentAs;
  }

  lemma {:induction false} OthersReset(s: State, env: Env)
    ensures SameReset(s, XmppDisconnect(s, env))
    ensures SameReset(s, Request(s, env, HandleLegacy, "_xmpp_auth1", MissingLegacy, LEGACY_TIMEOUT, LegacyIq))
  {
    hide WithTimer, IsTimed, WithId, SentAs;
  }

  lemma {:induction false} TryRestResets(s: State, env: Env)
    requires !s.tlsSupport
    ensures SameReset(Observe(s, AuthCalled(Left(s))), TryAuth(s, env)) || TryAuth(s, env) == Stop(Observe(s, AuthCalled(Left(s))))
  {
    var s0 := Observe(s, AuthCalled(Left(s)));
    assert SameReset(s0, s0);
    hide SameReset, Left, Observe, TryMechanism, Request, XmppDisconnect, Stop;
    MechanismResets(s0, Anonymous, HandleSaslResult);
    MechanismResets(s0, DigestMd5, HandleDigestChallenge);
    MechanismResets(s0, Plain, HandleSaslResult);
    OthersReset(s0, env);
  }

  lemma {:induction false} TryAuthResets(s: State, env: Env)
    ensures SameReset(s, TryAuth(s, env))
    decreases s.tlsSupport
  {
    ObservedResets(s, env);
    if s.tlsSupport {
      TlsResets(s, env);
      hide Left, Observe, AddHandler, Send, TlsAsked, Stop;
      if !env(s.tick).tlsAvailable {
        TryAuthResets(TlsAsked(Observe(s, AuthCalled(Left(s))), env).(tlsSupport := false), env);
      }
    } else {
      TryRestResets(s, env);
      hide TryAuth, Left, Observe, Stop;
    }
  }

  lemma {:induction false} TimeoutFine(s: State, env: Env)
    requires FineToRead(s) && !s.stopped && CoreOf(s).waiting > 0
    ensures FineToRead(DeleteTimed(OnTimer(s, env, MissingFeatures), MissingFeatures))
  {
    var t := DeleteTimed(TryAuth(Observe(s, Fired(MissingFeatures)), env), MissingFeatures);
    TimerCases(s, env, MissingFeatures);
    TimeoutGrows(s, env);
    if Spoiled(s) {
      SpoiledStays(s, t);
      hide TryAuth, Observe, Orderly, Ok, Steps, CoreOf, Belated, Timely, OnTimer, DeleteTimed;
    } else {
      TimedOutOk(s, env);
      hide TryAuth, Observe, Orderly, Ok, Steps, CoreOf, Belated, Timely, OnTimer, DeleteTimed;
      StepsOf(t);
    }
  }

  lemma {:induction false} OtherTimerFine(s: State, env: Env, h: Handler)
    requires FineToRead(s) && !s.stopped && h != MissingFeatures
    ensures FineToRead(OnTimer(s, env, h))
  {
    var s0 := Observe(s, Fired(h));
    assert !Relevant(Fired(h));
    hide *;
    TimerCases(s, env, h);
    ReadIsFine(s);
    ObserveAside(s, Fired(h));
    AsideFine(s, s0);
    if h == DisconnectCleanup {
      ConnDisconnectFine(s0, env);
    } else if h.User? {
      CallbackAside(s0, env);
      CallbackExtends(s0, env);
      KeepsGrows(s0, Callback(s0, env));
      AsideFine(s0, Callback(s0, env));
    } else {
      DisconnectAside(s0, env);
      DisconnectExtends(s0, env);
      KeepsGrows(s0, XmppDisconnect(s0, env));
      AsideFine(s0, XmppDisconnect(s0, env));
    }
  }

  lemma {:induction false} KeepsGrows(s: State, r: State)
    requires Keeps(s, r)
    ensures s.history <= r.history
  {
    hide AllInner, AllNew, Distinct, BarredBy;
  }

  /** Of the timers only those for the features are part of the core. */
  lemma {:induction false} TimersFine(s: State, timed: seq<Timer>, tick: nat)
    requires FineToRead(s) && Watches(timed) == Watches(s.timed)
    ensures FineToRead(s.(timed := timed, tick := tick))
  {
    hide Fine, CoreOf, Watches;
    AsideElse(s, s.(timed := timed, tick := tick));
    ElseFine(s, s.(timed := timed, tick := tick));
  }

  lemma {:induction false} FireTimersFine(s: State, env: Env, i: nat, r: nat)
    requires FineToRead(s)
    ensures FineToRead(FireTimers(s, env, i, r))
    decreases r
  {
    hide *;
    if r == 0 || s.stopped || i >= |s.timed| {
      TimersEnd(s, env, i, r);
    } else {
      var t := s.timed[i];
      TimersUnfold(s, env, i, r);
      if !Eligible(s, t.handler) {
        FireTimersFine(s, env, i + 1, r - 1);
      } else if Elapsed(t.lastStamp, env(s.tick).now) < t.period {
        LookedAtFine(s);
        FireTimersFine(s.(tick := s.tick + 1), env, i + 1, r - 1);
      } else {
        var stamped := Stamped(s, env, i);
        var s1 := OnTimer(stamped, env, t.handler);
        FiredFine(s, env, i);
        if t.handler.User? && env(stamped.tick).keep {
          FireTimersFine(s1, env, i + 1, r - 1);
        } else {
          FireTimersFine(DeleteTimed(s1, t.handler), env, i, r - 1);
        }
      }
    }
  }

  lemma {:induction false} LookedAtFine(s: State)
    requires FineToRead(s)
    ensures FineToRead(s.(tick := s.tick + 1))
  {
    hide FineToRead;
    TimersFine(s, s.timed, s.tick + 1);
    assert s.(timed := s.timed, tick := s.tick + 1) == s.(tick := s.tick + 1);
  }

  lemma {:induction false} WatchesAt(ts: seq<Timer>, i: nat)
    requires i < |ts| && ts[i].handler == MissingFeatures
    ensures Watches(ts) > 0
  {
    if i > 0 {
      WatchesAt(ts[1..], i - 1);
    }
  }

  lemma {:induction false} StampedFine(s: State, env: Env, i: nat)
    requires FineToRead(s) && !s.stopped && i < |s.timed|
    ensures var r := Stamped(s, env, i);
      FineToRead(r) && !r.stopped && (s.timed[i].handler == MissingFeatures ==> CoreOf(r).waiting > 0)
  {
    hide *;
    ReadIsFine(s);
    StampedAside(s, env, i);
    ElseFine(s, Stamped(s, env, i));
    AsideIs(s, Stamped(s, env, i));
    WaitingIs(s);
    if s.timed[i].handler == MissingFeatures {
      WatchesAt(s.timed, i);
    }
  }

  lemma {:induction false} StampedAside(s: State, env: Env, i: nat)
    requires i < |s.timed|
    ensures var r := Stamped(s, env, i); Aside(s, r) && r.stopped == s.stopped && r.history == s.history
  {
    WatchesSame(s.timed, s.timed[i := s.timed[i].(lastStamp := env(s.tick + 1).now)]);
    hide CoreOf, Watches;
    AsideElse(s, Stamped(s, env, i));
  }

  lemma {:induction false} WaitingIs(s: State)
    ensures CoreOf(s).waiting == Watches(s.timed) && CoreOf(s).tokens == Tokens(s.handlers, Late(s.history))
  {
    hide Watches, Tokens, Steps, Late;
  }

  /** A timer fires, and is deleted unless it is the user's. */
  lemma {:induction false} FiredFine(s: State, env: Env, i: nat)
    requires FineToRead(s) && !s.stopped && i < |s.timed|
    ensures var h := s.timed[i].handler;
      var s1 := OnTimer(Stamped(s, env, i), env, h);
      FineToRead(DeleteTimed(s1, h)) && (h.User? ==> FineToRead(s1))
  {
    hide *;
    var h, stamped := s.timed[i].handler, Stamped(s, env, i);
    StampedFine(s, env, i);
    if h == MissingFeatures {
      TimeoutFine(stamped, env);
    } else {
      OtherTimerFine(stamped, env, h);
      DeletedFine(OnTimer(stamped, env, h), h);
    }
  }

  lemma {:induction false} DeletedFine(s: State, h: Handler)
    requires FineToRead(s) && h != MissingFeatures
    ensures FineToRead(DeleteTimed(s, h))
  {
    WatchesWithout(s.timed, h);
    hide FineToRead, WithoutTimer, Watches;
    TimersFine(s, WithoutTimer(s.timed, h), s.tick);
    assert DeleteTimed(s, h) == s.(timed := WithoutTimer(s.timed, h), tick := s.tick);
  }

  lemma {:induction false} FireTimedFine(s: State, env: Env)
    requires FineToRead(s)
    ensures FineToRead(FireTimed(s, env))
  {
    WatchesSame(s.timed, EnabledTimers(s.timed));
    hide FineToRead, FireTimers, EnabledTimers, Watches;
    TimersFine(s, EnabledTimers(s.timed), s.tick);
    FireTimersFine(s.(timed := EnabledTimers(s.timed)), env, 0, |s.timed|);
  }

  // ---------------------------------------------------- events keep the order

  lemma {:induction false} AuthOpenCore(s: State, env: Env)
    requires CoreOf(s).tokens == [] && CoreOf(s).waiting == 0 && !Late(s.history)
    ensures CoreOf(OnAuthOpen(s, env)) == CoreOf(s).(tokens := [HandleFeatures], waiting := 1)
  {
    var e0, e1 := Entry(HandleError, None, Some("stream:error"), None, false), Entry(HandleFeatures, None, Some("stream:features"), None, false);
    hide *;
    WaitingIs(s);
    OpenTokens(s.handlers, e0, e1);
    OpenWatches(s, env);
    AuthOpenParts(s, env, e0, e1);
    CoreWhen(s, OnAuthOpen(s, env));
  }

  lemma {:induction false} OpenTokens(hs: seq<Entry>, e0: Entry, e1: Entry)
    requires Tokens(hs, false) == [] && e0.handler == HandleError && e1.handler == HandleFeatures
    ensures Tokens(WithEntry(WithEntry(hs, e0), e1), false) == [HandleFeatures]
  {
    assert !Live(e0.handler, false) && Live(e1.handler, false);
    hide *;
    TokensWith(hs, e0, false);
    if Listed(WithEntry(hs, e0), HandleFeatures) {
      ListedToken(WithEntry(hs, e0), HandleFeatures, false);
    }
    TokensWith(WithEntry(hs, e0), e1, false);
  }

  lemma {:induction false} OpenWatches(s: State, env: Env)
    requires Watches(s.timed) == 0
    ensures Watches(OnAuthOpen(s, env).timed) == 1
  {
    var now := env(s.tick).now;
    var ts := Restamped(s.timed, now);
    WatchesSame(s.timed, ts);
    WatchesNone(ts);
    WatchesNext(ts, Timer(MissingFeatures, FEATURES_TIMEOUT, env(s.tick + 1).now, false));
    hide Watches, WithEntry, IsTimed, Restamped;
  }

  lemma {:induction false} AuthOpenParts(s: State, env: Env, e0: Entry, e1: Entry)
    requires e0 == Entry(HandleError, None, Some("stream:error"), None, false)
    requires e1 == Entry(HandleFeatures, None, Some("stream:features"), None, false)
    ensures var r := OnAuthOpen(s, env);
      && r.handlers == WithEntry(WithEntry(s.handlers, e0), e1) && r.openHandler == s.openHandler
      && r.resetParser == s.resetParser && r.inStream == s.inStream && r.streamDone == s.streamDone
      && r.tlsSupport == s.tlsSupport && r.sasl == s.sasl && r.secured == s.secured && r.history == s.history
  {
    hide WithEntry, WithTimer, IsTimed, Restamped;
  }

  lemma {:induction false} CoreWhen(s: State, r: State)
    requires r.openHandler == s.openHandler && r.resetParser == s.resetParser && r.inStream == s.inStream
    requires r.streamDone == s.streamDone && r.tlsSupport == s.tlsSupport && r.sasl == s.sasl
    requires r.secured == s.secured && r.history == s.history
    ensures CoreOf(r) == CoreOf(s).(tokens := Tokens(r.handlers, Late(s.history)), waiting := Watches(r.timed))
  {
    hide Steps, Tokens, Late, Watches;
  }

  lemma {:induction false} ExpectedFeatures(c: Core)
    requires Ok(c.(inStream := false, streamDone := false)) && c.inStream && !c.resetParser && c.open == AuthOpen
    ensures c.tokens == [] && c.waiting == 0 && !Late(c.steps) && Ok(c.(tokens := [HandleFeatures], waiting := 1))
  {
    hide Orderly, HasCredential, Asked, AllUnsecured, Trying;
    assert Awaited(c.(inStream := false, streamDone := false));
  }

  /** A stream was opened that a token was waiting for. */
  lemma {:induction false} OpenStreamFine(s: State, env: Env)
    requires s.inStream && !s.resetParser && !s.stopped && !Spoiled(s)
    requires s.openHandler == AuthOpen && Ok(CoreOf(s).(inStream := false, streamDone := false))
    ensures FineToRead(OpenStream(s, env))
  {
    assert !Relevant(Opened);
    var s0 := Observe(s, Opened);
    assert CoreOf(s0) == CoreOf(s) by { ObserveAside(s, Opened); }
    ExpectedFeatures(CoreOf(s0));
    LateIs(s0);
    AuthOpenCore(s0, env);
    OpenKeepsStream(s0, env);
    hide *;
    OpensAuth(s, env);
    OkIsFine(OnAuthOpen(s0, env));
  }

  lemma {:induction false} OpensAuth(s: State, env: Env)
    requires s.openHandler == AuthOpen && !s.stopped
    ensures OpenStream(s, env) == OnAuthOpen(Observe(s, Opened), env)
    ensures Observe(s, Opened).inStream == s.inStream && Observe(s, Opened).stopped == s.stopped
  {
    hide OnAuthOpen;
  }

  lemma {:induction false} OkIsFine(s: State)
    requires Ok(CoreOf(s)) && !s.stopped && s.inStream
    ensures FineToRead(s)
  {
    hide Ok, Tokens, Steps;
  }

  lemma {:induction false} OpenKeepsStream(s: State, env: Env)
    ensures OnAuthOpen(s, env).inStream == s.inStream && OnAuthOpen(s, env).stopped == s.stopped
  {
    hide WithEntry, WithTimer, IsTimed;
  }

  lemma {:induction false} SaslOpenFine(s: State, env: Env)
    requires Fine(s) && s.openHandler == SaslOpen && !s.stopped && s.inStream
    ensures FineToRead(OpenStream(s, env))
  {
    var s0 := Observe(s, Opened);
    hide *;
    OpensSasl(s, env);
    OpenedAside(s);
    SaslOpenAside(s0, env);
    OpenExtends(s0, env);
    KeepsGrows(s0, OnSaslOpen(s0, env));
    AsideJoins(s, s0, OnSaslOpen(s0, env));
    AsideFine(s, OnSaslOpen(s0, env));
    FineInStream(OnSaslOpen(s0, env));
  }

  lemma {:induction false} OpenedAside(s: State)
    ensures Aside(s, Observe(s, Opened))
  {
    assert !Relevant(Opened);
    hide CoreOf, Relevant;
    ObserveAside(s, Opened);
  }

  lemma {:induction false} AsideJoins(s: State, r: State, t: State)
    requires Aside(s, r) && Aside(r, t)
    ensures Aside(s, t)
  {
    hide CoreOf;
  }

  lemma {:induction false} SaslOpenAside(s: State, env: Env)
    ensures Aside(s, OnSaslOpen(s, env))
  {
    hide *;
    OpensAre(s, env);
    var s1 := AddHandler(s, HandleFeaturesSasl, None, Some("stream:features"), None);
    NoTokenIs(HandleFeaturesSasl);
    AddHandlerAside(s, HandleFeaturesSasl, None, Some("stream:features"), None);
    AddTimedAside(s1, env, MissingFeaturesSasl, FEATURES_TIMEOUT);
    AsideJoins(s, s1, OnSaslOpen(s, env));
  }

  lemma {:induction false} NoTokenIs(h: Handler)
    ensures h == HandleFeaturesSasl ==> !Token(h)
  {
  }

  lemma {:induction false} OpensSasl(s: State, env: Env)
    requires s.openHandler == SaslOpen && !s.stopped && s.inStream
    ensures var s0 := Observe(s, Opened);
      OpenStream(s, env) == OnSaslOpen(s0, env) && s.history <= s0.history && OnSaslOpen(s0, env).inStream
  {
    hide WithEntry, WithTimer, IsTimed;
  }

  lemma {:induction false} AsideIs(s: State, r: State)
    ensures Aside(s, r) <==> CoreOf(r) == CoreOf(s)
  {
    hide CoreOf;
  }

  lemma {:induction false} FineInStream(s: State)
    requires Fine(s) && s.inStream
    ensures FineToRead(s)
  {
    hide Fine;
  }

  lemma {:induction false} OpenStreamGrows(s: State, env: Env)
    ensures s.history <= OpenStream(s, env).history
  {
    hide OnAuthOpen, OnSaslOpen, AllInner, AllNew, Distinct;
    OpenExtends(Observe(s, Opened), env);
  }

  lemma {:induction false} SaslAwaitsNothing(c: Core)
    requires Ok(c) && c.open == SaslOpen
    ensures Ok(c.(inStream := true))
  {
    hide Orderly, HasCredential, Asked, AllUnsecured, BelowAll, Untried;
  }

  /** The stream is open, and its open handler is called. */
  lemma {:induction false} OpeningFine(s: State, s1: State, env: Env)
    requires FineToRead(s) && !s.inStream && !s.streamDone && !s.stopped
    requires CoreOf(s1) == CoreOf(s).(inStream := true) && s.history <= s1.history
    ensures FineToRead(OpenStream(s1, env))
  {
    if Spoiled(s1) || Spoiled(s) {
      SpoiledOpens(s, s1, env);
    } else if s1.stopped {
      assert Orderly(CoreOf(s1).steps);
      hide Ok, Orderly, Steps, Tokens;
    } else if s1.openHandler == AuthOpen {
      assert CoreOf(s1).(inStream := false, streamDone := false) == CoreOf(s);
      hide Ok, Orderly, Steps, Tokens, OpenStream;
      OpenStreamFine(s1, env);
    } else {
      assert s1.inStream && CoreOf(s).open == SaslOpen;
      hide Ok, Orderly, Steps, Tokens, OpenStream;
      SaslAwaitsNothing(CoreOf(s));
      SaslOpenFine(s1, env);
    }
  }

  lemma {:induction false} SpoiledOpens(s: State, s1: State, env: Env)
    requires (Spoiled(s) || Spoiled(s1)) && s.history <= s1.history
    ensures Spoiled(OpenStream(s1, env))
  {
    hide Spoiled, OpenStream;
    if Spoiled(s) {
      SpoiledStays(s, s1);
    }
    OpenStreamGrows(s1, env);
    SpoiledStays(s1, OpenStream(s1, env));
  }

  lemma {:induction false} InStreamCore(s: State, name: string, hasId: bool)
    ensures var r := InStream(s, name, hasId);
      CoreOf(r) == CoreOf(s).(inStream := true) && r.history == s.history
  {
    hide Tokens, Steps, Late, Watches;
  }

  lemma {:induction false} RefusedCore(s: State, env: Env)
    ensures var r := ConnDisconnect(Observe(s, BadHeader), env); CoreOf(r) == CoreOf(s) && s.history <= r.history
  {
    assert !Relevant(BadHeader);
    hide CoreOf, Relevant, Notify, AllInner, AllNew, Distinct;
    var s1 := Observe(s, BadHeader);
    ObserveAside(s, BadHeader);
    ConnDisconnectAside(s1, env);
    NotifyExtends(s1.(link := Disconnected), env, false);
  }

  lemma {:induction false} OnStreamStartFine(s: State, env: Env, name: string, hasId: bool)
    requires FineToRead(s) && !s.inStream && !s.streamDone && !s.stopped
    ensures FineToRead(OnStreamStart(s, env, name, hasId))
  {
    var s0 := InStream(s, name, hasId);
    hide *;
    StreamStarts(s, env, name, hasId);
    InStreamCore(s, name, hasId);
    RefusedCore(s0, env);
    OpeningFine(s, ConnDisconnect(Observe(s0, BadHeader), env), env);
    OpeningFine(s, s0, env);
  }

  /** The stream is closed: nothing is awaited that was not before. */
  lemma {:induction false} ClosedIsOk(c: Core)
    requires Ok(c) && c.inStream
    ensures Ok(c.(inStream := false, streamDone := true))
  {
    hide Orderly, HasCredential, Asked, AllUnsecured, BelowAll, Untried;
  }

  lemma {:induction false} ClosedCore(s: State)
    ensures CoreOf(DeleteTimed(s.(inStream := false, streamDone := true), DisconnectCleanup))
      == CoreOf(s).(inStream := false, streamDone := true)
  {
    WatchesWithout(s.timed, DisconnectCleanup);
    hide Tokens, Steps, WithoutTimer, Watches, Late;
  }

  lemma {:induction false} ClosedFine(s: State)
    requires Fine(s) && s.inStream && !s.stopped
    ensures FineToRead(DeleteTimed(s.(inStream := false, streamDone := true), DisconnectCleanup))
  {
    ClosedCore(s);
    if !Spoiled(s) {
      ClosedIsOk(CoreOf(s));
    }
    assert CoreOf(s).inStream == s.inStream;
    hide Ok, CoreOf, WithoutTimer, Orderly, Steps;
  }

  /** The invariant of AuthSafety and the one of the order. */
  ghost predicate Both(s: State) {
    AuthSafety.Kept(s) && FineToRead(s)
  }

  lemma {:induction false} OnSaxFine(s: State, env: Env, x: Sax)
    requires Both(s)
    ensures Both(OnSax(s, env, x))
  {
    hide Fine, AuthSafety.Kept, AuthSafety.Inv, OnStreamStart, FireStanza, ConnDisconnect, WithoutTimer;
    AuthSafety.OnSaxKeeps(s, env, x);
    if !s.stopped {
      AuthSafety.KeptRuns(s);
      match x
      case StreamStart(name, hasId) =>
        if !s.inStream && !s.streamDone {
          OnStreamStartFine(s, env, name, hasId);
        }
      case StanzaIn(st) =>
        if s.inStream {
          FireStanzaFine(s, env, st);
        }
      case StreamEnd =>
        if s.inStream {
          ClosedFine(s);
          ConnDisconnectFine(DeleteTimed(s.(inStream := false, streamDone := true), DisconnectCleanup), env);
        }
    }
  }

  lemma {:induction false} OnChunkFine(s: State, env: Env, chunk: seq<Sax>)
    requires Both(s)
    ensures Both(OnChunk(s, env, chunk))
    decreases chunk
  {
    hide Both, OnSax;
    if chunk != [] {
      OnSaxFine(s, env, chunk[0]);
      OnChunkFine(OnSax(s, env, chunk[0]), env, chunk[1..]);
    }
  }

  lemma {:induction false} LeftFine(s: State, env: Env)
    requires Both(s) && !s.stopped
    ensures Both(ConnDisconnect(s, env))
  {
    hide Fine, FineToRead, AuthSafety.Kept, ConnDisconnect;
    assert Fine(s) by { ReadIsFine(s); }
    AuthSafety.DisconnectedIsKept(s, env);
    ConnDisconnectFine(s, env);
  }

  lemma {:induction false} ReadIsFine(s: State)
    requires FineToRead(s)
    ensures Fine(s)
  {
  }

  lemma {:induction false} OnReadFine(s: State, env: Env, sax: seq<Sax>, wellFormed: bool)
    requires Both(s)
    ensures Both(OnRead(s, env, sax, wellFormed))
  {
    hide Both, ConnDisconnect, OnChunk;
    OnChunkFine(s, env, sax);
    if !OnChunk(s, env, sax).stopped {
      LeftFine(OnChunk(s, env, sax), env);
    }
  }

  lemma {:induction false} ConnectedFine(s: State)
    requires FineToRead(s) && !s.stopped
    ensures FineToRead(Send(s.(link := Connected), StreamHeader))
  {
    hide Fine, FineToRead, CoreOf, Send;
    var s1 := s.(link := Connected);
    AsideElse(s, s1);
    assert Fine(s) by { ReadIsFine(s); }
    ElseFine(s, s1);
    HeaderFine(s1);
  }

  lemma {:induction false} HeaderFine(s: State)
    requires FineToRead(s) && !s.stopped
    ensures FineToRead(Send(s, StreamHeader))
  {
    hide Fine, CoreOf, SentAs;
    SendAside(s, StreamHeader);
    AsideFine(s, Send(s, StreamHeader));
  }

  lemma {:induction false} OnIoFine(s: State, env: Env, io: Io)
    requires Both(s)
    ensures Both(OnIo(s, env, io))
  {
    hide FineToRead, AuthSafety.Kept, ConnDisconnect, OnRead, Send;
    AuthSafety.OnIoKeeps(s, env, io);
    if s.stopped || io == Idle {
    } else if io == ConnectDone {
      ConnectedFine(s);
    } else if io.Chunk? {
      OnReadFine(s, env, io.sax, io.wellFormed);
    } else {
      LeftFine(s, env);
    }
  }

  lemma {:induction false} FireTimedBoth(s: State, env: Env)
    requires Both(s)
    ensures Both(FireTimed(s, env))
  {
    hide FineToRead, AuthSafety.Kept, FireTimed;
    FireTimedFine(s, env);
    AuthSafety.FireTimedIsKept(s, env);
  }

  /** The reset of the parser: what was awaited still is. */
  lemma {:induction false} ResetCore(c: Core)
    requires Ok(c) && c.resetParser
    ensures Ok(c.(resetParser := false, inStream := false, streamDone := false))
  {
    hide Orderly, HasCredential, Asked, AllUnsecured, BelowAll, Untried;
  }

  lemma {:induction false} AfterResetFine(s: State)
    requires Fine(s)
    ensures FineToRead(AfterReset(s))
  {
    if !Spoiled(s) && !s.stopped && s.resetParser {
      ResetCore(CoreOf(s));
      assert CoreOf(AfterReset(s)) == CoreOf(s).(resetParser := false, inStream := false, streamDone := false) by {
        hide Tokens, Steps;
      }
      hide Ok, CoreOf;
    } else {
      hide Ok, Orderly, Steps, Tokens;
    }
  }

  lemma {:induction false} AfterWriteFine(s: State, env: Env, writeFails: bool)
    requires Fine(s) && !s.stopped
    ensures Fine(AfterWrite(s, env, writeFails))
  {
    hide Fine, ConnDisconnect;
    ConnDisconnectFine(s, env);
  }

  lemma {:induction false} RunOnceFine(s: State, env: Env, writeFails: bool, io: Io)
    requires AuthSafety.Kept(s) && Fine(s) && !s.stopped
    ensures Fine(RunOnce(s, env, writeFails, io))
  {
    hide Both, AuthSafety.Kept, Fine, FineToRead, AfterWrite, AfterReset, FireTimed, OnIo;
    AfterWriteFine(s, env, writeFails);
    AuthSafety.AfterWriteKeeps(s, env, writeFails);
    AfterResetFine(AfterWrite(s, env, writeFails));
    AuthSafety.AfterResetKeeps(AfterWrite(s, env, writeFails));
    var s2 := AfterReset(AfterWrite(s, env, writeFails));
    assert Both(s2) by { BothAre(s2); }
    FireTimedBoth(s2, env);
    OnIoFine(FireTimed(s2, env), env, io);
    FireTimedBoth(OnIo(FireTimed(s2, env), env, io), env);
    BothAre(RunOnce(s, env, writeFails, io));
  }

  lemma {:induction false} BothAre(s: State)
    ensures AuthSafety.Kept(s) && FineToRead(s) <==> Both(s)
    ensures Both(s) ==> Fine(s)
  {
  }

  lemma {:induction false} DropFine(s: State, h: Handler, id: string)
    requires Fine(s) && h.User?
    ensures Fine(DropUser(s, h, id))
  {
    UserEntriesAreNoTokens(s.handlers, h, Late(s.history));
    WatchesWithout(s.timed, h);
    hide Tokens, Steps, Ok, Orderly, WithoutEntry, WithoutId, WithoutTimer, Late, Watches, Belated, Timely;
    assert CoreOf(DropUser(s, h, id)) == CoreOf(s);
  }

  lemma {:induction false} ActFine(s: State, env: Env, a: Action)
    requires Fine(s) && !s.stopped
    ensures Fine(Act(s, env, a))
  {
    hide Fine, CoreOf, Act, AllInner, AllNew, Distinct;
    ActAside(s, env, a);
    ActExtends(s, env, a);
    AsideFine(s, Act(s, env, a));
  }

  lemma {:induction false} StepFine(s: State, env: Env, e: Event)
    requires AuthSafety.Kept(s) && Fine(s)
    ensures Fine(Step(s, env, e))
  {
    hide Fine, AuthSafety.Kept, RunOnce, Act, DropUser;
    if !s.stopped {
      match e
      case Pass(writeFails, io) => RunOnceFine(s, env, writeFails, io);
      case Call(action) => ActFine(s, env, action);
      case Drop(h, id) =>
        if h.User? {
          DropFine(s, h, id);
        }
    }
  }

  lemma {:induction false} RunFine(s: State, env: Env, events: seq<Event>)
    requires AuthSafety.Kept(s) && Fine(s)
    ensures Fine(Run(s, env, events))
    decreases events
  {
    hide Fine, AuthSafety.Kept, Step;
    if events != [] {
      StepFine(s, env, events[0]);
      AuthSafety.StepKeeps(s, env, events[0]);
      RunFine(Step(s, env, events[0]), env, events[1..]);
    }
  }

  // -------------------------------------------------------------------- theorems

  lemma {:induction false} FineIsOrderly(s: State)
    requires Fine(s)
    ensures Spoiled(s) || Orderly(Steps(s.history))
    ensures !s.stopped && !Belated(s.history) ==> |Tokens(s.handlers, Late(s.history))| <= 1
  {
    hide Orderly, Steps, Tokens, Trying, Late, Watches, Belated, Timely;
  }

  /** On every run each step of the negotiation is one that may follow what came before, up
      to features that are read after the wait for them was given up; until then at most one
      handler is registered, between two events, that can make the next step. */
  lemma {:induction false} NegotiationIsOrdered(account: Account, env: Env, events: seq<Event>)
    ensures var s := Run(Init(account), env, events);
      && (forall i :: 0 <= i < |s.history| && !Belated(s.history[..i]) && Relevant(s.history[i]) ==>
            MayStep(s.history[..i], s.history[i]))
      && (!Belated(s.history) && !s.stopped ==> |Tokens(s.handlers, Late(s.history))| <= 1)
  {
    var s0 := Init(account);
    assert AuthSafety.Kept(s0);
    assert Fine(s0);
    RunFine(s0, env, events);
    var s := Run(s0, env, events);
    hide Run, MayStep, Fine, Steps, Tokens, Orderly, Relevant, Belated, Late;
    FineIsOrderly(s);
    if !Spoiled(s) {
      OrderlyIsTimely(s.history);
    }
  }
}
