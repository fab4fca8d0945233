/** What the order of the negotiation says in other words, and how it is lost: the features
    timeout starts the negotiation and leaves the handler of the features registered
    (src/auth.c:187-196), so features can still be read after it. */
module LateFeatures {
  import opened Common
  import opened Stanzas
  import opened Negotiation
  import opened NegotiationOrder
  import opened Heeding
  import opened Meanings
  import BadHeaders
  import Dispatch

  // --------------------------------------------------------------- consequences

  lemma {:induction false} BelowEach(m: Measure, h: seq<Obs>, j: nat, i: nat)
    requires i < j <= |h| && h[i].AuthCalled?
    ensures BelowAll(m, h[..j]) ==> Less(m, h[i].measure)
  {
    assert h[..j][i] == h[i];
  }

  lemma {:induction false} Allowed(account: Account, env: Env, events: seq<Event>, i: nat)
    requires var h := Run(Init(account), env, events).history;
      i < |h| && Relevant(h[i]) && !Belated(h[..i])
    ensures var h := Run(Init(account), env, events).history; MayStep(h[..i], h[i])
  {
    hide Run, Init, Relevant, MayStep, Belated;
    NegotiationIsOrdered(account, env, events);
  }

  /** Each call of `_auth` has lexicographically less to try than each before. */
  lemma {:induction false} MeasuresDecrease(account: Account, env: Env, events: seq<Event>, i: nat, j: nat)
    requires var h := Run(Init(account), env, events).history;
      i < j < |h| && h[i].AuthCalled? && h[j].AuthCalled? && !Belated(h[..j])
    ensures var h := Run(Init(account), env, events).history; Less(h[j].measure, h[i].measure)
  {
    hide Run, Init, Less, BelowAll, Belated;
    var h := Run(Init(account), env, events).history;
    Allowed(account, env, events, j);
    BelowEach(h[j].measure, h, j, i);
  }

  lemma {:induction false} AskedBefore(h: seq<Obs>, m: Message, i: nat, j: nat)
    requires i < j <= |h| && Asks(h[i], m)
    ensures Asked(h[..j], m)
  {
    assert h[..j][i] == h[i];
  }

  lemma {:induction false} CredentialBefore(h: seq<Obs>, i: nat, j: nat)
    requires i < j <= |h| && Credential(h[i])
    ensures HasCredential(h[..j])
  {
    assert h[..j][i] == h[i];
  }

  /** starttls, each mechanism and the legacy request are asked for at most once. */
  lemma {:induction false} AskedOnce(account: Account, env: Env, events: seq<Event>, m: Message, i: nat, j: nat)
    requires var h := Run(Init(account), env, events).history;
      i < j < |h| && Asks(h[i], m) && Asks(h[j], m) && !Belated(h[..j])
    ensures m != StartTls && !m.Auth? && m != LegacyIq
  {
    var h := Run(Init(account), env, events).history;
    assert (m == StartTls || m.Auth? || m == LegacyIq) ==> Relevant(h[j]);
    hide Run, Init, Asked, Belated;
    AskedBefore(h, m, i, j);
    if m == StartTls || m.Auth? || m == LegacyIq {
      Allowed(account, env, events, j);
    }
  }

  lemma {:induction false} BelatedLater(h: seq<Obs>, i: nat, j: nat)
    requires i <= j <= |h| && !Belated(h[..j])
    ensures !Belated(h[..i])
  {
    hide Belated;
    if Belated(h[..i]) {
      BelatedGrows(h[..i], h[..j]);
    }
  }

  /** Where a starttls is sent, no credential is sent before TLS has started. */
  lemma {:induction false} StartTlsComesFirst(account: Account, env: Env, events: seq<Event>, i: nat, k: nat)
    requires var h := Run(Init(account), env, events).history;
      i < |h| && k < |h| && Credential(h[i]) && Asks(h[k], StartTls) && !Belated(h[..i]) && !Belated(h[..k])
    ensures TlsStarted in Run(Init(account), env, events).history[..i]
  {
    var h := Run(Init(account), env, events).history;
    assert Relevant(h[i]) && Relevant(h[k]) && i != k;
    hide Run, Init, Asked, HasCredential, Relevant, Belated;
    if k < i {
      AskedBefore(h, StartTls, k, i);
      Allowed(account, env, events, i);
    } else {
      CredentialBefore(h, i, k);
      Allowed(account, env, events, k);
    }
  }

  /** Where features offer TLS while it is neither up nor barred, and the run goes on, it is
      asked at once whether TLS can be had; if it can, no credential is sent before TLS has
      started. */
  lemma {:induction false} NoCredentialInTheClear(account: Account, env: Env, events: seq<Event>, i: nat, k: nat)
    requires var h := Run(Init(account), env, events).history;
      && i + 1 < |h| && OffersTls(h[i]) && TlsStarted !in h[..i] && TlsBarred !in h[..i]
      && k < |h| && Credential(h[k]) && !Belated(h[..k]) && !Belated(h[..i + 1])
    ensures var h := Run(Init(account), env, events).history;
      i + 3 < |h| && h[i + 2].TlsProbed? && (env(h[i + 2].at).tlsAvailable ==> TlsStarted in h[..k])
  {
    var h := Run(Init(account), env, events).history;
    hide *;
    TlsOffersAreHeeded(account, env, events, i);
    ThinksIs(h[i + 1]);
    TlsIsTriedFirst(account, env, events, i + 1);
    if env(h[i + 2].at).tlsAvailable {
      NotFeatures(h[i + 1]);
      NotFeatures(h[i + 2]);
      BelatedSame(h, i + 1, i + 3);
      StartTlsComesFirst(account, env, events, k, i + 3);
    }
  }

  lemma {:induction false} NotFeatures(o: Obs)
    ensures o.AuthCalled? || o.TlsProbed? ==> !ReadsFeatures(o)
  {
  }

  lemma {:induction false} BelatedSame(h: seq<Obs>, a: nat, b: nat)
    requires a <= b <= |h| && !Belated(h[..a]) && forall k :: a <= k < b ==> !ReadsFeatures(h[k])
    ensures !Belated(h[..b])
  {
    assert forall k :: 0 <= k < a ==> h[..a][k] == h[..b][k];
  }

  lemma {:induction false} ThinksIs(o: Obs)
    ensures ThinksOfTls(o) <==> o.AuthCalled? && o.measure.tlsSupport
  {
  }

  // ------------------------------------------------------------ features too late

  /** From one call of `_auth` to before the next: nothing is tried but directly after it. */
  lemma {:induction false} TriedOnlyThen(h: seq<Obs>, env: Env, i: nat, k: nat)
    requires Heeded(h, env) && i < k < |h| && h[i].AuthCalled?
    requires forall l :: i < l < k ==> !h[l].AuthCalled?
    ensures TriedBy(h[k]) != {} || Asks(h[k], LegacyIq) ==> k == i + 1 && !h[i].measure.tlsSupport
  {
    hide Heeded, Pool, LegacyTried, Urgent;
    HeededAt(h, k, env);
    LastBefore(h, k - 1);
  }

  lemma {:induction false} PoolGrows(h: seq<Obs>, a: nat, b: nat)
    requires a <= b <= |h| && forall k :: a <= k < b ==> TriedBy(h[k]) == {}
    ensures Pool(h[..a]) <= Pool(h[..b])
    decreases b
  {
    hide TriedBy, OfferedBy, Pool;
    if a < b {
      PoolGrows(h, a, b - 1);
      assert h[..b] == h[..b - 1] + [h[b - 1]];
      PoolNext(h[..b - 1], h[b - 1]);
    }
  }

  lemma {:induction false} LegacySame(h: seq<Obs>, a: nat, b: nat)
    requires a <= b <= |h| && forall k :: a <= k < b ==> !Asks(h[k], LegacyIq)
    ensures LegacyTried(h[..a]) <==> LegacyTried(h[..b])
  {
    assert forall k :: 0 <= k < a ==> h[..a][k] == h[k] && h[..b][k] == h[k];
    if LegacyTried(h[..b]) {
      var k :| 0 <= k < b && (h[..b][k] == Queued(LegacyIq) || h[..b][k] == Dropped(LegacyIq));
      assert Asks(h[k], LegacyIq) && k < a;
      assert h[..a][k] == h[k];
    }
  }

  lemma {:induction false} SmallerBy(a: set<Mechanism>, b: set<Mechanism>)
    requires a <= b
    ensures |a| <= |b|
  {
    assert b == a + (b - a);
  }

  lemma {:induction false} MoreIn(a: set<Mechanism>, b: set<Mechanism>)
    requires a <= b && !(b <= a)
    ensures |a| < |b|
  {
    var m :| m in b && m !in a;
    SmallerBy(a, b - {m});
  }

  lemma {:induction false} LeavesMost(a: set<Mechanism>, b: set<Mechanism>, t: set<Mechanism>)
    requires a - t <= b && |t| <= 1
    ensures |a| - |t| <= |b|
  {
    SmallerBy(a - t, b);
    assert a == (a - t) + (a * t);
    SmallerBy(a * t, t);
  }

  lemma {:induction false} OneTried(o: Obs)
    ensures |TriedBy(o)| <= 1 && (TriedBy(o) != {} ==> !Asks(o, LegacyIq))
  {
  }

  /** Features offer TLS that is neither up nor barred, or a mechanism that is not left. */
  ghost predicate OffersMore(h: seq<Obs>, j: nat)
    requires j < |h|
  {
    Urgent(h[..j + 1]) || !(OfferedBy(h[j]) <= Pool(h[..j]))
  }

  /** Between two calls of `_auth` a mechanism or the legacy request may be tried, once. */
  ghost predicate OneTry(h: seq<Obs>, i: nat, j: nat)
    requires i < j < |h| && h[i].AuthCalled?
  {
    forall k :: i < k <= j && (TriedBy(h[k]) != {} || Asks(h[k], LegacyIq)) ==> k == i + 1 && !h[i].measure.tlsSupport
  }

  lemma {:induction false} TriesOnce(h: seq<Obs>, env: Env, i: nat, j: nat)
    requires Heeded(h, env) && i < j < |h| && h[i].AuthCalled?
    requires forall l :: i < l < j ==> !h[l].AuthCalled?
    ensures OneTry(h, i, j)
  {
    hide Heeded, TriedBy, Asks;
    forall k | i < k <= j && (TriedBy(h[k]) != {} || Asks(h[k], LegacyIq)) ensures k == i + 1 && !h[i].measure.tlsSupport {
      TriedOnlyThen(h, env, i, k);
    }
  }

  lemma {:induction false} CallIsNoTry(o: Obs)
    ensures o.AuthCalled? || o.Handled? ==> TriedBy(o) == {} && !Asks(o, LegacyIq)
  {
  }

  lemma {:induction false} PoolStep(h: seq<Obs>, i: nat)
    requires i < |h|
    ensures Pool(h[..i + 1]) == Pool(h[..i]) + OfferedBy(h[i]) - TriedBy(h[i])
  {
    hide Pool, OfferedBy, TriedBy;
    assert h[..i + 1] == h[..i] + [h[i]];
    PoolNext(h[..i], h[i]);
  }

  /** What is left of the mechanisms. */
  lemma {:induction false} PoolAfter(h: seq<Obs>, i: nat, j: nat)
    requires i < j < |h| && h[i].AuthCalled? && OneTry(h, i, j)
    ensures |Pool(h[..i])| - |TriedBy(h[i + 1])| <= |Pool(h[..j + 1])|
    ensures h[j].Handled? && !(OfferedBy(h[j]) <= Pool(h[..j])) ==> |Pool(h[..i])| - |TriedBy(h[i + 1])| < |Pool(h[..j + 1])|
    decreases j, 1
  {
    hide Pool, OfferedBy, TriedBy, Asks;
    CallIsNoTry(h[i]);
    PoolStep(h, i);
    PoolStep(h, i + 1);
    OneTried(h[i + 1]);
    LeavesMost(Pool(h[..i]), Pool(h[..i + 2]), TriedBy(h[i + 1]));
    PoolGrows(h, i + 2, j + 1);
    SmallerBy(Pool(h[..i + 2]), Pool(h[..j + 1]));
    if h[j].Handled? && !(OfferedBy(h[j]) <= Pool(h[..j])) {
      CallIsNoTry(h[j]);
      MoreAfter(h, i, j);
    }
  }

  lemma {:induction false} MoreAfter(h: seq<Obs>, i: nat, j: nat)
    requires i < j < |h| && h[i].AuthCalled? && OneTry(h, i, j) && TriedBy(h[j]) == {} && !(OfferedBy(h[j]) <= Pool(h[..j]))
    ensures |Pool(h[..i])| - |TriedBy(h[i + 1])| < |Pool(h[..j + 1])|
    decreases j, 0
  {
    hide Pool, OfferedBy, TriedBy, Asks;
    CallIsNoTry(h[i]);
    PoolStep(h, j);
    MoreIn(Pool(h[..j]), Pool(h[..j + 1]));
    if i + 1 < j {
      PoolAfter(h, i, j - 1);
    } else {
      PoolStep(h, i);
      SmallerBy(Pool(h[..i]), Pool(h[..j]));
    }
  }

  /** What is left of the legacy request. */
  lemma {:induction false} LegacyAfter(h: seq<Obs>, i: nat, j: nat)
    requires i < j < |h| && h[i].AuthCalled? && OneTry(h, i, j)
    requires TriedBy(h[i + 1]) != {} || h[i].measure.tlsSupport
    ensures LegacyTried(h[..j + 1]) <==> LegacyTried(h[..i])
  {
    hide TriedBy, Asks, LegacyTried;
    CallIsNoTry(h[i]);
    OneTried(h[i + 1]);
    LegacySame(h, i, j + 1);
  }

  lemma {:induction false} NotLess(m: Measure, was: Measure)
    requires m.unsecured == was.unsecured
    requires was.tlsSupport ==> m.tlsSupport && was.mechanisms <= m.mechanisms && m.legacyUntried == was.legacyUntried
    requires !was.tlsSupport && !m.tlsSupport ==>
      was.mechanisms < m.mechanisms || (was.mechanisms <= m.mechanisms && m.legacyUntried == was.legacyUntried)
    ensures !Less(m, was)
  {
  }

  /** Features that are read when `_auth` was called before on the same stream, and that offer
      more, leave it no less to try than it had. */
  lemma {:induction false} FeaturesRaise(account: Account, env: Env, events: seq<Event>, i: nat, j: nat)
    requires var h := Run(Init(account), env, events).history;
      && i < j && j + 1 < |h| && h[i].AuthCalled? && ReadsFeatures(h[j]) && OffersMore(h, j)
      && (forall l :: i < l < j ==> !h[l].AuthCalled?)
      && (TlsStarted in h[..j + 1] ==> TlsStarted in h[..i]) && (h[i].measure.tlsSupport ==> Urgent(h[..j + 1]))
    ensures var h := Run(Init(account), env, events).history;
      h[j + 1].AuthCalled? && !Less(h[j + 1].measure, h[i].measure)
  {
    var s := Run(Init(account), env, events);
    hide *;
    UrgesIs(s.history[j]);
    RunsAreKnown(account, env, events);
    KnownEnds(s, env);
    AuthIsCalled(account, env, events, j);
    MeasuresCount(account, env, events, i);
    MeasuresCount(account, env, events, j + 1);
    TriesOnce(s.history, env, i, j);
    MeasuresRaise(s.history, i, j);
  }

  lemma {:induction false} UrgesIs(o: Obs)
    ensures ReadsFeatures(o) || o == Fired(MissingFeatures) ==> Urges(o)
    ensures ReadsFeatures(o) ==> o.Handled?
  {
  }

  lemma {:induction false} CountedIs(p: seq<Obs>)
    ensures Counted(p) == Measure(TlsStarted !in p, Urgent(p), |Pool(p)|, !LegacyTried(p))
    ensures Urgent(p) ==> TlsStarted !in p
  {
    LegacyIn(p);
    hide OffersTls, Pool, LegacyTried;
  }

  lemma {:induction false} MeasuresRaise(h: seq<Obs>, i: nat, j: nat)
    requires i < j < |h| && h[i].AuthCalled? && ReadsFeatures(h[j]) && OffersMore(h, j) && OneTry(h, i, j)
    requires TlsStarted in h[..j + 1] ==> TlsStarted in h[..i]
    requires h[i].measure == Counted(h[..i]) && (h[i].measure.tlsSupport ==> Urgent(h[..j + 1]))
    ensures !Less(Counted(h[..j + 1]), h[i].measure)
  {
    OfferIs(h, j);
    assert h[j].Handled?;
    hide *;
    CountedIs(h[..i]);
    CountedIs(h[..j + 1]);
    StartedStays(h, i, j + 1);
    PoolAfter(h, i, j);
    if h[i].measure.tlsSupport {
      NothingTried(h, i, j);
    }
    if TriedBy(h[i + 1]) != {} || h[i].measure.tlsSupport {
      LegacyAfter(h, i, j);
    }
    OneTried(h[i + 1]);
    NotLess(Counted(h[..j + 1]), h[i].measure);
  }

  lemma {:induction false} OfferIs(h: seq<Obs>, j: nat)
    requires j < |h| && OffersMore(h, j)
    ensures Urgent(h[..j + 1]) || !(OfferedBy(h[j]) <= Pool(h[..j]))
  {
  }

  lemma {:induction false} NothingTried(h: seq<Obs>, i: nat, j: nat)
    requires i < j < |h| && h[i].AuthCalled? && OneTry(h, i, j) && h[i].measure.tlsSupport
    ensures TriedBy(h[i + 1]) == {}
  {
    hide TriedBy, Asks;
  }

  lemma {:induction false} StartedStays(h: seq<Obs>, i: nat, j: nat)
    requires i <= j <= |h|
    ensures TlsStarted in h[..i] ==> TlsStarted in h[..j]
  {
    assert h[..i] == h[..j][..i];
  }

  /** The last call of `_auth` in a stretch that begins with one. */
  lemma {:induction false} LastCall(h: seq<Obs>, a: nat, j: nat) returns (i: nat)
    requires a < j <= |h| && h[a].AuthCalled?
    ensures a <= i < j && h[i].AuthCalled? && forall l :: i < l < j ==> !h[l].AuthCalled?
    decreases j
  {
    if h[j - 1].AuthCalled? {
      i := j - 1;
    } else {
      i := LastCall(h, a, j - 1);
    }
  }

  lemma {:induction false} LateFrom(h: seq<Obs>, t: nat, l: nat)
    requires t < l <= |h| && h[t] == Fired(MissingFeatures)
    ensures Late(h[..l]) && (forall k :: t < k < l && ReadsFeatures(h[k]) ==> Belated(h[..l]))
  {
    assert h[..l][t] == h[t];
    forall k | t < k < l && ReadsFeatures(h[k]) ensures Belated(h[..l]) {
      assert h[..l][k] == h[k];
    }
  }

  /** After the timeout `_auth` thinks of TLS no more, until features are read. */
  lemma {:induction false} NoThoughtWhenLate(account: Account, env: Env, events: seq<Event>, t: nat, i: nat, j: nat)
    requires var h := Run(Init(account), env, events).history;
      t < i < j <= |h| && h[t] == Fired(MissingFeatures) && h[i].AuthCalled? && !Belated(h[..j])
    ensures !Run(Init(account), env, events).history[i].measure.tlsSupport
  {
    var h := Run(Init(account), env, events).history;
    hide Run, Init, Belated, Late, Pool, LegacyTried;
    MeasuresCount(account, env, events, i);
    LateFrom(h, t, j);
    LastBefore(h, i - 1);
  }

  lemma {:induction false} NoStartWhenLate(account: Account, env: Env, events: seq<Event>, t: nat, l: nat, j: nat)
    requires var h := Run(Init(account), env, events).history;
      t < l < j <= |h| && h[t] == Fired(MissingFeatures) && !Belated(h[..j])
    ensures Run(Init(account), env, events).history[l] != TlsStarted
  {
    var h := Run(Init(account), env, events).history;
    if h[l] == TlsStarted {
      hide Run, Init, Belated, Late, Asked;
      BelatedLater(h, l, j);
      LateFrom(h, t, l);
      Allowed(account, env, events, l);
    }
  }

  // ---------------------------------------------------- the call they lead to

  /** What is known of the history of a run. */
  ghost predicate Ordered(h: seq<Obs>, env: Env) {
    Heeded(h, env) && Timely(h)
  }

  lemma {:induction false} RunsAreOrdered(account: Account, env: Env, events: seq<Event>)
    ensures Ordered(Run(Init(account), env, events).history, env)
  {
    hide Run, Init, Known, Heeded, Belated, Relevant, MayStep;
    NegotiationIsOrdered(account, env, events);
    RunsAreKnown(account, env, events);
    KnownEnds(Run(Init(account), env, events), env);
  }

  lemma {:induction false} StepAllowed(h: seq<Obs>, env: Env, i: nat)
    requires Ordered(h, env) && i < |h| && !Belated(h[..i]) && Relevant(h[i])
    ensures MayStep(h[..i], h[i])
  {
    hide Heeded, Belated, Relevant, MayStep;
  }

  /** A mechanism is tried, or the legacy request is sent. */
  predicate Tried(o: Obs) {
    TriedBy(o) != {} || Asks(o, LegacyIq)
  }

  lemma {:induction false} TriedIs(o: Obs)
    ensures Tried(o) ==> Relevant(o) && Credential(o) && !Asks(o, StartTls) && o != TlsStarted && !o.AuthCalled? && !o.Handled?
    ensures o.AuthCalled? || Asks(o, StartTls) || o == TlsStarted || o.TlsProbed? ==> Relevant(o)
    ensures Tried(o) <==> TriedBy(o) != {} || Asks(o, LegacyIq)
  {
  }

  /** What is tried comes right after a call of `_auth`, and is left. */
  lemma {:induction false} CalledForTry(h: seq<Obs>, env: Env, k: nat)
    requires Ordered(h, env) && k < |h| && Tried(h[k])
    ensures 0 < k && h[k - 1].AuthCalled? && TriedBy(h[k]) <= Pool(h[..k])
  {
    hide Heeded, Pool, LegacyTried, Urgent, Timely;
    HeededAt(h, k, env);
  }

  lemma {:induction false} MayTry(p: seq<Obs>, o: Obs)
    requires MayStep(p, o) && Tried(o)
    ensures Asked(p, StartTls) ==> TlsStarted in p
    ensures Asks(o, LegacyIq) ==> !Asked(p, LegacyIq)
  {
    hide Asked;
  }

  lemma {:induction false} AskedAt(p: seq<Obs>, m: Message) returns (q: nat)
    requires Asked(p, m)
    ensures q < |p| && Asks(p[q], m)
  {
    q :| 0 <= q < |p| && (p[q] == Queued(m) || p[q] == Dropped(m));
  }

  lemma {:induction false} InLater(h: seq<Obs>, o: Obs, a: nat, b: nat)
    requires a <= b <= |h| && o in h[..a]
    ensures o in h[..b]
  {
    assert h[..a] == h[..b][..a];
  }

  lemma {:induction false} MayStart(p: seq<Obs>, o: Obs)
    requires MayStep(p, o)
    ensures Asks(o, StartTls) || o.TlsProbed? ==> !HasCredential(p)
    ensures o == TlsStarted ==> Asked(p, StartTls) && TlsStarted !in p
  {
    hide Asked, HasCredential;
  }

  /** After the first try there is no more starttls, and TLS does not start. */
  lemma {:induction false} NoTlsAfterTry(h: seq<Obs>, env: Env, k: nat, p: nat)
    requires Ordered(h, env) && k < p < |h| && Tried(h[k]) && !Belated(h[..p])
    ensures !Asks(h[p], StartTls) && !h[p].TlsProbed? && h[p] != TlsStarted
    decreases p
  {
    hide *;
    TriedIs(h[k]);
    TriedIs(h[p]);
    CredentialBefore(h, k, p);
    if Asks(h[p], StartTls) || h[p].TlsProbed? || h[p] == TlsStarted {
      StepAllowed(h, env, p);
      MayStart(h[..p], h[p]);
      var q := AskedAt(h[..p], StartTls);
      BelatedLater(h, k, p);
      BelatedLater(h, q, p);
      if k < q {
        NoTlsAfterTry(h, env, k, q);
      }
      AskedBefore(h, StartTls, q, k);
      StepAllowed(h, env, k);
      MayTry(h[..k], h[k]);
      InLater(h, TlsStarted, k, p);
      assert false;
    }
  }

  /** Where something was tried, TLS was up, or starttls was never sent. */
  lemma {:induction false} TlsBeforeTry(h: seq<Obs>, env: Env, k: nat, p: nat)
    requires Ordered(h, env) && k < p <= |h| && Tried(h[k]) && !Belated(h[..p])
    ensures Asked(h[..p], StartTls) ==> TlsStarted in h[..p]
  {
    hide *;
    if Asked(h[..p], StartTls) {
      var q := AskedAt(h[..p], StartTls);
      TriedIs(h[k]);
      BelatedLater(h, k, p);
      BelatedLater(h, q, p);
      if k < q {
        NoTlsAfterTry(h, env, k, q);
      }
      AskedBefore(h, StartTls, q, k);
      StepAllowed(h, env, k);
      MayTry(h[..k], h[k]);
      InLater(h, TlsStarted, k, p);
    }
  }

  lemma {:induction false} ThoughtIsProbed(h: seq<Obs>, env: Env, i: nat)
    requires Ordered(h, env) && i + 1 < |h| && ThinksOfTls(h[i])
    ensures h[i + 1].TlsProbed?
  {
    hide Heeded, Follows, Timely;
    HeededAt(h, i + 1, env);
    LastBefore(h, i);
    ThoughtFollows(h[..i + 1], h[i + 1], env);
  }

  lemma {:induction false} CallCounts(h: seq<Obs>, env: Env, i: nat)
    requires Ordered(h, env) && i < |h| && h[i].AuthCalled?
    ensures h[i].measure == Counted(h[..i]) && Relevant(h[i])
  {
    hide Heeded, Counted, Timely;
    HeededAt(h, i, env);
  }

  lemma {:induction false} CallFollowsFeatures(h: seq<Obs>, env: Env, f: nat)
    requires Ordered(h, env) && f + 1 < |h| && ReadsFeatures(h[f])
    ensures h[f + 1].AuthCalled?
  {
    hide Heeded, Follows, Timely, Urgent;
    HeededAt(h, f + 1, env);
    LastBefore(h, f);
    UrgesIs(h[f]);
    UrgentFollows(h[..f + 1], h[f + 1], env);
  }

  lemma {:induction false} OrderedIsHeeded(h: seq<Obs>, env: Env)
    requires Ordered(h, env)
    ensures Heeded(h, env)
  {
    hide Heeded, Timely;
  }

  lemma {:induction false} CallIsBelow(p: seq<Obs>, o: Obs)
    requires o.AuthCalled?
    ensures MayStep(p, o) <==> BelowAll(o.measure, p)
  {
    hide BelowAll;
  }

  /** Features in time offer nothing that was tried before. */
  lemma {:induction false} NothingTriedIsOffered(h: seq<Obs>, env: Env, k: nat, f: nat)
    requires Ordered(h, env) && k < f && f + 1 < |h| && Tried(h[k]) && ReadsFeatures(h[f]) && !Belated(h[..f + 1])
    ensures OfferedBy(h[f]) <= Pool(h[..f])
  {
    hide *;
    CalledForTry(h, env, k);
    UrgesIs(h[f]);
    var i := LastCall(h, k - 1, f);
    BelatedLater(h, f, f + 1);
    BelatedLater(h, i + 1, f + 1);
    ThinksIs(h[i]);
    if ThinksOfTls(h[i]) {
      ThoughtIsProbed(h, env, i);
      TriedIs(h[i + 1]);
      ProbeIsNoTry(h[k]);
      NoTlsAfterTry(h, env, k, i + 1);
      assert false;
    }
    forall l | i <= l < f + 1 ensures h[l] != TlsStarted {
      TriedIs(h[k]);
      if k < l {
        BelatedLater(h, l, f + 1);
        NoTlsAfterTry(h, env, k, l);
      }
    }
    NotBetween(h, i, f + 1);
    OrderedIsHeeded(h, env);
    TriesOnce(h, env, i, f);
    CallCounts(h, env, i);
    CallFollowsFeatures(h, env, f);
    CallCounts(h, env, f + 1);
    StepAllowed(h, env, f + 1);
    CallIsBelow(h[..f + 1], h[f + 1]);
    BelowEach(h[f + 1].measure, h, f + 1, i);
    if OffersMore(h, f) {
      MeasuresRaise(h, i, f);
    }
    OffersNoMore(h, f);
  }

  lemma {:induction false} ProbeIsNoTry(o: Obs)
    ensures o.TlsProbed? ==> !Tried(o)
  {
  }

  lemma {:induction false} OffersNoMore(h: seq<Obs>, j: nat)
    requires j < |h|
    ensures OffersMore(h, j) <==> Urgent(h[..j + 1]) || !(OfferedBy(h[j]) <= Pool(h[..j]))
  {
    hide Urgent, OfferedBy, Pool;
  }

  /** A mechanism that was tried is not left any more. */
  lemma {:induction false} TriedIsGone(h: seq<Obs>, env: Env, k: nat, l: nat)
    requires Ordered(h, env) && k < l < |h| && TriedBy(h[k]) != {} && !Belated(h[..l])
    ensures TriedBy(h[k]) !! Pool(h[..l])
    decreases l
  {
    hide *;
    TriedIs(h[k]);
    PoolStep(h, l - 1);
    if k < l - 1 {
      BelatedLater(h, l - 1, l);
      TriedIsGone(h, env, k, l - 1);
      if ReadsFeatures(h[l - 1]) {
        NothingTriedIsOffered(h, env, k, l - 1);
      } else {
        OffersOnlyFeatures(h[l - 1]);
      }
    } else {
      TryOffersNothing(h[k]);
    }
  }

  lemma {:induction false} OffersOnlyFeatures(o: Obs)
    ensures !ReadsFeatures(o) ==> OfferedBy(o) == {}
  {
  }

  lemma {:induction false} TryOffersNothing(o: Obs)
    ensures TriedBy(o) != {} ==> OfferedBy(o) == {}
  {
  }

  /** The first features read after the timeout, and the last call of `_auth` before them. */
  ghost predicate FirstLate(h: seq<Obs>, t: nat, i: nat, j: nat) {
    && t < j && i < j && j + 1 < |h| && h[t] == Fired(MissingFeatures) && ReadsFeatures(h[j]) && !Belated(h[..j])
    && h[i].AuthCalled? && forall l :: i < l < j ==> !h[l].AuthCalled?
  }

  lemma {:induction false} PoolStays(h: seq<Obs>, a: nat, b: nat)
    requires a <= b <= |h| && forall k :: a <= k < b ==> TriedBy(h[k]) == {} && OfferedBy(h[k]) == {}
    ensures Pool(h[..a]) == Pool(h[..b])
    decreases b
  {
    hide TriedBy, OfferedBy, Pool;
    if a < b {
      PoolStays(h, a, b - 1);
      PoolStep(h, b - 1);
    }
  }

  /** What is left when late features offer no more. */
  lemma {:induction false} PoolThen(h: seq<Obs>, env: Env, t: nat, i: nat, j: nat)
    requires Ordered(h, env) && FirstLate(h, t, i, j) && t < i && OneTry(h, i, j) && OfferedBy(h[j]) <= Pool(h[..j])
    ensures Pool(h[..j + 1]) == Pool(h[..i]) - TriedBy(h[i + 1]) && TriedBy(h[i + 1]) <= Pool(h[..i])
    ensures |Pool(h[..j + 1])| == |Pool(h[..i])| - |TriedBy(h[i + 1])|
  {
    hide *;
    FirstLateIs(h, t, i, j);
    UrgesIs(h[j]);
    CallIsNoFeatures(h[i]);
    OffersOnlyFeatures(h[i]);
    CallIsNoTry(h[i]);
    CallIsNoTry(h[j]);
    PoolStep(h, i);
    PoolStep(h, j);
    if i + 1 < j {
      NoneBetween(h, t, i, j);
      PoolStep(h, i + 1);
      PoolStays(h, i + 2, j);
    }
    if TriedBy(h[i + 1]) != {} {
      TriedIs(h[i + 1]);
      CalledForTry(h, env, i + 1);
    }
    SizeWithout(Pool(h[..i]), TriedBy(h[i + 1]));
  }

  /** Between the last call and late features nothing is offered, and nothing but the first
      observation tries anything. */
  lemma {:induction false} NoneBetween(h: seq<Obs>, t: nat, i: nat, j: nat)
    requires t < i < j < |h| && h[t] == Fired(MissingFeatures) && !Belated(h[..j]) && h[i].AuthCalled? && OneTry(h, i, j)
    ensures forall k :: i < k < j ==> OfferedBy(h[k]) == {}
    ensures forall k :: i + 1 < k < j ==> TriedBy(h[k]) == {}
  {
    LateFrom(h, t, j);
    hide Belated, TriedBy, OfferedBy, Asks;
    forall k | i < k < j ensures OfferedBy(h[k]) == {} {
      OffersOnlyFeatures(h[k]);
    }
  }

  lemma {:induction false} SizeWithout(a: set<Mechanism>, b: set<Mechanism>)
    requires b <= a
    ensures |a - b| == |a| - |b|
  {
    assert a == (a - b) + b;
  }

  lemma {:induction false} LegacyThen(h: seq<Obs>, i: nat, j: nat)
    requires i < j < |h| && h[i].AuthCalled? && h[j].Handled? && OneTry(h, i, j)
    ensures LegacyTried(h[..j + 1]) <==> LegacyTried(h[..i]) || Asks(h[i + 1], LegacyIq)
  {
    hide TriedBy, LegacyTried;
    CallIsNoTry(h[i]);
    CallIsNoTry(h[j]);
    LegacySame(h, i, i + 1);
    if Asks(h[i + 1], LegacyIq) {
      LegacyAt(h, i + 1, j + 1);
    } else {
      LegacySame(h, i + 1, j + 1);
    }
  }

  lemma {:induction false} LegacyAt(h: seq<Obs>, i: nat, j: nat)
    requires i < j <= |h| && Asks(h[i], LegacyIq)
    ensures LegacyTried(h[..j])
  {
    assert h[..j][i] == h[i];
  }

  lemma {:induction false} LegacyIsAsked(p: seq<Obs>)
    ensures LegacyTried(p) <==> Asked(p, LegacyIq)
  {
    if Asked(p, LegacyIq) {
      var q := AskedAt(p, LegacyIq);
    }
  }

  lemma {:induction false} LessIff(m: Measure, was: Measure, mechanism: bool, legacy: bool)
    requires m.unsecured == was.unsecured && !was.tlsSupport && !m.tlsSupport && !(mechanism && legacy)
    requires m.mechanisms == was.mechanisms - (if mechanism then 1 else 0)
    requires (m.legacyUntried <==> was.legacyUntried && !legacy) && (legacy ==> was.legacyUntried)
    ensures Less(m, was) <==> mechanism || legacy
  {
  }

  /** Less is left to try than before just if something was tried. */
  lemma {:induction false} LessThen(h: seq<Obs>, env: Env, t: nat, i: nat, j: nat)
    requires Ordered(h, env) && FirstLate(h, t, i, j) && t < i && OneTry(h, i, j) && !OffersMore(h, j)
    requires !h[i].measure.tlsSupport && (TlsStarted in h[..j + 1] ==> TlsStarted in h[..i])
    ensures Less(Counted(h[..j + 1]), h[i].measure) <==> Tried(h[i + 1])
  {
    hide *;
    FirstLateIs(h, t, i, j);
    OffersNoMore(h, j);
    UrgesIs(h[j]);
    TriedIs(h[i + 1]);
    CallCounts(h, env, i);
    CountedIs(h[..i]);
    CountedIs(h[..j + 1]);
    StartedStays(h, i, j + 1);
    PoolThen(h, env, t, i, j);
    LegacyThen(h, i, j);
    OneTried(h[i + 1]);
    if Asks(h[i + 1], LegacyIq) {
      BelatedLater(h, i + 1, j);
      StepAllowed(h, env, i + 1);
      MayTry(h[..i + 1], h[i + 1]);
      LegacyIsAsked(h[..i + 1]);
      CallIsNoTry(h[i]);
      LegacySame(h, i, i + 1);
    }
    SizeOfTry(h[i + 1]);
    LessIff(Counted(h[..j + 1]), h[i].measure, TriedBy(h[i + 1]) != {}, Asks(h[i + 1], LegacyIq));
  }

  lemma {:induction false} SizeOfTry(o: Obs)
    ensures |TriedBy(o)| == if TriedBy(o) != {} then 1 else 0
  {
  }

  lemma {:induction false} FirstLateIs(h: seq<Obs>, t: nat, i: nat, j: nat)
    requires FirstLate(h, t, i, j)
    ensures t < j && i < j && j + 1 < |h| && h[t] == Fired(MissingFeatures) && ReadsFeatures(h[j]) && !Belated(h[..j])
    ensures h[i].AuthCalled? && forall l :: i < l < j ==> !h[l].AuthCalled?
  {
    hide Belated;
  }

  /** To have less to try than all before is to have less than the last. */
  lemma {:induction false} BelowLast(h: seq<Obs>, env: Env, i: nat, j: nat, m: Measure)
    requires Ordered(h, env) && i < j <= |h| && h[i].AuthCalled? && !Belated(h[..j]) && forall l :: i < l < j ==> !h[l].AuthCalled?
    ensures BelowAll(m, h[..j]) <==> Less(m, h[i].measure)
  {
    hide Ordered, Belated, Less;
    BelowEach(m, h, j, i);
    if Less(m, h[i].measure) {
      forall k | 0 <= k < j && h[k].AuthCalled? ensures Less(m, h[k].measure) {
        if k < i {
          BelatedLater(h, i, j);
          TriedIs(h[i]);
          StepAllowed(h, env, i);
          BelowEach(h[i].measure, h, i, k);
          LessJoins(m, h[i].measure, h[k].measure);
        }
      }
    }
  }

  lemma {:induction false} BelowOneMore(m: Measure, h: seq<Obs>, j: nat)
    requires j < |h| && !h[j].AuthCalled?
    ensures BelowAll(m, h[..j + 1]) <==> BelowAll(m, h[..j])
  {
    hide Less;
    var p, q := h[..j], h[..j + 1];
    assert forall k :: 0 <= k < j ==> p[k] == q[k];
    assert q[j] == h[j];
  }

  /** The timeout is followed by a call, so the last one before late features comes after it. */
  lemma {:induction false} CalledWhenLate(account: Account, env: Env, events: seq<Event>, t: nat, i: nat, j: nat)
    requires FirstLate(Run(Init(account), env, events).history, t, i, j)
    ensures var h := Run(Init(account), env, events).history;
      t < i && !h[i].measure.tlsSupport && (TlsStarted in h[..j + 1] ==> TlsStarted in h[..i])
  {
    var h := Run(Init(account), env, events).history;
    FirstLateIs(h, t, i, j);
    assert Urges(h[t]) && h[t + 1].AuthCalled? && !h[j].AuthCalled? && h[j] != TlsStarted by {
      hide Run, Init, Urgent, FirstLate, Belated;
      AuthIsCalled(account, env, events, t);
    }
    hide Run, Init, Belated, Urgent, FirstLate;
    assert i >= t + 1;
    NoThoughtWhenLate(account, env, events, t, i, j);
    forall l | i <= l < j ensures h[l] != TlsStarted {
      NoStartWhenLate(account, env, events, t, l, j);
    }
    NotBetween(h, i, j + 1);
  }

  /** The call of `_auth` after the first late features may follow what came before if and
      only if they offer no more, and something was tried right after the call before. */
  lemma {:induction false} LateCallIff(account: Account, env: Env, events: seq<Event>, t: nat, i: nat, j: nat)
    requires FirstLate(Run(Init(account), env, events).history, t, i, j)
    ensures var h := Run(Init(account), env, events).history;
      h[j + 1].AuthCalled? && (MayStep(h[..j + 1], h[j + 1]) <==> !OffersMore(h, j) && Tried(h[i + 1]))
  {
    var h := Run(Init(account), env, events).history;
    hide *;
    FirstLateIs(h, t, i, j);
    UrgesIs(h[j]);
    RunsAreOrdered(account, env, events);
    CalledWhenLate(account, env, events, t, i, j);
    OrderedIsHeeded(h, env);
    TriesOnce(h, env, i, j);
    CallFollowsFeatures(h, env, j);
    CallCounts(h, env, i);
    CallCounts(h, env, j + 1);
    CallIsBelow(h[..j + 1], h[j + 1]);
    BelowOneMore(h[j + 1].measure, h, j);
    BelowLast(h, env, i, j, h[j + 1].measure);
    if OffersMore(h, j) {
      MeasuresRaise(h, i, j);
    } else {
      LessThen(h, env, t, i, j);
    }
  }

  lemma {:induction false} MayTryIff(p: seq<Obs>, o: Obs)
    requires Tried(o) && (Asked(p, StartTls) ==> TlsStarted in p)
    requires forall m :: m in TriedBy(o) ==> !Asked(p, Message.Auth(m))
    ensures MayStep(p, o) <==> !(Asks(o, LegacyIq) && Asked(p, LegacyIq))
  {
    hide Asked;
  }

  lemma {:induction false} AuthTries(o: Obs, m: Mechanism)
    ensures Asks(o, Message.Auth(m)) ==> TriedBy(o) == {m}
  {
  }

  /** The mechanisms left at the call were never asked for. */
  lemma {:induction false} LeftIsNew(h: seq<Obs>, env: Env, t: nat, i: nat, j: nat, m: Mechanism)
    requires Ordered(h, env) && FirstLate(h, t, i, j) && j + 2 <= |h| && !OffersMore(h, j) && m in Pool(h[..j + 2])
    ensures !Asked(h[..j + 2], Message.Auth(m))
  {
    hide *;
    FirstLateIs(h, t, i, j);
    OffersNoMore(h, j);
    UrgesIs(h[j]);
    CallFollowsFeatures(h, env, j);
    CallIsNoTry(h[j]);
    CallIsNoTry(h[j + 1]);
    OffersOnlyFeatures(h[j + 1]);
    CallIsNoFeatures(h[j + 1]);
    PoolStep(h, j);
    PoolStep(h, j + 1);
    if Asked(h[..j + 2], Message.Auth(m)) {
      var q := AskedAt(h[..j + 2], Message.Auth(m));
      AuthTries(h[q], m);
      TriedIsGone(h, env, q, j);
    }
  }

  lemma {:induction false} CallIsNoFeatures(o: Obs)
    ensures o.AuthCalled? ==> !ReadsFeatures(o)
  {
  }

  /** When that call may follow, what is tried next may follow if and only if it is not the
      legacy request for the second time. */
  lemma {:induction false} LateRequestIff(account: Account, env: Env, events: seq<Event>, t: nat, i: nat, j: nat)
    requires var h := Run(Init(account), env, events).history;
      FirstLate(h, t, i, j) && MayStep(h[..j + 1], h[j + 1]) && j + 2 < |h| && Tried(h[j + 2])
    ensures var h := Run(Init(account), env, events).history;
      MayStep(h[..j + 2], h[j + 2]) <==> !(Asks(h[j + 2], LegacyIq) && LegacyTried(h[..j + 2]))
  {
    var h := Run(Init(account), env, events).history;
    hide *;
    FirstLateIs(h, t, i, j);
    RunsAreOrdered(account, env, events);
    LateCallIff(account, env, events, t, i, j);
    TlsWasUp(h, env, t, i, j);
    CalledForTry(h, env, j + 2);
    forall m | m in TriedBy(h[j + 2]) ensures !Asked(h[..j + 2], Message.Auth(m)) {
      LeftIsNew(h, env, t, i, j, m);
    }
    MayTryIff(h[..j + 2], h[j + 2]);
    LegacyIsAsked(h[..j + 2]);
  }

  lemma {:induction false} TlsWasUp(h: seq<Obs>, env: Env, t: nat, i: nat, j: nat)
    requires Ordered(h, env) && FirstLate(h, t, i, j) && Tried(h[i + 1])
    ensures Asked(h[..j + 2], StartTls) ==> TlsStarted in h[..j + 2]
  {
    hide *;
    FirstLateIs(h, t, i, j);
    UrgesIs(h[j]);
    TriedIs(h[i + 1]);
    CallFollowsFeatures(h, env, j);
    TlsBeforeTry(h, env, i + 1, j);
    if Asked(h[..j + 2], StartTls) {
      var q := AskedAt(h[..j + 2], StartTls);
      AsksIs(h[q], StartTls);
      AskedBefore(h, StartTls, q, j);
      InLater(h, TlsStarted, j, j + 2);
    }
  }

  lemma {:induction false} AsksIs(o: Obs, m: Message)
    ensures Asks(o, m) ==> !o.Handled? && !o.AuthCalled?
  {
  }

  lemma {:induction false} NotBetween(h: seq<Obs>, i: nat, j: nat)
    requires i <= j <= |h| && forall l :: i <= l < j ==> h[l] != TlsStarted
    ensures TlsStarted in h[..j] ==> TlsStarted in h[..i]
  {
    if TlsStarted in h[..j] {
      var l :| 0 <= l < j && h[..j][l] == TlsStarted;
      assert l < i && h[..i][l] == TlsStarted;
    }
  }

  /** A mechanism that was tried is not left until it is offered again. */
  lemma {:induction false} GoneUntilOffered(h: seq<Obs>, m: Mechanism, q: nat, k: nat)
    requires q < k <= |h| && m in TriedBy(h[q]) && forall f :: q < f < k ==> m !in OfferedBy(h[f])
    ensures m !in Pool(h[..k])
    decreases k
  {
    hide TriedBy, OfferedBy, Pool;
    PoolStep(h, k - 1);
    if q < k - 1 {
      GoneUntilOffered(h, m, q, k - 1);
    }
  }

  /** On every run, in time or late: a mechanism is tried again only when features offered it
      again in between. */
  lemma {:induction false} OfferedAgain(account: Account, env: Env, events: seq<Event>, m: Mechanism, q: nat, k: nat)
    requires var h := Run(Init(account), env, events).history;
      q < k < |h| && Asks(h[q], Message.Auth(m)) && Asks(h[k], Message.Auth(m))
    ensures var h := Run(Init(account), env, events).history; exists f :: q < f < k && m in OfferedBy(h[f])
  {
    var h := Run(Init(account), env, events).history;
    hide Run, Init, Ordered, Pool, OfferedBy;
    RunsAreOrdered(account, env, events);
    AuthTries(h[q], m);
    AuthTries(h[k], m);
    CalledForTry(h, env, k);
    if forall f :: q < f < k ==> m !in OfferedBy(h[f]) {
      GoneUntilOffered(h, m, q, k);
    }
  }

  // ------------------------------------------------------------- a late answer

  /** The features arrive when the client has given them up. */
  const Clock: Env := n => Reply(true, true, NoResponse, if n < 2 then 0 else FEATURES_TIMEOUT, [], false)

  const ErrorEntry := Entry(HandleError, None, Some("stream:error"), None, false)
  const FeaturesEntry := Entry(HandleFeatures, None, Some("stream:features"), None, false)

  predicate TlsOffer(child: Stanza) {
    IsTag(child, "starttls") && Bears(child, "xmlns", "urn:ietf:params:xml:ns:xmpp-tls")
  }

  function TlsFeatures(child: Stanza): Stanza {
    Stanza(TagKind, Some("stream:features"), None, [child])
  }

  /** What is left to try when nothing is known, and when TLS was offered but the legacy
      request was sent. */
  const Blank := Measure(true, false, 0, true)
  const Again := Measure(true, true, 0, false)

  predicate Fresh(s: State) {
    BadHeaders.Complete(s.account) && !s.stopped && !s.tlsSupport && s.sasl == {} && !s.secured && !s.tlsDisabled
  }

  lemma {:induction false} StreamOpened(s: State)
    requires Fresh(s) && s.handlers == [] && s.timed == [] && s.tick == 0 && s.openHandler == AuthOpen
    requires !s.inStream && !s.streamDone && s.link == Connected
    ensures var r := OnSax(s, Clock, StreamStart("stream:stream", true));
      && Fresh(r) && r.handlers == [ErrorEntry, FeaturesEntry] && r.timed == [Timer(MissingFeatures, FEATURES_TIMEOUT, 0, false)]
      && r.tick == 2 && r.inStream && r.link == Connected && r.ids == s.ids && r.resetParser == s.resetParser
      && r.history == s.history + [Opened]
  {
    BadHeaders.Appended([], ErrorEntry);
    BadHeaders.Appended([ErrorEntry], FeaturesEntry);
    hide WithEntry, Listed, BadHeaders.Complete;
    assert [] + [ErrorEntry] == [ErrorEntry] && [ErrorEntry] + [FeaturesEntry] == [ErrorEntry, FeaturesEntry];
    assert Restamped(s.timed, 0) == [];
  }

  /** The timeout fires: legacy authentication is tried. */
  lemma {:induction false} TimedOut(s: State)
    requires Fresh(s) && s.tick == 2 && s.link == Connected && s.ids == map[]
    requires s.timed == [Timer(MissingFeatures, FEATURES_TIMEOUT, 0, false)]
    requires !LegacyTried(s.history + [Fired(MissingFeatures)])
    ensures var r := FireTimed(s, Clock);
      && Fresh(r) && r.handlers == s.handlers && r.timed == [Timer(MissingLegacy, LEGACY_TIMEOUT, FEATURES_TIMEOUT, false)]
      && r.tick == 5 && r.inStream == s.inStream && r.link == Connected && r.resetParser == s.resetParser
      && r.history == s.history + [Fired(MissingFeatures)] + [AuthCalled(Blank)] + [Queued(LegacyIq)]
  {
    var t := Timer(MissingFeatures, FEATURES_TIMEOUT, 0, true);
    var s1 := s.(timed := [t]);
    assert EnabledTimers(s.timed) == [t];
    assert Elapsed(0, FEATURES_TIMEOUT) == FEATURES_TIMEOUT;
    var t1 := t.(lastStamp := FEATURES_TIMEOUT);
    var stamped := s1.(timed := [t1], tick := 4);
    LegacyTimedOut(stamped);
    hide BadHeaders.Complete, OnTimer, WithoutTimer, LegacyTried;
    assert [t][0 := t1] == [t1];
    var s2 := OnTimer(stamped, Clock, MissingFeatures);
    var s3 := DeleteTimed(s2, MissingFeatures);
    Deleted(t1, Timer(MissingLegacy, LEGACY_TIMEOUT, FEATURES_TIMEOUT, false));
    assert FireTimers(s1, Clock, 0, 1) == FireTimers(s3, Clock, 0, 0);
  }

  lemma {:induction false} Deleted(t: Timer, u: Timer)
    ensures WithoutTimer([t, u], t.handler) == [u]
  {
  }

  lemma {:induction false} LegacyTimedOut(s: State)
    requires Fresh(s) && s.tick == 4 && s.link == Connected && s.ids == map[]
    requires s.timed == [Timer(MissingFeatures, FEATURES_TIMEOUT, FEATURES_TIMEOUT, true)]
    requires !LegacyTried(s.history + [Fired(MissingFeatures)])
    ensures var r := OnTimer(s, Clock, MissingFeatures);
      && Fresh(r) && r.handlers == s.handlers
      && r.timed == [s.timed[0], Timer(MissingLegacy, LEGACY_TIMEOUT, FEATURES_TIMEOUT, false)]
      && r.tick == 5 && r.inStream == s.inStream && r.link == Connected && r.resetParser == s.resetParser
      && r.history == s.history + [Fired(MissingFeatures)] + [AuthCalled(Blank)] + [Queued(LegacyIq)]
  {
    var s0 := Observe(s, Fired(MissingFeatures));
    assert Left(s0) == Blank;
    hide LegacyTried, WithId;
    assert !IsTimed(s.timed, MissingLegacy);
  }

  /** The features arrive after all, with an offer of TLS. */
  lemma {:induction false} FeaturesSeen(s: State, child: Stanza)
    requires Fresh(s) && TlsOffer(child)
    ensures TlsSeen(s, TlsFeatures(child)) == Some(true) && SaslSeen(s, TlsFeatures(child)) == Some({})
  {
    var st := TlsFeatures(child);
    assert st.children == [child] && st.children[1..] == [];
    QueriesAre(child, "urn:ietf:params:xml:ns:xmpp-tls");
    hide Attribute, Bears;
    assert FirstNamed(st.children, "starttls") == Some(child);
    assert FirstNamed(st.children, "mechanisms") == FirstNamed([], "mechanisms");
  }

  lemma {:induction false} FeaturesHandled(s: State, child: Stanza)
    requires Fresh(s) && TlsOffer(child) && s.tick == 6 && s.link == Connected
    requires LegacyTried(s.history + [Handled(HandleFeatures, TlsFeatures(child))])
    ensures var r := OnStanza(s, Clock, HandleFeatures, TlsFeatures(child));
      && !r.stopped && s.handlers <= r.handlers && r.link == s.link && r.tick == 7
      && r.timed == WithoutTimer(s.timed, MissingFeatures)
      && r.history == s.history + [Handled(HandleFeatures, TlsFeatures(child))] + [AuthCalled(Again)] + [TlsProbed(6)] + [Queued(StartTls)]
  {
    var st := TlsFeatures(child);
    var s0 := Observe(s, Handled(HandleFeatures, st));
    FeaturesSeen(s0, child);
    hide TlsSeen, SaslSeen, WithoutTimer, BadHeaders.Complete, TlsFeatures, TlsOffer, LegacyTried;
    var s1 := DeleteTimed(s0, MissingFeatures).(tlsSupport := true, sasl := {});
    assert Left(s1) == Again;
  }

  lemma {:induction false} LateDispatched(s: State, child: Stanza)
    requires Fresh(s) && TlsOffer(child) && s.tick == 6 && s.link == Connected && s.handlers == [ErrorEntry, FeaturesEntry]
    requires LegacyTried(s.history + [Received(TlsFeatures(child))] + [Handled(HandleFeatures, TlsFeatures(child))])
    ensures var r := FireStanza(s, Clock, TlsFeatures(child));
      && !r.stopped && r.link == s.link && r.tick == 7 && r.timed == WithoutTimer(s.timed, MissingFeatures)
      && r.history == s.history + [Received(TlsFeatures(child))] + [Handled(HandleFeatures, TlsFeatures(child))] + [AuthCalled(Again)] + [TlsProbed(6)] + [Queued(StartTls)]
  {
    var st := TlsFeatures(child);
    var e0, e1 := ErrorEntry.(enabled := true), FeaturesEntry.(enabled := true);
    var s1 := Observe(s, Received(st)).(handlers := [e0, e1]);
    assert Enabled(s.handlers) == [e0, e1];
    assert Id(st) == None && !Matches(e0, st) && Matches(e1, st);
    assert Eligible(s1, HandleFeatures) && Eligible(s1, HandleError) && !Stays(s1, Clock, HandleFeatures, st);
    FeaturesHandled(s1, child);
    Dispatches(s, st);
    hide *;
    Dispatch.Unfolds(s1, Clock, st, 0, 2);
    Dispatch.Unfolds(s1, Clock, st, 1, 1);
    var s2 := OnStanza(s1, Clock, HandleFeatures, st);
    DispatchEnds(s2.(handlers := RemoveAt(s2.handlers, 1)), st, 1);
  }

  lemma {:induction false} Dispatches(s: State, st: Stanza)
    requires !s.stopped && Id(st) == None
    ensures FireStanza(s, Clock, st)
      == FireList(Observe(s, Received(st)).(handlers := Enabled(s.handlers)), Clock, st, 0, |s.handlers|)
    ensures Observe(s, Received(st)).handlers == s.handlers && Observe(s, Received(st)).stopped == s.stopped
  {
    hide FireList, Enabled, Id;
  }

  lemma {:induction false} DispatchEnds(s: State, st: Stanza, i: nat)
    ensures FireList(s, Clock, st, i, 0) == s
  {
  }

  /** The timer of the legacy request has just been set. */
  lemma {:induction false} NotYet(s: State, enabled: bool)
    requires s.tick >= 2 && s.link == Connected && !s.stopped
    requires s.timed == [Timer(MissingLegacy, LEGACY_TIMEOUT, FEATURES_TIMEOUT, enabled)]
    ensures FireTimed(s, Clock) == s.(timed := [Timer(MissingLegacy, LEGACY_TIMEOUT, FEATURES_TIMEOUT, true)], tick := s.tick + 1)
  {
    var t := Timer(MissingLegacy, LEGACY_TIMEOUT, FEATURES_TIMEOUT, true);
    assert EnabledTimers(s.timed) == [t];
    assert Elapsed(FEATURES_TIMEOUT, FEATURES_TIMEOUT) == 0;
    var s1 := s.(timed := [t]);
    assert FireTimers(s1, Clock, 0, 1) == FireTimers(s1.(tick := s.tick + 1), Clock, 1, 0);
  }

  const Opening := [Queued(StreamHeader), Opened, Fired(MissingFeatures), AuthCalled(Blank), Queued(LegacyIq)]

  lemma {:induction false} OneSax(s: State, x: Sax)
    requires !s.stopped && s.link == Connected && !OnSax(s, Clock, x).stopped
    ensures OnIo(s, Clock, Chunk([x], true)) == OnSax(s, Clock, x)
  {
    hide OnSax;
    assert [x][1..] == [];
    assert OnChunk(s, Clock, [x]) == OnChunk(OnSax(s, Clock, x), Clock, []);
  }

  /** The connection is made and has seen nothing. */
  predicate JustConnected(s: State) {
    && Fresh(s) && s.handlers == [] && s.timed == [] && s.ids == map[] && s.tick == 0 && s.openHandler == AuthOpen
    && !s.inStream && !s.streamDone && !s.resetParser && s.link == Connected && s.history == [Queued(StreamHeader)]
  }

  /** The features were given up. */
  predicate GivenUp(s: State) {
    && Fresh(s) && s.handlers == [ErrorEntry, FeaturesEntry] && s.timed == [Timer(MissingLegacy, LEGACY_TIMEOUT, FEATURES_TIMEOUT, false)]
    && s.tick == 5 && s.inStream && s.link == Connected && !s.resetParser && s.history == Opening
  }

  lemma {:induction false} Connects(account: Account)
    requires BadHeaders.Complete(account)
    ensures JustConnected(RunOnce(Init(account), Clock, false, ConnectDone))
  {
    BadHeaders.FirstPass(account, Clock);
    FirstHistory(account);
    hide RunOnce, BadHeaders.Complete;
  }

  lemma {:induction false} GivesUp(s: State)
    requires JustConnected(s)
    ensures GivenUp(RunOnce(s, Clock, false, Chunk([StreamStart("stream:stream", true)], true)))
  {
    hide BadHeaders.Complete, RunOnce, OnSax, FireTimed, OnIo;
    StreamOpened(s);
    var s2 := OnSax(s, Clock, StreamStart("stream:stream", true));
    BadHeaders.NoTimers(s, Clock);
    OneSax(s, StreamStart("stream:stream", true));
    SecondPass(s, Chunk([StreamStart("stream:stream", true)], true));
    assert !LegacyTried(s2.history + [Fired(MissingFeatures)]);
    TimedOut(s2);
    assert Opening == s2.history + [Fired(MissingFeatures)] + [AuthCalled(Blank)] + [Queued(LegacyIq)];
  }

  lemma {:induction false} SecondPass(s: State, io: Io)
    requires s.link == Connected && !s.resetParser && io != Idle
    ensures RunOnce(s, Clock, false, io) == FireTimed(OnIo(FireTimed(s, Clock), Clock, io), Clock)
  {
  }

  lemma {:induction false} FirstHistory(account: Account)
    ensures var s := RunOnce(Init(account), Clock, false, ConnectDone);
      s.history == [Queued(StreamHeader)] && s.tick == 0 && !s.tlsDisabled
  {
    var s1 := OnIo(Init(account).(resetParser := false), Clock, ConnectDone);
    BadHeaders.NoTimers(s1, Clock);
  }

  function Lost(st: Stanza): seq<Obs> {
    Opening + [Received(st)] + [Handled(HandleFeatures, st)] + [AuthCalled(Again)] + [TlsProbed(6)] + [Queued(StartTls)]
  }

  lemma {:induction false} StartsOver(s: State, child: Stanza)
    requires GivenUp(s) && TlsOffer(child)
    ensures RunOnce(s, Clock, false, Chunk([StanzaIn(TlsFeatures(child))], true)).history == Lost(TlsFeatures(child))
  {
    var st := TlsFeatures(child);
    hide RunOnce, BadHeaders.Complete, TlsFeatures, TlsOffer, FireStanza, FireTimed, OnIo, WithoutTimer;
    NotYet(s, false);
    var s3 := FireTimed(s, Clock);
    var g := Opening + [Received(st)] + [Handled(HandleFeatures, st)];
    assert g[4] == Queued(LegacyIq) && LegacyTried(g);
    hide LegacyTried;
    LateDispatched(s3, child);
    var s4 := OnSax(s3, Clock, StanzaIn(st));
    assert s4 == FireStanza(s3, Clock, st);
    OneSax(s3, StanzaIn(st));
    SecondPass(s, Chunk([StanzaIn(st)], true));
    KeptTimer(s3.timed[0]);
    NotYet(s4, true);
  }

  lemma {:induction false} KeptTimer(t: Timer)
    ensures t.handler == MissingLegacy ==> WithoutTimer([t], MissingFeatures) == [t]
  {
  }

  /** With the timeout the order is lost: `_auth` is called with more left to try than
      before, and starttls is sent after a credential went out in the clear. */
  lemma {:induction false} OrderIsLost(account: Account, child: Stanza)
    requires BadHeaders.Complete(account) && TlsOffer(child)
    ensures var events := [Pass(false, ConnectDone), Pass(false, Chunk([StreamStart("stream:stream", true)], true)),
                           Pass(false, Chunk([StanzaIn(TlsFeatures(child))], true))];
      var h := Run(Init(account), Clock, events).history;
      && |h| == 10 && h[3] == AuthCalled(Blank) && h[4] == Queued(LegacyIq)
      && h[7] == AuthCalled(Again) && h[9] == Queued(StartTls)
      && !MayStep(h[..7], h[7]) && !MayStep(h[..9], h[9])
  {
    var io0, io1, io2 := ConnectDone, Chunk([StreamStart("stream:stream", true)], true), Chunk([StanzaIn(TlsFeatures(child))], true);
    var s1 := RunOnce(Init(account), Clock, false, io0);
    var s2 := RunOnce(s1, Clock, false, io1);
    hide *;
    Connects(account);
    GivesUp(s1);
    StartsOver(s2, child);
    ThreePasses(account, io0, io1, io2);
    LostHas(TlsFeatures(child));
    LostSteps(Lost(TlsFeatures(child)));
  }

  lemma {:induction false} LostHas(st: Stanza)
    ensures var h := Lost(st);
      |h| == 10 && h[3] == AuthCalled(Blank) && h[4] == Queued(LegacyIq) && h[7] == AuthCalled(Again) && h[9] == Queued(StartTls)
  {
  }

  lemma {:induction false} ThreePasses(account: Account, a: Io, b: Io, c: Io)
    requires var s1 := RunOnce(Init(account), Clock, false, a);
      (JustConnected(s1) && GivenUp(RunOnce(s1, Clock, false, b)))
    ensures Run(Init(account), Clock, [Pass(false, a), Pass(false, b), Pass(false, c)])
      == RunOnce(RunOnce(RunOnce(Init(account), Clock, false, a), Clock, false, b), Clock, false, c)
  {
    ThreeEvents(Init(account), Pass(false, a), Pass(false, b), Pass(false, c));
    hide RunOnce, Run;
  }

  lemma {:induction false} ThreeEvents(s: State, a: Event, b: Event, c: Event)
    ensures Run(s, Clock, [a, b, c]) == Step(Step(Step(s, Clock, a), Clock, b), Clock, c)
  {
    hide Step;
    var s1 := Step(s, Clock, a);
    var s2 := Step(s1, Clock, b);
    assert [a, b, c][1..] == [b, c] && [b, c][1..] == [c] && [c][1..] == [];
    assert Run(s, Clock, [a, b, c]) == Run(s1, Clock, [b, c]);
    assert Run(s1, Clock, [b, c]) == Run(s2, Clock, [c]);
    assert Run(s2, Clock, [c]) == Run(Step(s2, Clock, c), Clock, []);
  }

  lemma {:induction false} LostSteps(h: seq<Obs>)
    requires |h| == 10 && h[3] == AuthCalled(Blank) && h[4] == Queued(LegacyIq) && h[7] == AuthCalled(Again) && h[9] == Queued(StartTls)
    ensures !MayStep(h[..7], h[7]) && !MayStep(h[..9], h[9])
  {
    assert h[..7][3] == AuthCalled(Blank) && !Less(Again, Blank);
    CredentialBefore(h, 4, 9);
  }

  // --------------------------------------------------------- late empty features

  /** What is left when nothing was offered and the legacy request was sent. */
  const Spent := Measure(true, false, 0, false)

  lemma {:induction false} EmptyHandled(s: State)
    requires Fresh(s) && s.link == Connected && s.tick == 6 && IsTimed(s.timed, MissingLegacy)
    requires LegacyTried(s.history + [Handled(HandleFeatures, BadHeaders.Features)])
    requires WithoutTimer(s.timed, MissingFeatures) == s.timed
    ensures var r := OnStanza(s, Clock, HandleFeatures, BadHeaders.Features);
      && !r.stopped && r.handlers == s.handlers && r.link == s.link && r.tick == 6 && r.timed == s.timed
      && r.history == s.history + [Handled(HandleFeatures, BadHeaders.Features)] + [AuthCalled(Spent)] + [Queued(LegacyIq)]
  {
    var st := BadHeaders.Features;
    var s0 := Observe(s, Handled(HandleFeatures, st));
    BadHeaders.NothingOffered(s0);
    hide TlsSeen, SaslSeen, WithoutTimer, LegacyTried, IsTimed, WithId;
    var s1 := DeleteTimed(s0, MissingFeatures).(tlsSupport := false, sasl := {});
    assert Left(s1) == Spent;
    AddTimedCases(AddId(Observe(s1, AuthCalled(Spent)), HandleLegacy, "_xmpp_auth1"), Clock, MissingLegacy, LEGACY_TIMEOUT);
  }

  lemma {:induction false} EmptyDispatched(s: State)
    requires Fresh(s) && s.link == Connected && s.tick == 6 && s.handlers == [ErrorEntry, FeaturesEntry]
    requires IsTimed(s.timed, MissingLegacy) && WithoutTimer(s.timed, MissingFeatures) == s.timed
    requires LegacyTried(s.history + [Received(BadHeaders.Features)] + [Handled(HandleFeatures, BadHeaders.Features)])
    ensures var r := FireStanza(s, Clock, BadHeaders.Features);
      && !r.stopped && r.link == s.link && r.tick == 6 && r.timed == s.timed
      && r.history == s.history + [Received(BadHeaders.Features)] + [Handled(HandleFeatures, BadHeaders.Features)] + [AuthCalled(Spent)] + [Queued(LegacyIq)]
  {
    var st := BadHeaders.Features;
    var e0, e1 := ErrorEntry.(enabled := true), FeaturesEntry.(enabled := true);
    var s1 := Observe(s, Received(st)).(handlers := [e0, e1]);
    assert Enabled(s.handlers) == [e0, e1];
    assert Id(st) == None && !Matches(e0, st) && Matches(e1, st);
    assert Eligible(s1, HandleFeatures) && Eligible(s1, HandleError) && !Stays(s1, Clock, HandleFeatures, st);
    EmptyHandled(s1);
    Dispatches(s, st);
    hide *;
    Dispatch.Unfolds(s1, Clock, st, 0, 2);
    Dispatch.Unfolds(s1, Clock, st, 1, 1);
    var s2 := OnStanza(s1, Clock, HandleFeatures, st);
    DispatchEnds(s2.(handlers := RemoveAt(s2.handlers, 1)), st, 1);
  }

  function Twice(): seq<Obs> {
    Opening + [Received(BadHeaders.Features)] + [Handled(HandleFeatures, BadHeaders.Features)] + [AuthCalled(Spent)] + [Queued(LegacyIq)]
  }

  lemma {:induction false} AsksAgain(s: State)
    requires GivenUp(s)
    ensures RunOnce(s, Clock, false, Chunk([StanzaIn(BadHeaders.Features)], true)).history == Twice()
  {
    var st := BadHeaders.Features;
    hide RunOnce, BadHeaders.Complete, FireStanza, FireTimed, OnIo, WithoutTimer;
    NotYet(s, false);
    var s3 := FireTimed(s, Clock);
    var g := Opening + [Received(st)] + [Handled(HandleFeatures, st)];
    assert g[4] == Queued(LegacyIq) && LegacyTried(g);
    assert s3.timed[0].handler == MissingLegacy && IsTimed(s3.timed, MissingLegacy);
    hide LegacyTried, IsTimed;
    KeptTimer(s3.timed[0]);
    EmptyDispatched(s3);
    var s4 := OnSax(s3, Clock, StanzaIn(st));
    assert s4 == FireStanza(s3, Clock, st);
    OneSax(s3, StanzaIn(st));
    SecondPass(s, Chunk([StanzaIn(st)], true));
    NotYet(s4, true);
  }

  /** Late features that offer nothing make the client send the legacy request, and the
      password in it, once more. */
  lemma {:induction false} AskedTwice(account: Account)
    requires BadHeaders.Complete(account)
    ensures var events := [Pass(false, ConnectDone), Pass(false, Chunk([StreamStart("stream:stream", true)], true)),
                           Pass(false, Chunk([StanzaIn(BadHeaders.Features)], true))];
      var h := Run(Init(account), Clock, events).history;
      && |h| == 9 && h[4] == h[8] == Queued(LegacyIq) && FirstLate(h, 2, 3, 6)
      && MayStep(h[..7], h[7]) && !MayStep(h[..8], h[8])
  {
    var io0, io1, io2 := ConnectDone, Chunk([StreamStart("stream:stream", true)], true), Chunk([StanzaIn(BadHeaders.Features)], true);
    var s1 := RunOnce(Init(account), Clock, false, io0);
    var s2 := RunOnce(s1, Clock, false, io1);
    hide *;
    Connects(account);
    GivesUp(s1);
    AsksAgain(s2);
    ThreePasses(account, io0, io1, io2);
    TwiceHas();
    TwiceSteps(Twice());
  }

  lemma {:induction false} TwiceHas()
    ensures var h := Twice();
      && |h| == 9 && h[0] == Queued(StreamHeader) && h[1] == Opened && h[2] == Fired(MissingFeatures) && h[3] == AuthCalled(Blank)
      && h[4] == Queued(LegacyIq) && h[5] == Received(BadHeaders.Features) && h[6] == Handled(HandleFeatures, BadHeaders.Features)
      && h[7] == AuthCalled(Spent) && h[8] == Queued(LegacyIq)
  {
  }

  lemma {:induction false} TwiceSteps(h: seq<Obs>)
    requires |h| == 9 && h[0] == Queued(StreamHeader) && h[1] == Opened && h[2] == Fired(MissingFeatures) && h[3] == AuthCalled(Blank)
    requires h[4] == Queued(LegacyIq) && h[5] == Received(BadHeaders.Features) && h[6] == Handled(HandleFeatures, BadHeaders.Features)
    requires h[7] == AuthCalled(Spent) && h[8] == Queued(LegacyIq)
    ensures MayStep(h[..7], h[7]) && !MayStep(h[..8], h[8]) && FirstLate(h, 2, 3, 6)
  {
    assert h[..8][4] == Queued(LegacyIq);
    assert Less(Spent, Blank);
    assert forall k :: 0 <= k < 6 ==> !ReadsFeatures(h[k]);
  }
}
