/** One pass over the timed handlers of a connection: which fire, what is left of the list,
    and how long until the next is due (src/handler.c:139-196). */
module TimerPass {
  import opened Common
  import opened Stanzas
  import opened Negotiation
  import opened Frames
  import opened Clocks

  predicate AllIdle(ts: seq<Timer>) {
    forall i :: 0 <= i < |ts| ==> !ts[i].enabled
  }

  /** The list grows at its end, by timers that are not enabled yet. */
  predicate Grows(ts: seq<Timer>, us: seq<Timer>) {
    ts <= us && AllIdle(us[|ts|..])
  }

  lemma {:induction false} GrowsSelf(ts: seq<Timer>)
    ensures Grows(ts, ts)
  {
  }

  lemma {:induction false} GrowsJoins(a: seq<Timer>, b: seq<Timer>, c: seq<Timer>)
    requires Grows(a, b) && Grows(b, c)
    ensures Grows(a, c)
  {
    assert c[|a|..] == b[|a|..] + c[|b|..];
  }

  lemma {:induction false} WithTimerGrows(ts: seq<Timer>, t: Timer)
    requires !t.enabled
    ensures Grows(ts, WithTimer(ts, t))
  {
  }

  predicate Adds(s: State, r: State) {
    Grows(s.timed, r.timed)
  }

  lemma {:induction false} SameAdds(s: State, r: State)
    requires r.timed == s.timed
    ensures Adds(s, r)
  {
    hide Grows;
    GrowsSelf(s.timed);
  }

  lemma {:induction false} AddsJoins(s: State, r: State, t: State)
    requires Adds(s, r) && Adds(r, t)
    ensures Adds(s, t)
  {
    hide Grows;
    GrowsJoins(s.timed, r.timed, t.timed);
  }

  lemma {:induction false} AddTimedAdds(s: State, s1: State, env: Env, h: Handler, period: nat)
    requires s1.timed == s.timed
    ensures Adds(s, AddTimed(s1, env, h, period))
  {
    hide Grows, WithTimer, IsTimed;
    WithTimerGrows(s.timed, Timer(h, period, env(s1.tick).now, false));
  }

  lemma {:induction false} DisconnectAdds(s: State, env: Env)
    ensures Adds(s, XmppDisconnect(s, env))
  {
    hide Adds, AddTimed, SentAs;
    if s.link == Disconnected {
      SameAdds(s, s);
    } else {
      AddTimedAdds(s, Send(s, StreamFooter), env, DisconnectCleanup, DISCONNECT_TIMEOUT);
    }
  }

  lemma {:induction false} RegisterAdds(s: State, n: nat, e: Entry, id: string, data: string)
    ensures Adds(s, s.(handlers := WithEntry(s.handlers, e))) && Adds(s, AddId(s, User(n), id))
    ensures Adds(s, Send(s, UserData(data))) && Adds(s, Bar(s)) && Adds(s, Stop(s))
  {
    hide Grows, WithEntry, WithId, SentAs;
    GrowsSelf(s.timed);
  }

  lemma {:induction false} ActAdds(s: State, env: Env, a: Action)
    ensures Adds(s, Act(s, env, a))
  {
    hide Adds, WithEntry, AddId, AddTimed, Send, Stop, XmppDisconnect, Bar;
    var none := Entry(User(0), None, None, None, false);
    match a
    case AddStanza(n, ns, name, typ) => RegisterAdds(s, n, Entry(User(n), ns, name, typ, false), "", "");
    case AddById(n, id) => RegisterAdds(s, n, none, id, "");
    case AddTimer(n, period) => AddTimedAdds(s, s, env, User(n), period);
    case SendData(data) => RegisterAdds(s, 0, none, "", data);
    case Disconnect => DisconnectAdds(s, env);
    case DisableTls => RegisterAdds(s, 0, none, "", "");
  }

  lemma {:induction false} PerformAdds(s: State, env: Env, actions: seq<Action>)
    ensures Adds(s, Perform(s, env, actions))
    decreases actions
  {
    hide Adds, Act;
    if actions == [] || s.stopped {
      SameAdds(s, s);
    } else {
      var s1 := Act(s, env, actions[0]);
      ActAdds(s, env, actions[0]);
      PerformAdds(s1, env, actions[1..]);
      AddsJoins(s, s1, Perform(s1, env, actions[1..]));
    }
  }

  lemma {:induction false} CallbackAdds(s: State, s1: State, env: Env)
    requires s1.timed == s.timed
    ensures Adds(s, Callback(s1, env))
  {
    hide Adds, Perform;
    var s2 := s1.(tick := s1.tick + 1);
    SameAdds(s, s2);
    PerformAdds(s2, env, env(s1.tick).actions);
    AddsJoins(s, s2, Callback(s1, env));
  }

  lemma {:induction false} RequestAdds(s: State, s1: State, env: Env)
    requires s1.timed == s.timed
    ensures Adds(s, Request(s1, env, HandleLegacy, "_xmpp_auth1", MissingLegacy, LEGACY_TIMEOUT, LegacyIq))
  {
    hide Adds, AddTimed, AddId, SentAs;
    var s2 := AddTimed(AddId(s1, HandleLegacy, "_xmpp_auth1"), env, MissingLegacy, LEGACY_TIMEOUT);
    assert AddId(s1, HandleLegacy, "_xmpp_auth1").timed == s1.timed by { AddIdTimed(s1, HandleLegacy, "_xmpp_auth1"); }
    AddTimedAdds(s, AddId(s1, HandleLegacy, "_xmpp_auth1"), env, MissingLegacy, LEGACY_TIMEOUT);
    SameAdds(s2, Send(s2, LegacyIq));
    AddsJoins(s, s2, Send(s2, LegacyIq));
  }

  lemma {:induction false} AddIdTimed(s: State, h: Handler, id: string)
    ensures AddId(s, h, id).timed == s.timed
  {
    hide WithId;
  }

  lemma {:induction false} TryMechanismAdds(s: State, s1: State, m: Mechanism, h: Handler)
    requires s1.timed == s.timed
    ensures Adds(s, TryMechanism(s1, m, h))
  {
    hide Adds, WithEntry, SentAs;
    SameAdds(s, TryMechanism(s1, m, h));
  }

  lemma {:induction false} TryTlsAdds(s: State, env: Env)
    ensures var s0 := Observe(s, AuthCalled(Left(s)));
      var s1 := TlsAsked(s0, env);
      && Adds(s, s1.(tlsSupport := false)) && Adds(s, s0) && Adds(s, Stop(s0)) && s0.timed == s.timed
      && Adds(s, Send(AddHandler(s1, HandleProceedTls, Some(NS_TLS), None, None), StartTls).(tlsSupport := false))
  {
    hide Grows, WithEntry, SentAs, Left;
    GrowsSelf(s.timed);
  }

  lemma {:induction false} TryAuthAdds(s: State, env: Env)
    ensures Adds(s, TryAuth(s, env))
    decreases s.tlsSupport
  {
    hide Adds, TryMechanism, Request, XmppDisconnect, AddHandler, Send, Observe, Left, Stop, TlsAsked;
    var s0 := Observe(s, AuthCalled(Left(s)));
    TryTlsAdds(s, env);
    if s.tlsSupport {
      if !env(s.tick).tlsAvailable {
        var s1 := TlsAsked(s0, env).(tlsSupport := false);
        TryAuthAdds(s1, env);
        AddsJoins(s, s1, TryAuth(s1, env));
      }
    } else {
      TryMechanismAdds(s, s0, Anonymous, HandleSaslResult);
      TryMechanismAdds(s, s0, DigestMd5, HandleDigestChallenge);
      TryMechanismAdds(s, s0, Plain, HandleSaslResult);
      DisconnectAdds(s0, env);
      AddsJoins(s, s0, XmppDisconnect(s0, env));
      RequestAdds(s, s0, env);
    }
  }

  // ------------------------------------------------------------------- one firing

  function FiredOf(os: seq<Obs>): seq<Handler> {
    if os == [] then [] else FiringIn(os[0]) + FiredOf(os[1..])
  }

  function FiringIn(o: Obs): seq<Handler> {
    if o.Fired? then [o.handler] else []
  }

  lemma {:induction false} FirstFiring(o: Obs, rest: seq<Obs>)
    ensures FiredOf([o] + rest) == FiringIn(o) + FiredOf(rest)
  {
    assert ([o] + rest)[1..] == rest;
  }

  lemma {:induction false} FiredJoin(a: seq<Obs>, b: seq<Obs>)
    ensures FiredOf(a + b) == FiredOf(a) + FiredOf(b)
  {
    if a == [] {
      assert a + b == b;
      assert [] + FiredOf(b) == FiredOf(b);
    } else {
      hide *;
      var o, rest := a[0], a[1..];
      assert a == [o] + rest && a + b == [o] + (rest + b);
      FirstFiring(o, rest);
      FirstFiring(o, rest + b);
      FiredJoin(rest, b);
      assert FiringIn(o) + (FiredOf(rest) + FiredOf(b)) == FiringIn(o) + FiredOf(rest) + FiredOf(b);
    }
  }

  lemma {:induction false} InnerFiresNone(link: Link, os: seq<Obs>)
    requires AllInner(link, os)
    ensures FiredOf(os) == []
  {
    if os != [] {
      assert Inner(link, os[0]);
      InnerFiresNone(link, os[1..]);
    }
  }

  /** What the handler of a timer does after it was observed to fire. */
  lemma {:induction false} TimerInner(s: State, env: Env, h: Handler)
    ensures var s0, r := Observe(s, Fired(h)), OnTimer(s, env, h);
      && s0.history <= r.history && FiredOf(r.history[|s0.history|..]) == [] && r.authenticated == s.authenticated
  {
    var s0, r := Observe(s, Fired(h)), OnTimer(s, env, h);
    hide AllInner, AllNew, Distinct, TryAuth, Notify, Callback, XmppDisconnect;
    if h == MissingFeatures {
      TryAuthExtends(s0, env);
    } else if h == DisconnectCleanup {
      NotifyExtends(s0.(link := Disconnected), env, false);
    } else if h.User? {
      CallbackExtends(s0, env);
    } else {
      DisconnectExtends(s0, env);
    }
    InnerFiresNone(if h == DisconnectCleanup then Disconnected else s.link, r.history[|s0.history|..]);
  }

  lemma {:induction false} TimerGrows(s: State, env: Env, h: Handler)
    ensures Grows(s.timed, OnTimer(s, env, h).timed)
  {
    hide Adds, TryAuth, Callback, XmppDisconnect;
    var s0 := Observe(s, Fired(h));
    SameAdds(s, s0);
    TryAuthAdds(s0, env);
    CallbackAdds(s, s0, env);
    CallbackAdds(s, Observe(s0.(link := Disconnected), Notified(false)), env);
    DisconnectAdds(s0, env);
    assert Adds(s, OnTimer(s, env, h)) by {
      AddsJoins(s, s0, TryAuth(s0, env));
      AddsJoins(s, s0, XmppDisconnect(s0, env));
    }
    AddsMeans(s, OnTimer(s, env, h));
  }

  lemma {:induction false} AddsMeans(s: State, r: State)
    requires Adds(s, r)
    ensures Grows(s.timed, r.timed)
  {
  }

  lemma {:induction false} OneFiring(s: State, env: Env, h: Handler)
    requires DistinctTimers(s.timed)
    ensures var r := OnTimer(s, env, h);
      && s.history <= r.history && FiredOf(r.history[|s.history|..]) == [h]
      && Grows(s.timed, r.timed) && DistinctTimers(r.timed) && r.authenticated == s.authenticated && s.tick <= r.tick
  {
    hide *;
    TimerInner(s, env, h);
    TimerGrows(s, env, h);
    OnTimerClocked(s, env, h);
    ClockedKeeps(s, OnTimer(s, env, h), env);
    FiredFirst(s, h, OnTimer(s, env, h).history);
  }

  lemma {:induction false} ClockedKeeps(s: State, r: State, env: Env)
    requires Clocked(s, r, env)
    ensures s.tick <= r.tick && (DistinctTimers(s.timed) ==> DistinctTimers(r.timed))
  {
    hide DistinctTimers;
  }

  lemma {:induction false} FiredFirst(s: State, h: Handler, later: seq<Obs>)
    requires var before := Observe(s, Fired(h)).history; before <= later && FiredOf(later[|before|..]) == []
    ensures s.history <= later && FiredOf(later[|s.history|..]) == [h]
    ensures Observe(s, Fired(h)).authenticated == s.authenticated
  {
    hide FiredOf;
    var rest := later[|s.history| + 1..];
    assert later[|s.history|..] == [Fired(h)] + rest;
    FirstFiring(Fired(h), rest);
  }

  // --------------------------------------------------------------------- one pass

  /** What a pass finds of a timer: its handler may not be called; it is not due, for so
      long; or it fires, when the clock read `at`, gets a stamp, and stays or not. */
  datatype Verdict = Barred | Waits(left: nat) | Rings(at: nat, stamp: nat, stays: bool)

  function Verdicts(s: State, env: Env, i: nat, r: nat): seq<Verdict>
    decreases r
  {
    if r == 0 || s.stopped || i >= |s.timed| then []
    else
      var t := s.timed[i];
      if !Eligible(s, t.handler) then [Barred] + Verdicts(s, env, i + 1, r - 1)
      else
        var now := env(s.tick).now;
        if Elapsed(t.lastStamp, now) < t.period then
          [Waits(t.period - Elapsed(t.lastStamp, now))] + Verdicts(s.(tick := s.tick + 1), env, i + 1, r - 1)
        else
          var stamped := Stamped(s, env, i);
          var s1 := OnTimer(stamped, env, t.handler);
          var stays := t.handler.User? && env(stamped.tick).keep;
          [Rings(now, env(s.tick + 1).now, stays)]
          + (if stays then Verdicts(s1, env, i + 1, r - 1) else Verdicts(DeleteTimed(s1, t.handler), env, i, r - 1))
  }

  /** The connection when the k-th of these timers is looked at. */
  function LookedAt(s: State, env: Env, i: nat, r: nat, k: nat): State
    decreases r
  {
    if k == 0 || r == 0 || s.stopped || i >= |s.timed| then s
    else
      var t := s.timed[i];
      if !Eligible(s, t.handler) then LookedAt(s, env, i + 1, r - 1, k - 1)
      else if Elapsed(t.lastStamp, env(s.tick).now) < t.period then LookedAt(s.(tick := s.tick + 1), env, i + 1, r - 1, k - 1)
      else
        var stamped := Stamped(s, env, i);
        var s1 := OnTimer(stamped, env, t.handler);
        if t.handler.User? && env(stamped.tick).keep then LookedAt(s1, env, i + 1, r - 1, k - 1)
        else LookedAt(DeleteTimed(s1, t.handler), env, i, r - 1, k - 1)
  }

  lemma {:induction false} FirstLook(s: State, env: Env, i: nat, r: nat)
    ensures LookedAt(s, env, i, r, 0) == s
  {
  }

  lemma {:induction false} LookedUnfolds(s: State, env: Env, i: nat, r: nat, k: nat)
    requires 0 < k && 0 < r && i < |s.timed| && !s.stopped
    ensures var t := s.timed[i];
      if !Eligible(s, t.handler) then LookedAt(s, env, i, r, k) == LookedAt(s, env, i + 1, r - 1, k - 1)
      else if Elapsed(t.lastStamp, env(s.tick).now) < t.period then
        LookedAt(s, env, i, r, k) == LookedAt(s.(tick := s.tick + 1), env, i + 1, r - 1, k - 1)
      else
        var stamped := Stamped(s, env, i);
        var s1 := OnTimer(stamped, env, t.handler);
        LookedAt(s, env, i, r, k)
          == if t.handler.User? && env(stamped.tick).keep then LookedAt(s1, env, i + 1, r - 1, k - 1)
             else LookedAt(DeleteTimed(s1, t.handler), env, i, r - 1, k - 1)
  {
    hide OnTimer, DeleteTimed, Stamped, Eligible, Elapsed;
  }

  function Ringers(ts: seq<Timer>, vs: seq<Verdict>): seq<Handler>
    requires |ts| == |vs|
  {
    if ts == [] then [] else (if vs[0].Rings? then [ts[0].handler] else []) + Ringers(ts[1..], vs[1..])
  }

  /** What is left of the timers. */
  function Remaining(ts: seq<Timer>, vs: seq<Verdict>): seq<Timer>
    requires |ts| == |vs|
  {
    if ts == [] then []
    else
      (match vs[0]
       case Barred => [ts[0]]
       case Waits(_) => [ts[0]]
       case Rings(_, stamp, stays) => if stays then [ts[0].(lastStamp := stamp)] else [])
      + Remaining(ts[1..], vs[1..])
  }

  function RestOf(ts: seq<Timer>, i: nat, r: nat): seq<Timer>
    requires i + r <= |ts|
  {
    ts[i..i + r]
  }

  ghost predicate Outcome(s: State, t: State, i: nat, r: nat, vs: seq<Verdict>)
    requires i + r <= |s.timed|
  {
    && |vs| == r
    && s.history <= t.history && FiredOf(t.history[|s.history|..]) == Ringers(RestOf(s.timed, i, r), vs)
    && t.authenticated == s.authenticated && DistinctTimers(t.timed)
    && TimersLeft(s.timed, t.timed, i, r, vs)
  }

  /** The timers before and after: what stays of them, and then new ones that are idle. */
  ghost predicate TimersLeft(ts: seq<Timer>, t: seq<Timer>, i: nat, r: nat, vs: seq<Verdict>)
    requires i + r <= |ts| && |vs| == r
  {
    Grows(ts[..i] + Remaining(RestOf(ts, i, r), vs) + ts[i + r..], t)
  }

  lemma {:induction false} OutcomeEnds(s: State, i: nat)
    requires i <= |s.timed| && DistinctTimers(s.timed)
    ensures Outcome(s, s, i, 0, [])
  {
    hide DistinctTimers;
    assert s.timed[..i] + [] + s.timed[i..] == s.timed;
  }

  /** A timer does not fire. */
  lemma {:induction false} OutcomePasses(s: State, s1: State, t: State, i: nat, r: nat, v: Verdict, vs: seq<Verdict>)
    requires 0 < r && i + r <= |s.timed| && !v.Rings?
    requires s1.timed == s.timed && s1.history == s.history && s1.authenticated == s.authenticated
    requires Outcome(s1, t, i + 1, r - 1, vs)
    ensures Outcome(s, t, i, r, [v] + vs)
  {
    hide DistinctTimers, Grows;
    var rest := RestOf(s.timed, i, r);
    assert rest[1..] == RestOf(s.timed, i + 1, r - 1);
    assert ([v] + vs)[1..] == vs;
    assert [] + Ringers(rest[1..], vs) == Ringers(rest[1..], vs);
    var left := Remaining(rest[1..], vs);
    assert s.timed[..i] + ([s.timed[i]] + left) + s.timed[i + r..] == s.timed[..i + 1] + left + s.timed[i + r..];
  }

  lemma {:induction false} CutAt(ts: seq<Timer>, i: nat)
    requires DistinctTimers(ts) && i < |ts|
    ensures WithoutTimer(ts, ts[i].handler) == ts[..i] + ts[i + 1..]
  {
    WithoutTimerCuts(ts, ts[i].handler);
  }

  /** The list after a timer has fired that stays, or is taken out. */
  lemma {:induction false} ListAfter(ts: seq<Timer>, u: Timer, added: seq<Timer>, i: nat, r: nat, left: seq<Timer>)
    requires 0 < r && i + r <= |ts|
    ensures var more := ts[i := u] + added;
      && RestOf(more, i + 1, r - 1) == RestOf(ts, i, r)[1..]
      && more[..i + 1] + left + more[i + r..] == (ts[..i] + ([u] + left) + ts[i + r..]) + added
      && var cut := more[..i] + more[i + 1..];
         && |cut| == |more| - 1 && RestOf(cut, i, r - 1) == RestOf(ts, i, r)[1..]
         && cut[..i] + left + cut[i + (r - 1)..] == (ts[..i] + left + ts[i + r..]) + added
  {
    var more := ts[i := u] + added;
    var cut := more[..i] + more[i + 1..];
    assert more[i + r..] == ts[i + r..] + added;
    assert cut[i + (r - 1)..] == ts[i + r..] + added;
  }

  lemma {:induction false} IdleAppended(left: seq<Timer>, added: seq<Timer>, t: seq<Timer>)
    requires AllIdle(added) && Grows(left + added, t)
    ensures Grows(left, t)
  {
    assert t[|left|..] == added + t[|left + added|..];
  }

  lemma {:induction false} FiringsJoin(a: seq<Obs>, b: seq<Obs>, c: seq<Obs>)
    requires a <= b <= c
    ensures FiredOf(c[|a|..]) == FiredOf(b[|a|..]) + FiredOf(c[|b|..])
  {
    assert c[|a|..] == b[|a|..] + c[|b|..];
    FiredJoin(b[|a|..], c[|b|..]);
  }

  lemma {:induction false} StampedDistinct(s: State, env: Env, i: nat)
    requires DistinctTimers(s.timed) && i < |s.timed|
    ensures DistinctTimers(Stamped(s, env, i).timed)
  {
  }

  /** The state after a timer has fired. */
  ghost predicate AfterFiring(s: State, s1: State, i: nat, u: Timer)
    requires i < |s.timed|
  {
    && s.history <= s1.history && FiredOf(s1.history[|s.history|..]) == [u.handler]
    && Grows(s.timed[i := u], s1.timed) && DistinctTimers(s1.timed) && s1.authenticated == s.authenticated
  }

  lemma {:induction false} FiresAt(s: State, env: Env, i: nat)
    requires i < |s.timed| && DistinctTimers(s.timed)
    ensures AfterFiring(s, OnTimer(Stamped(s, env, i), env, s.timed[i].handler), i, Stamped(s, env, i).timed[i])
  {
    hide DistinctTimers, Grows, FiredOf, OnTimer;
    StampedDistinct(s, env, i);
    OneFiring(Stamped(s, env, i), env, s.timed[i].handler);
  }

  /** The first of the timers that are left fires and stays. */
  lemma {:induction false} TimerStaysLeft(ts: seq<Timer>, u: Timer, added: seq<Timer>, t: seq<Timer>, i: nat, r: nat,
                                          v: Verdict, vs: seq<Verdict>)
    requires 0 < r && i + r <= |ts| && |vs| == r - 1 && AllIdle(added)
    requires v.Rings? && v.stays && u == ts[i].(lastStamp := v.stamp)
    requires TimersLeft(ts[i := u] + added, t, i + 1, r - 1, vs)
    ensures TimersLeft(ts, t, i, r, [v] + vs)
  {
    hide AllIdle, Grows;
    var rest := RestOf(ts, i, r);
    var left := Remaining(rest[1..], vs);
    ListAfter(ts, u, added, i, r, left);
    assert ([v] + vs)[1..] == vs;
    IdleAppended(ts[..i] + ([u] + left) + ts[i + r..], added, t);
  }

  /** The first of the timers that are left fires and is deleted. */
  lemma {:induction false} TimerLeavesLeft(ts: seq<Timer>, u: Timer, added: seq<Timer>, t: seq<Timer>, i: nat, r: nat,
                                           v: Verdict, vs: seq<Verdict>)
    requires 0 < r && i + r <= |ts| && |vs| == r - 1 && AllIdle(added) && v.Rings? && !v.stays
    requires var more := ts[i := u] + added;
      var cut := more[..i] + more[i + 1..]; i + (r - 1) <= |cut| && TimersLeft(cut, t, i, r - 1, vs)
    ensures TimersLeft(ts, t, i, r, [v] + vs)
  {
    hide AllIdle, Grows;
    var rest := RestOf(ts, i, r);
    var left := Remaining(rest[1..], vs);
    ListAfter(ts, u, added, i, r, left);
    assert ([v] + vs)[1..] == vs;
    assert [] + left == left;
    IdleAppended(ts[..i] + left + ts[i + r..], added, t);
  }

  lemma {:induction false} RingerFirst(ts: seq<Timer>, more: seq<Timer>, i: nat, r: nat, v: Verdict, vs: seq<Verdict>)
    requires 0 < r && i + r <= |ts| && |vs| == r - 1 && v.Rings? && i + r <= |more|
    requires RestOf(more, i + 1, r - 1) == RestOf(ts, i, r)[1..]
    ensures Ringers(RestOf(ts, i, r), [v] + vs) == [ts[i].handler] + Ringers(RestOf(more, i + 1, r - 1), vs)
  {
    assert ([v] + vs)[1..] == vs;
  }

  /** What a firing makes of the list. */
  lemma {:induction false} AddedIdle(s: State, s1: State, i: nat, u: Timer)
    requires i < |s.timed| && AfterFiring(s, s1, i, u)
    ensures |s.timed| <= |s1.timed| && s1.timed == s.timed[i := u] + s1.timed[|s.timed|..]
    ensures AllIdle(s1.timed[|s.timed|..]) && DistinctTimers(s1.timed) && s1.timed[i] == u
    ensures s1.authenticated == s.authenticated && s.history <= s1.history
    ensures FiredOf(s1.history[|s.history|..]) == [u.handler]
  {
    hide AllIdle, DistinctTimers, FiredOf;
    assert s1.timed == s.timed[i := u] + s1.timed[|s.timed|..];
  }

  lemma {:induction false} OutcomeStays(s: State, s1: State, t: State, i: nat, r: nat, u: Timer, at: nat, vs: seq<Verdict>)
    requires 0 < r && i + r <= |s.timed| && u == s.timed[i].(lastStamp := u.lastStamp) && AfterFiring(s, s1, i, u)
    requires i + r <= |s1.timed| && Outcome(s1, t, i + 1, r - 1, vs)
    ensures Outcome(s, t, i, r, [Rings(at, u.lastStamp, true)] + vs)
  {
    hide DistinctTimers, AllIdle, AfterFiring, TimersLeft, Ringers, FiredOf, RestOf;
    var v := Rings(at, u.lastStamp, true);
    AddedIdle(s, s1, i, u);
    var added := s1.timed[|s.timed|..];
    ListAfter(s.timed, u, added, i, r, []);
    TimerStaysLeft(s.timed, u, added, t.timed, i, r, v, vs);
    RingerFirst(s.timed, s1.timed, i, r, v, vs);
    FiringsJoin(s.history, s1.history, t.history);
  }

  lemma {:induction false} OutcomeLeaves(s: State, s1: State, t: State, i: nat, r: nat, u: Timer, at: nat, vs: seq<Verdict>)
    requires 0 < r && i + r <= |s.timed| && u == s.timed[i].(lastStamp := u.lastStamp) && AfterFiring(s, s1, i, u)
    requires |s1.timed| >= i + r && |DeleteTimed(s1, u.handler).timed| >= i + (r - 1)
    requires Outcome(DeleteTimed(s1, u.handler), t, i, r - 1, vs)
    ensures Outcome(s, t, i, r, [Rings(at, u.lastStamp, false)] + vs)
  {
    hide DistinctTimers, AllIdle, AfterFiring, TimersLeft, Ringers, FiredOf, RestOf, WithoutTimer;
    var v := Rings(at, u.lastStamp, false);
    AddedIdle(s, s1, i, u);
    CutAt(s1.timed, i);
    var added := s1.timed[|s.timed|..];
    ListAfter(s.timed, u, added, i, r, []);
    TimerLeavesLeft(s.timed, u, added, t.timed, i, r, v, vs);
    RingerFirst(s.timed, s1.timed, i, r, v, vs);
    FiringsJoin(s.history, s1.history, t.history);
  }

  /** What holds of a pass over r timers from position i on, if it comes to its end. */
  ghost predicate PassHolds(s: State, env: Env, i: nat, r: nat)
    requires i + r <= |s.timed|
  {
    Outcome(s, FireTimers(s, env, i, r), i, r, Verdicts(s, env, i, r))
  }

  /** One pass: exactly the timers among those that were there that are due when they are
      looked at fire, once each and in order, whatever their handlers register; what is
      left is the others as they were and those that stay with a new stamp, and after them
      the timers that were added, none of which fired. */
  lemma {:induction false} PassOutcome(s: State, env: Env, i: nat, r: nat)
    requires i + r <= |s.timed| && DistinctTimers(s.timed) && !FireTimers(s, env, i, r).stopped
    ensures PassHolds(s, env, i, r)
    decreases r
  {
    hide DistinctTimers, Outcome, OnTimer, Eligible, WithoutTimer, Elapsed, Stamped;
    if r == 0 {
      OutcomeEnds(s, i);
    } else {
      StopLasts(s, env, i, r);
      var t := s.timed[i];
      if !Eligible(s, t.handler) {
        PassOutcome(s, env, i + 1, r - 1);
        OutcomePasses(s, s, FireTimers(s, env, i + 1, r - 1), i, r, Barred, Verdicts(s, env, i + 1, r - 1));
      } else if Elapsed(t.lastStamp, env(s.tick).now) < t.period {
        WaitPasses(s, env, i, r);
      } else {
        RingPasses(s, env, i, r);
      }
    }
  }

  lemma {:induction false} WaitPasses(s: State, env: Env, i: nat, r: nat)
    requires 0 < r && i + r <= |s.timed| && DistinctTimers(s.timed) && !FireTimers(s, env, i, r).stopped && !s.stopped
    requires Eligible(s, s.timed[i].handler) && Elapsed(s.timed[i].lastStamp, env(s.tick).now) < s.timed[i].period
    ensures PassHolds(s, env, i, r)
    decreases r, 0
  {
    hide DistinctTimers, Outcome, OnTimer, Eligible, WithoutTimer, Elapsed, Stamped;
    var t := s.timed[i];
    var s1 := s.(tick := s.tick + 1);
    PassOutcome(s1, env, i + 1, r - 1);
    OutcomePasses(s, s1, FireTimers(s1, env, i + 1, r - 1), i, r,
      Waits(t.period - Elapsed(t.lastStamp, env(s.tick).now)), Verdicts(s1, env, i + 1, r - 1));
  }

  lemma {:induction false} StopLasts(s: State, env: Env, i: nat, r: nat)
    requires !FireTimers(s, env, i, r).stopped
    ensures !s.stopped
  {
    hide OnTimer, Stamped, WithoutTimer;
  }

  lemma {:induction false} CutLength(ts: seq<Timer>, us: seq<Timer>, i: nat)
    requires i < |ts| <= |us| && us[i].handler == ts[i].handler && DistinctTimers(us)
    ensures |WithoutTimer(us, ts[i].handler)| == |us| - 1 && DistinctTimers(WithoutTimer(us, ts[i].handler))
  {
    CutAt(us, i);
  }

  lemma {:induction false} FiringFacts(s: State, s1: State, i: nat, u: Timer)
    requires i < |s.timed| && u.handler == s.timed[i].handler && AfterFiring(s, s1, i, u)
    ensures |s.timed| <= |s1.timed| && s1.timed[i] == u && DistinctTimers(s1.timed)
    ensures s1.authenticated == s.authenticated
  {
    hide DistinctTimers, AllIdle, FiredOf;
  }

  lemma {:induction false} StampedAt(s: State, env: Env, i: nat)
    requires i < |s.timed|
    ensures |Stamped(s, env, i).timed| == |s.timed|
    ensures Stamped(s, env, i).timed[i] == s.timed[i].(lastStamp := env(s.tick + 1).now)
  {
  }

  lemma {:induction false} RingPasses(s: State, env: Env, i: nat, r: nat)
    requires 0 < r && i + r <= |s.timed| && DistinctTimers(s.timed) && !FireTimers(s, env, i, r).stopped && !s.stopped
    requires Eligible(s, s.timed[i].handler) && Elapsed(s.timed[i].lastStamp, env(s.tick).now) >= s.timed[i].period
    ensures PassHolds(s, env, i, r)
    decreases r, 0
  {
    hide *;
    StampedAt(s, env, i);
    var t := s.timed[i];
    var stamped := Stamped(s, env, i);
    var u := stamped.timed[i];
    var s1 := OnTimer(stamped, env, t.handler);
    FiresAt(s, env, i);
    FiringFacts(s, s1, i, u);
    RingUnfolds(s, env, i, r);
    if t.handler.User? && env(stamped.tick).keep {
      PassOutcome(s1, env, i + 1, r - 1);
      PassMeans(s1, env, i + 1, r - 1);
      OutcomeStays(s, s1, FireTimers(s1, env, i + 1, r - 1), i, r, u, env(s.tick).now, Verdicts(s1, env, i + 1, r - 1));
    } else {
      CutLength(s.timed, s1.timed, i);
      var s2 := DeleteTimed(s1, t.handler);
      CutTimers(s1, t.handler);
      PassOutcome(s2, env, i, r - 1);
      PassMeans(s2, env, i, r - 1);
      OutcomeLeaves(s, s1, FireTimers(s2, env, i, r - 1), i, r, u, env(s.tick).now, Verdicts(s2, env, i, r - 1));
    }
    PassMeans(s, env, i, r);
  }

  lemma {:induction false} PassMeans(s: State, env: Env, i: nat, r: nat)
    requires i + r <= |s.timed|
    ensures PassHolds(s, env, i, r) <==> Outcome(s, FireTimers(s, env, i, r), i, r, Verdicts(s, env, i, r))
  {
    hide FireTimers, Verdicts, Outcome;
  }

  lemma {:induction false} CutTimers(s: State, h: Handler)
    ensures DeleteTimed(s, h).timed == WithoutTimer(s.timed, h)
  {
    hide WithoutTimer;
  }

  // ------------------------------------------------------ what the verdicts mean

  /** The time between two readings of the clock, modulo 2^64 if the clock went back. */
  function Passed(from: nat, to: nat): nat {
    if from <= to < from + 0x1_0000_0000_0000_0000 then to - from else (to - from) % 0x1_0000_0000_0000_0000
  }

  lemma {:induction false} ElapsedIsPassed(from: nat, to: nat)
    ensures Elapsed(from, to) == Passed(from, to)
  {
  }

  /** A timer judged by the n-th answer from outside, and stamped by the next; its handler is
      the user's and returns true, by the one after that, if it stays. */
  predicate Judged(authenticated: bool, t: Timer, env: Env, n: nat, v: Verdict) {
    if t.handler.User? && !authenticated then v == Barred
    else if Passed(t.lastStamp, env(n).now) < t.period then v == Waits(t.period - Passed(t.lastStamp, env(n).now))
    else v.Rings? && v.at == env(n).now && v.stamp == env(n + 1).now && (v.stays <==> t.handler.User? && env(n + 2).keep)
  }

  /** A timer judged when it was looked at. */
  predicate JudgedThen(s: State, seen: State, env: Env, t: Timer, v: Verdict) {
    s.tick <= seen.tick && Judged(s.authenticated, t, env, seen.tick, v)
  }

  lemma {:induction false} JudgedLater(s: State, s1: State, seen: State, env: Env, t: Timer, v: Verdict)
    requires JudgedThen(s1, seen, env, t, v) && s.tick <= s1.tick && s1.authenticated == s.authenticated
    ensures JudgedThen(s, seen, env, t, v)
  {
    hide Judged;
  }

  /** Every timer that was there is judged by the clock when it is looked at: it fires just
      if it may and its period is over. */
  lemma {:induction false} VerdictsAreJudged(s: State, env: Env, i: nat, r: nat, k: nat)
    requires i + r <= |s.timed| && DistinctTimers(s.timed) && k < |Verdicts(s, env, i, r)|
    ensures i + k < |s.timed| && (!FireTimers(s, env, i, r).stopped ==> |Verdicts(s, env, i, r)| == r)
    ensures JudgedThen(s, LookedAt(s, env, i, r, k), env, s.timed[i + k], Verdicts(s, env, i, r)[k])
    decreases r, 3
  {
    VerdictsFit(s, env, i, r);
    if !FireTimers(s, env, i, r).stopped {
      PassOutcome(s, env, i, r);
      OutcomeFits(s, env, i, r);
    }
    var t := s.timed[i];
    if k == 0 {
      FirstJudged(s, env, i, r);
    } else if !Eligible(s, t.handler) {
      hide *;
      LaterBarred(s, env, i, r, k);
    } else if Elapsed(t.lastStamp, env(s.tick).now) < t.period {
      hide *;
      LaterWaits(s, env, i, r, k);
    } else {
      hide *;
      LaterRings(s, env, i, r, k);
    }
  }

  lemma {:induction false} OutcomeFits(s: State, env: Env, i: nat, r: nat)
    requires i + r <= |s.timed| && PassHolds(s, env, i, r)
    ensures |Verdicts(s, env, i, r)| == r
  {
    hide FireTimers, Verdicts, TimersLeft, Ringers, FiredOf;
  }

  /** As many verdicts as timers, fewer if the run stops on the way. */
  lemma {:induction false} VerdictsFit(s: State, env: Env, i: nat, r: nat)
    ensures |Verdicts(s, env, i, r)| <= r && (Verdicts(s, env, i, r) != [] ==> 0 < r && !s.stopped)
    decreases r
  {
    hide OnTimer, Stamped, Eligible, Elapsed, DeleteTimed;
    if r > 0 && !s.stopped && i < |s.timed| {
      var t := s.timed[i];
      if !Eligible(s, t.handler) {
        VerdictsFit(s, env, i + 1, r - 1);
      } else if Elapsed(t.lastStamp, env(s.tick).now) < t.period {
        VerdictsFit(s.(tick := s.tick + 1), env, i + 1, r - 1);
      } else {
        RingUnfolds(s, env, i, r);
        hide Verdicts;
        var s1 := OnTimer(Stamped(s, env, i), env, t.handler);
        VerdictsFit(s1, env, i + 1, r - 1);
        VerdictsFit(DeleteTimed(s1, t.handler), env, i, r - 1);
      }
    }
  }

  lemma {:induction false} FirstJudged(s: State, env: Env, i: nat, r: nat)
    requires 0 < r && i + r <= |s.timed| && !s.stopped
    ensures |Verdicts(s, env, i, r)| > 0
    ensures JudgedThen(s, LookedAt(s, env, i, r, 0), env, s.timed[i], Verdicts(s, env, i, r)[0])
  {
    hide OnTimer, WithoutTimer;
    FirstLook(s, env, i, r);
    ElapsedIsPassed(s.timed[i].lastStamp, env(s.tick).now);
    hide Elapsed, Passed;
    assert Judged(s.authenticated, s.timed[i], env, s.tick, Verdicts(s, env, i, r)[0]);
  }

  /** A pass over a first timer and then over the rest, from another state. */
  ghost predicate Continues(s: State, s1: State, env: Env, i: nat, j: nat, r: nat, k: nat, v: Verdict) {
    && 0 < r && 0 < k && LookedAt(s, env, i, r, k) == LookedAt(s1, env, j, r - 1, k - 1)
    && Verdicts(s, env, i, r) == [v] + Verdicts(s1, env, j, r - 1)
    && s.tick <= s1.tick && s1.authenticated == s.authenticated && DistinctTimers(s1.timed)
  }

  lemma {:induction false} LaterJudged(s: State, s1: State, env: Env, i: nat, j: nat, r: nat, k: nat, v: Verdict)
    requires Continues(s, s1, env, i, j, r, k, v) && 0 < k < r && i + r <= |s.timed| && j + r - 1 <= |s1.timed|
    requires s1.timed[j + (k - 1)] == s.timed[i + k] && k < |Verdicts(s, env, i, r)|
    ensures JudgedThen(s, LookedAt(s, env, i, r, k), env, s.timed[i + k], Verdicts(s, env, i, r)[k])
    decreases r, 0
  {
    hide DistinctTimers, JudgedThen, FireTimers, Verdicts, LookedAt;
    VerdictsAreJudged(s1, env, j, r - 1, k - 1);
    JudgedLater(s, s1, LookedAt(s, env, i, r, k), env, s.timed[i + k], Verdicts(s1, env, j, r - 1)[k - 1]);
  }

  lemma {:induction false} LaterBarred(s: State, env: Env, i: nat, r: nat, k: nat)
    requires 0 < k < r && i + r <= |s.timed| && DistinctTimers(s.timed) && k < |Verdicts(s, env, i, r)| && !s.stopped
    requires !Eligible(s, s.timed[i].handler)
    ensures JudgedThen(s, LookedAt(s, env, i, r, k), env, s.timed[i + k], Verdicts(s, env, i, r)[k])
    decreases r, 1
  {
    hide DistinctTimers, OnTimer, Eligible, WithoutTimer, Elapsed, Stamped, JudgedThen;
    LookedUnfolds(s, env, i, r, k);
    LaterJudged(s, s, env, i, i + 1, r, k, Barred);
  }

  lemma {:induction false} LaterWaits(s: State, env: Env, i: nat, r: nat, k: nat)
    requires 0 < k < r && i + r <= |s.timed| && DistinctTimers(s.timed) && k < |Verdicts(s, env, i, r)| && !s.stopped
    requires Eligible(s, s.timed[i].handler) && Elapsed(s.timed[i].lastStamp, env(s.tick).now) < s.timed[i].period
    ensures JudgedThen(s, LookedAt(s, env, i, r, k), env, s.timed[i + k], Verdicts(s, env, i, r)[k])
    decreases r, 1
  {
    hide DistinctTimers, OnTimer, Eligible, WithoutTimer, Elapsed, Stamped, JudgedThen;
    LookedUnfolds(s, env, i, r, k);
    var t := s.timed[i];
    LaterJudged(s, s.(tick := s.tick + 1), env, i, i + 1, r, k, Waits(t.period - Elapsed(t.lastStamp, env(s.tick).now)));
  }

  lemma {:induction false} RingUnfolds(s: State, env: Env, i: nat, r: nat)
    requires 0 < r && i < |s.timed| && !s.stopped
    requires Eligible(s, s.timed[i].handler) && Elapsed(s.timed[i].lastStamp, env(s.tick).now) >= s.timed[i].period
    ensures var t := s.timed[i];
      var stamped := Stamped(s, env, i);
      var s1 := OnTimer(stamped, env, t.handler);
      var stays := t.handler.User? && env(stamped.tick).keep;
      var v := Rings(env(s.tick).now, env(s.tick + 1).now, stays);
      if stays then
        && FireTimers(s, env, i, r) == FireTimers(s1, env, i + 1, r - 1)
        && Verdicts(s, env, i, r) == [v] + Verdicts(s1, env, i + 1, r - 1)
      else
        && FireTimers(s, env, i, r) == FireTimers(DeleteTimed(s1, t.handler), env, i, r - 1)
        && Verdicts(s, env, i, r) == [v] + Verdicts(DeleteTimed(s1, t.handler), env, i, r - 1)
  {
    hide OnTimer, Eligible, Elapsed, Stamped, DeleteTimed;
  }

  lemma {:induction false} ContinuesWhen(s: State, s1: State, env: Env, i: nat, j: nat, r: nat, k: nat, v: Verdict)
    requires 0 < r && 0 < k && LookedAt(s, env, i, r, k) == LookedAt(s1, env, j, r - 1, k - 1)
    requires Verdicts(s, env, i, r) == [v] + Verdicts(s1, env, j, r - 1)
    requires s.tick <= s1.tick && s1.authenticated == s.authenticated && DistinctTimers(s1.timed)
    ensures Continues(s, s1, env, i, j, r, k, v)
  {
    hide FireTimers, Verdicts, DistinctTimers, LookedAt;
  }

  lemma {:induction false} CutDistinct(s: State, h: Handler)
    requires DistinctTimers(s.timed)
    ensures DistinctTimers(DeleteTimed(s, h).timed) && DeleteTimed(s, h).tick == s.tick
    ensures DeleteTimed(s, h).authenticated == s.authenticated
  {
    WithoutTimerCuts(s.timed, h);
    hide WithoutTimer;
  }

  lemma {:induction false} RingStays(s: State, env: Env, i: nat, r: nat, k: nat, s1: State)
    requires 0 < k < r && i + r <= |s.timed| && k < |Verdicts(s, env, i, r)| && !s.stopped
    requires Eligible(s, s.timed[i].handler) && Elapsed(s.timed[i].lastStamp, env(s.tick).now) >= s.timed[i].period
    requires s1 == OnTimer(Stamped(s, env, i), env, s.timed[i].handler)
    requires s.timed[i].handler.User? && env(Stamped(s, env, i).tick).keep
    requires s.tick <= s1.tick && AfterFiring(s, s1, i, Stamped(s, env, i).timed[i])
    ensures JudgedThen(s, LookedAt(s, env, i, r, k), env, s.timed[i + k], Verdicts(s, env, i, r)[k])
    decreases r, 1
  {
    hide *;
    StampedAt(s, env, i);
    FiringFacts(s, s1, i, Stamped(s, env, i).timed[i]);
    LaterTimer(s, s1, i, Stamped(s, env, i).timed[i], i + k);
    RingUnfolds(s, env, i, r);
    var v := Rings(env(s.tick).now, env(s.tick + 1).now, true);
    LookedUnfolds(s, env, i, r, k);
    ContinuesWhen(s, s1, env, i, i + 1, r, k, v);
    LaterJudged(s, s1, env, i, i + 1, r, k, v);
  }

  lemma {:induction false} RingLeaves(s: State, env: Env, i: nat, r: nat, k: nat, s1: State)
    requires 0 < k < r && i + r <= |s.timed| && k < |Verdicts(s, env, i, r)| && !s.stopped
    requires Eligible(s, s.timed[i].handler) && Elapsed(s.timed[i].lastStamp, env(s.tick).now) >= s.timed[i].period
    requires s1 == OnTimer(Stamped(s, env, i), env, s.timed[i].handler)
    requires !(s.timed[i].handler.User? && env(Stamped(s, env, i).tick).keep)
    requires s.tick <= s1.tick && AfterFiring(s, s1, i, Stamped(s, env, i).timed[i])
    ensures JudgedThen(s, LookedAt(s, env, i, r, k), env, s.timed[i + k], Verdicts(s, env, i, r)[k])
    decreases r, 1
  {
    var s2 := DeleteTimed(s1, s.timed[i].handler);
    FiringFacts(s, s1, i, Stamped(s, env, i).timed[i]);
    LaterTimer(s, s1, i, Stamped(s, env, i).timed[i], i + k);
    CutLength(s.timed, s1.timed, i);
    CutAt(s1.timed, i);
    assert s2.timed[i + (k - 1)] == s1.timed[i + k];
    assert s2.authenticated == s.authenticated;
    RingUnfolds(s, env, i, r);
    CutDistinct(s1, s.timed[i].handler);
    hide *;
    var v := Rings(env(s.tick).now, env(s.tick + 1).now, false);
    LookedUnfolds(s, env, i, r, k);
    ContinuesWhen(s, s2, env, i, i, r, k, v);
    LaterJudged(s, s2, env, i, i, r, k, v);
  }

  lemma {:induction false} LaterRings(s: State, env: Env, i: nat, r: nat, k: nat)
    requires 0 < k < r && i + r <= |s.timed| && DistinctTimers(s.timed) && k < |Verdicts(s, env, i, r)| && !s.stopped
    requires Eligible(s, s.timed[i].handler) && Elapsed(s.timed[i].lastStamp, env(s.tick).now) >= s.timed[i].period
    ensures JudgedThen(s, LookedAt(s, env, i, r, k), env, s.timed[i + k], Verdicts(s, env, i, r)[k])
    decreases r, 2
  {
    var stamped := Stamped(s, env, i);
    var s1 := OnTimer(stamped, env, s.timed[i].handler);
    assert s.tick <= stamped.tick;
    FiresAt(s, env, i);
    OnTimerClocked(stamped, env, s.timed[i].handler);
    assert s.tick <= s1.tick;
    hide *;
    if s.timed[i].handler.User? && env(stamped.tick).keep {
      RingStays(s, env, i, r, k, s1);
    } else {
      RingLeaves(s, env, i, r, k, s1);
    }
  }

  lemma {:induction false} LaterTimer(s: State, s1: State, i: nat, u: Timer, j: nat)
    requires i < j < |s.timed| && AfterFiring(s, s1, i, u)
    ensures j < |s1.timed| && s1.timed[j] == s.timed[j]
  {
  }

  /** The result of a pass when no timer waits: (uint64_t)-1. */
  const NEVER: nat := 0xFFFF_FFFF_FFFF_FFFF

  function Least(vs: seq<Verdict>, min: nat): nat {
    if vs == [] then min
    else Least(vs[1..], if vs[0].Waits? && min > vs[0].left then vs[0].left else min)
  }

  lemma {:induction false} NeverIs()
    ensures NEVER == 0xFFFF_FFFF_FFFF_FFFF
  {
  }

  /** It is a lower bound of the waits, and one of them if any is below the start. */
  lemma {:induction false} LeastIsLeast(vs: seq<Verdict>, min: nat)
    ensures Least(vs, min) <= min
    ensures forall k :: 0 <= k < |vs| && vs[k].Waits? ==> Least(vs, min) <= vs[k].left
    ensures Least(vs, min) == min || exists k :: 0 <= k < |vs| && vs[k] == Waits(Least(vs, min))
  {
    if vs != [] {
      var next := if vs[0].Waits? && min > vs[0].left then vs[0].left else min;
      LeastIsLeast(vs[1..], next);
      forall k | 0 <= k < |vs| && vs[k].Waits? ensures Least(vs, min) <= vs[k].left {
        if k > 0 {
          assert vs[k] == vs[1..][k - 1];
        }
      }
      if k :| 0 <= k < |vs[1..]| && vs[1..][k] == Waits(Least(vs[1..], next)) {
        assert vs[k + 1] == Waits(Least(vs, min));
      } else if next != min {
        assert vs[0] == Waits(Least(vs, min));
      }
    }
  }
}
