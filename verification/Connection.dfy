/** A connection as the object it is: the fields of `xmpp_conn_t` that the negotiation
    uses, the functions of src/auth.c, src/handler.c, src/conn.c and src/event.c as
    methods that change them. Each does to the state of the object what the function of
    the same name in Negotiation does. */
module Connections {
  import opened Common
  import opened Stanzas
  import opened Negotiation
  import N = Negotiation
  import Clocks
  import Frames
  import IdChains
  import AuthSafety
  import TimerPass
  import Dispatch
  import Timers

  /** Cutting out the first timer of a function is what deleting it means. */
  lemma {:induction false} FirstTimerCuts(ts: seq<Timer>, h: Handler, i: nat)
    requires i <= |ts| && (i < |ts| ==> ts[i].handler == h) && forall k :: 0 <= k < i ==> ts[k].handler != h
    ensures WithoutTimer(ts, h) == if i < |ts| then ts[..i] + ts[i + 1..] else ts
  {
    hide N.WithoutTimer;
    Clocks.WithoutTimerCuts(ts, h);
    assert Clocks.TimerAt(ts, h) == i;
  }

  lemma {:induction false} DeletedTimed(s: State, h: Handler)
    ensures N.DeleteTimed(s, h) == s.(timed := WithoutTimer(s.timed, h))
    ensures WithoutTimer(s.timed, h) == s.timed ==> N.DeleteTimed(s, h) == s
  {
    hide N.WithoutTimer;
  }

  lemma {:induction false} NoTls(s: State, env: Env, t: State)
    requires s.tlsSupport && !env(s.tick).tlsAvailable
    requires var s0 := Observe(s, AuthCalled(Left(s))); t == N.TlsAsked(s0, env).(tlsSupport := false)
    ensures N.TryAuth(s, env) == N.TryAuth(t, env)
  {
    hide N.AddHandler, N.Send, N.Left, N.TlsAsked;
  }

  lemma {:induction false} AsksTls(s: State, env: Env, t: State)
    requires s.tlsSupport && env(s.tick).tlsAvailable
    requires var s0 := Observe(s, AuthCalled(Left(s))); t == N.TlsAsked(s0, env)
    ensures N.TryAuth(s, env) == N.Send(N.AddHandler(t, HandleProceedTls, Some(NS_TLS), None, None), StartTls).(tlsSupport := false)
  {
    hide N.AddHandler, N.Send, N.Left, N.TlsAsked;
  }

  /** What was found so far, and what the rest holds. */
  function WithFound(found: set<Mechanism>, rest: Option<set<Mechanism>>): (r: Option<set<Mechanism>>)
    ensures found == {} ==> r == rest
    ensures rest == Some({}) ==> r == Some(found)
  {
    if rest.None? then None
    else
      assert {} + rest.value == rest.value && found + {} == found;
      Some(found + rest.value)
  }

  lemma {:induction false} FoundJoins(found: set<Mechanism>, more: set<Mechanism>, rest: Option<set<Mechanism>>)
    ensures WithFound(found, WithFound(more, rest)) == WithFound(found + more, rest)
  {
    if rest.Some? {
      assert found + (more + rest.value) == (found + more) + rest.value;
    }
  }

  ghost predicate AllEnabled(hs: seq<Entry>) {
    forall i :: 0 <= i < |hs| ==> hs[i].enabled
  }

  /** The list after a handler was called: it has grown at its end, by new entries. */
  lemma {:induction false} Grown(s: State, env: Env, h: Handler, st: Stanza)
    ensures var r := OnStanza(s, env, h, st);
      s.handlers <= r.handlers && Frames.AllNew(r.handlers[|s.handlers|..])
  {
    hide OnStanza, Frames.AllInner, Frames.AllNew, Frames.Distinct;
    Frames.OnStanzaExtends(s, env, h, st);
  }

  lemma {:induction false} EnabledRest(hs: seq<Entry>, i: nat, r: nat)
    requires 0 < r && i + r <= |hs| && AllEnabled(hs[i..i + r])
    ensures AllEnabled(hs[i + 1..i + 1 + (r - 1)]) && hs[i].enabled
  {
    assert hs[i..i + r][0] == hs[i];
    assert hs[i + 1..i + 1 + (r - 1)] == hs[i..i + r][1..];
  }

  lemma {:induction false} EnabledGrown(hs: seq<Entry>, more: seq<Entry>, i: nat, r: nat)
    requires 0 < r && i + r <= |hs| && AllEnabled(hs[i..i + r]) && Frames.AllNew(hs[i + r..])
    requires hs <= more && Frames.AllNew(more[|hs|..])
    ensures AllEnabled(more[i + 1..i + 1 + (r - 1)]) && Frames.AllNew(more[i + 1 + (r - 1)..])
    ensures var cut := RemoveAt(more, i);
      && i + (r - 1) <= |cut| && AllEnabled(cut[i..i + (r - 1)]) && Frames.AllNew(cut[i + (r - 1)..])
  {
    EnabledRest(hs, i, r);
    var cut := RemoveAt(more, i);
    assert more[i + 1..i + r] == hs[i + 1..i + r] == cut[i..i + (r - 1)];
    assert more[i + r..] == hs[i + r..] + more[|hs|..] == cut[i + (r - 1)..];
  }

  /** Where a dispatch stands: r enabled entries are left from position i on, and after
      them there are only new ones. */
  ghost predicate Going(hs: seq<Entry>, i: nat, r: nat) {
    i + r <= |hs| && AllEnabled(hs[i..i + r]) && Frames.AllNew(hs[i + r..])
  }

  /** A dispatch goes on after one entry, whether that stays or is taken out. */
  lemma {:induction false} GoingOn(hs: seq<Entry>, more: seq<Entry>, i: nat, r: nat)
    requires 0 < r && Going(hs, i, r) && hs <= more && (Frames.AllNew(more[|hs|..]) || more == hs)
    ensures i < |hs| && i < |more| && Going(more, i + 1, r - 1) && Going(RemoveAt(more, i), i, r - 1)
  {
    assert more == hs ==> more[|hs|..] == [];
    EnabledGrown(hs, more, i, r);
  }

  lemma {:induction false} EligibleIs(s: State, h: Handler)
    ensures Eligible(s, h) <==> !(h.User? && !s.authenticated)
  {
  }

  lemma {:induction false} StartsGoing(hs: seq<Entry>)
    ensures Going(Enabled(hs), 0, |hs|)
  {
  }

  lemma {:induction false} NextInLine(hs: seq<Entry>, i: nat, r: nat)
    requires Going(hs, i, r) && i < |hs|
    ensures hs[i].enabled <==> r > 0
    ensures r == 0 ==> Going(hs, i + 1, 0)
  {
    if r > 0 {
      assert hs[i..i + r][0] == hs[i];
    } else {
      assert hs[i + r..][0] == hs[i];
      assert hs[i + 1..] == hs[i..][1..];
    }
  }

  lemma {:induction false} EmptyDispatch(s: State, env: Env, st: Stanza, i: nat)
    ensures N.FireList(s, env, st, i, 0) == s && N.FireList(s, env, st, i + 1, 0) == s
  {
  }

  lemma {:induction false} DispatchOver(s: State, env: Env, st: Stanza, i: nat, r: nat)
    requires s.stopped || i >= |s.handlers|
    ensures N.FireList(s, env, st, i, r) == s
  {
  }

  /** One call of a handler of an id, as far as its chain is concerned. */
  lemma {:induction false} IdCall(s: State, env: Env, st: Stanza, id: string, k: nat)
    requires AuthSafety.Kept(s) && s.busyId == Some(id) && Id(st) == Some(id) && !s.stopped && k < |Chain(s.ids, id)|
    requires Eligible(s, Chain(s.ids, id)[k])
    ensures var r := OnStanza(s, env, Chain(s.ids, id)[k], st);
      AuthSafety.Kept(r) && r.busyId == s.busyId && (r.stopped || Chain(r.ids, id) == Chain(s.ids, id))
  {
    AuthSafety.KeptRuns(s);
    hide OnStanza, AuthSafety.Inv, AuthSafety.Kept, AuthSafety.MayRun, Id, Eligible, Chain;
    AuthSafety.IdMayRun(s, st, id, k);
    AuthSafety.OnStanzaKeeps(s, env, Chain(s.ids, id)[k], st);
    IdChains.InChain(s, id, k);
    IdChains.OnStanzaChain(s, env, Chain(s.ids, id)[k], st, id);
  }

  lemma {:induction false} IdsOver(s: State, env: Env, st: Stanza, id: string, k: nat, prev: nat, r: nat)
    requires s.stopped || k >= |Chain(s.ids, id)|
    ensures N.FireIds(s, env, st, id, k, prev, r) == s
  {
  }

  lemma {:induction false} BusyKeeps(s: State, st: Stanza)
    requires AuthSafety.Inv(s) && !s.stopped
    ensures AuthSafety.Inv(Observe(s, Received(st)).(busyId := Id(st)))
  {
    hide AuthSafety.Inv, Id;
    AuthSafety.ReceivedKeeps(s, st);
    AuthSafety.BusyKeeps(Observe(s, Received(st)), Id(st));
    AuthSafety.KeptRuns(Observe(s, Received(st)).(busyId := Id(st)));
  }

  /** The parts of a dispatch, put together. */
  lemma {:induction false} StanzaFired(s: State, env: Env, st: Stanza, s1: State, t: State)
    requires var s0 := Observe(s, Received(st));
      if Id(st).None? then s1 == s0
      else s1 == N.FireIds(s0.(busyId := Id(st)), env, st, Id(st).value, 0, 0, |Chain(s0.(busyId := Id(st)).ids, Id(st).value)|).(busyId := None)
    requires s1.stopped ==> t == s1
    requires !s1.stopped ==> t == N.FireList(s1.(handlers := Enabled(s1.handlers)), env, st, 0, |s1.handlers|)
    ensures t == N.FireStanza(s, env, st)
  {
    hide N.FireIds, N.FireList, Id, Chain, Enabled;
  }

  lemma {:induction false} TimerHandled(s: State, env: Env, h: Handler, t: State)
    requires var s0 := Observe(s, Fired(h));
      t == (match h case MissingFeatures => N.TryAuth(s0, env) case DisconnectCleanup => N.ConnDisconnect(s0, env)
                    case User(_) => N.Callback(s0, env) case _ => N.XmppDisconnect(s0, env))
    ensures t == OnTimer(s, env, h)
  {
  }

  ghost predicate TimersOn(ts: seq<Timer>) {
    forall i :: 0 <= i < |ts| ==> ts[i].enabled
  }

  /** Where a pass over the timers stands, as Going for the list of stanza handlers. */
  ghost predicate Ticking(ts: seq<Timer>, i: nat, r: nat) {
    i + r <= |ts| && TimersOn(ts[i..i + r]) && TimerPass.AllIdle(ts[i + r..]) && Clocks.DistinctTimers(ts)
  }

  lemma {:induction false} StartsTicking(ts: seq<Timer>)
    requires Clocks.DistinctTimers(ts)
    ensures Ticking(EnabledTimers(ts), 0, |ts|)
  {
  }

  lemma {:induction false} NextTimer(ts: seq<Timer>, i: nat, r: nat)
    requires Ticking(ts, i, r) && i < |ts|
    ensures ts[i].enabled <==> r > 0
    ensures r == 0 ==> Ticking(ts, i + 1, 0)
    ensures r > 0 ==> Ticking(ts, i + 1, r - 1)
  {
    hide Clocks.DistinctTimers;
    if r > 0 {
      assert ts[i..i + r][0] == ts[i];
      assert ts[i + 1..i + 1 + (r - 1)] == ts[i..i + r][1..];
    } else {
      assert ts[i + r..][0] == ts[i];
      assert ts[i + 1..] == ts[i..][1..];
    }
  }

  lemma {:induction false} LeastNext(v: TimerPass.Verdict, vs: seq<TimerPass.Verdict>, min: nat)
    ensures TimerPass.Least([v] + vs, min) == TimerPass.Least(vs, if v.Waits? && min > v.left then v.left else min)
  {
    assert ([v] + vs)[1..] == vs;
  }

  lemma {:induction false} BarredStep(s: State, env: Env, i: nat, r: nat, min: nat)
    requires 0 < r && !s.stopped && Ticking(s.timed, i, r) && i < |s.timed| && !Eligible(s, s.timed[i].handler)
    ensures N.FireTimers(s, env, i + 1, r - 1) == N.FireTimers(s, env, i, r)
    ensures Ticking(s.timed, i + 1, r - 1)
    ensures TimerPass.Least(TimerPass.Verdicts(s, env, i + 1, r - 1), min) == TimerPass.Least(TimerPass.Verdicts(s, env, i, r), min)
  {
    hide OnTimer, Stamped, Eligible, WithoutTimer, Ticking;
    NextTimer(s.timed, i, r);
    LeastNext(TimerPass.Barred, TimerPass.Verdicts(s, env, i + 1, r - 1), min);
  }

  lemma {:induction false} WaitingStep(s: State, env: Env, i: nat, r: nat, min: nat, least: nat)
    requires 0 < r && !s.stopped && Ticking(s.timed, i, r) && i < |s.timed| && Eligible(s, s.timed[i].handler)
    requires Elapsed(s.timed[i].lastStamp, env(s.tick).now) < s.timed[i].period
    requires var left := s.timed[i].period - Elapsed(s.timed[i].lastStamp, env(s.tick).now);
      if min > left then least == left else least == min
    ensures N.FireTimers(s.(tick := s.tick + 1), env, i + 1, r - 1) == N.FireTimers(s, env, i, r)
    ensures Ticking(s.timed, i + 1, r - 1)
    ensures TimerPass.Least(TimerPass.Verdicts(s.(tick := s.tick + 1), env, i + 1, r - 1), least)
      == TimerPass.Least(TimerPass.Verdicts(s, env, i, r), min)
  {
    hide OnTimer, Stamped, Eligible, WithoutTimer, Ticking, Elapsed;
    NextTimer(s.timed, i, r);
    LeastNext(TimerPass.Waits(s.timed[i].period - Elapsed(s.timed[i].lastStamp, env(s.tick).now)),
      TimerPass.Verdicts(s.(tick := s.tick + 1), env, i + 1, r - 1), min);
  }

  /** The list after a timer has fired, and after it was taken out. */
  lemma {:induction false} TickingGrown(ts: seq<Timer>, u: Timer, more: seq<Timer>, i: nat, r: nat)
    requires 0 < r && Ticking(ts, i, r) && u.handler == ts[i].handler
    requires TimerPass.Grows(ts[i := u], more) && Clocks.DistinctTimers(more)
    ensures Ticking(more, i + 1, r - 1) && Ticking(WithoutTimer(more, u.handler), i, r - 1)
  {
    NextTimer(ts, i, r);
    TimerPass.CutAt(more, i);
    var cut := more[..i] + more[i + 1..];
    assert more[i + 1..i + r] == ts[i + 1..i + r] == cut[i..i + (r - 1)];
    assert more[i + r..] == ts[i + r..] + more[|ts|..] == cut[i + (r - 1)..];
    hide WithoutTimer;
  }

  lemma {:induction false} RingTicks(s: State, env: Env, i: nat, r: nat)
    requires 0 < r && Ticking(s.timed, i, r) && i < |s.timed|
    ensures var s1 := OnTimer(Stamped(s, env, i), env, s.timed[i].handler);
      Ticking(s1.timed, i + 1, r - 1) && Ticking(DeleteTimed(s1, s.timed[i].handler).timed, i, r - 1)
  {
    hide OnTimer, Ticking, WithoutTimer, TimerPass.Grows, Clocks.DistinctTimers, TimerPass.FiredOf;
    assert Clocks.DistinctTimers(s.timed) by { TickingDistinct(s.timed, i, r); }
    TimerPass.FiresAt(s, env, i);
    var s1 := OnTimer(Stamped(s, env, i), env, s.timed[i].handler);
    TickingGrown(s.timed, Stamped(s, env, i).timed[i], s1.timed, i, r);
  }

  lemma {:induction false} TickingDistinct(ts: seq<Timer>, i: nat, r: nat)
    requires Ticking(ts, i, r)
    ensures Clocks.DistinctTimers(ts)
  {
  }

  lemma {:induction false} RingStep(s: State, env: Env, i: nat, r: nat, min: nat)
    requires 0 < r && !s.stopped && Ticking(s.timed, i, r) && i < |s.timed| && Eligible(s, s.timed[i].handler)
    requires Elapsed(s.timed[i].lastStamp, env(s.tick).now) >= s.timed[i].period
    ensures var h := s.timed[i].handler;
      var s1 := OnTimer(Stamped(s, env, i), env, h);
      var s2 := DeleteTimed(s1, h);
      if h.User? && env(Stamped(s, env, i).tick).keep then
        && N.FireTimers(s1, env, i + 1, r - 1) == N.FireTimers(s, env, i, r) && Ticking(s1.timed, i + 1, r - 1)
        && TimerPass.Least(TimerPass.Verdicts(s1, env, i + 1, r - 1), min) == TimerPass.Least(TimerPass.Verdicts(s, env, i, r), min)
      else
        && N.FireTimers(s2, env, i, r - 1) == N.FireTimers(s, env, i, r) && Ticking(s2.timed, i, r - 1)
        && TimerPass.Least(TimerPass.Verdicts(s2, env, i, r - 1), min) == TimerPass.Least(TimerPass.Verdicts(s, env, i, r), min)
  {
    var h := s.timed[i].handler;
    RingTicks(s, env, i, r);
    hide OnTimer, Stamped, Eligible, WithoutTimer, Ticking, Elapsed;
    var s1 := OnTimer(Stamped(s, env, i), env, h);
    if h.User? && env(Stamped(s, env, i).tick).keep {
      LeastNext(TimerPass.Rings(env(s.tick).now, env(s.tick + 1).now, true), TimerPass.Verdicts(s1, env, i + 1, r - 1), min);
    } else {
      LeastNext(TimerPass.Rings(env(s.tick).now, env(s.tick + 1).now, false), TimerPass.Verdicts(DeleteTimed(s1, h), env, i, r - 1), min);
    }
  }

  lemma {:induction false} NoTimerLeft(s: State, env: Env, i: nat)
    ensures N.FireTimers(s, env, i, 0) == N.FireTimers(s, env, i + 1, 0) == s
    ensures TimerPass.Verdicts(s, env, i, 0) == TimerPass.Verdicts(s, env, i + 1, 0)
  {
  }

  lemma {:induction false} NotTicking(s: State, env: Env)
    ensures N.FireTimed(s, env) == if s.stopped || s.link != Connected then s
      else N.FireTimers(s.(timed := EnabledTimers(s.timed)), env, 0, |s.timed|)
  {
    hide N.FireTimers, EnabledTimers;
  }

  lemma {:induction false} TimersOver(s: State, env: Env, i: nat, r: nat)
    requires s.stopped || i >= |s.timed|
    ensures N.FireTimers(s, env, i, r) == s && forall min: nat :: TimerPass.Least(TimerPass.Verdicts(s, env, i, r), min) == min
  {
  }

  /** What the methods need of the state, and keep. */
  ghost predicate Good(s: State) {
    AuthSafety.Kept(s) && Clocks.DistinctTimers(s.timed)
  }

  lemma {:induction false} InitIsGood(account: Account)
    ensures Good(Init(account))
  {
  }

  lemma {:induction false} GoodClocked(s: State, r: State, env: Env)
    requires Good(s) && AuthSafety.Kept(r) && Clocks.Clocked(s, r, env)
    ensures Good(r)
  {
    hide AuthSafety.Kept, Clocks.DistinctTimers, Clocks.AllPast, Clocks.AllSince;
  }

  lemma {:induction false} SaxKeeps(s: State, env: Env, x: Sax)
    requires Good(s)
    ensures Good(N.OnSax(s, env, x))
  {
    hide N.OnSax, AuthSafety.Kept, Clocks.Clocked, Clocks.DistinctTimers;
    AuthSafety.OnSaxKeeps(s, env, x);
    Timers.OnSaxClocked(s, env, x);
    GoodClocked(s, N.OnSax(s, env, x), env);
  }

  lemma {:induction false} IoKeeps(s: State, env: Env, io: Io)
    requires Good(s)
    ensures Good(N.OnIo(s, env, io))
  {
    hide N.OnIo, AuthSafety.Kept, Clocks.Clocked, Clocks.DistinctTimers;
    AuthSafety.OnIoKeeps(s, env, io);
    Timers.OnIoClocked(s, env, io);
    GoodClocked(s, N.OnIo(s, env, io), env);
  }

  lemma {:induction false} TimedKeeps(s: State, env: Env)
    requires Good(s)
    ensures Good(N.FireTimed(s, env))
  {
    hide AuthSafety.Kept, N.FireTimers, TimerPass.Verdicts;
    AuthSafety.FireTimedIsKept(s, env);
    var s1 := s.(timed := EnabledTimers(s.timed));
    TimersDistinct(s1, env, 0, |s.timed|);
  }

  lemma {:induction false} TimersDistinct(s: State, env: Env, i: nat, r: nat)
    requires Clocks.DistinctTimers(s.timed)
    ensures Clocks.DistinctTimers(N.FireTimers(s, env, i, r).timed)
    decreases r
  {
    hide OnTimer, Stamped, Eligible, WithoutTimer, Elapsed, Clocks.DistinctTimers, Clocks.AllPast, Clocks.AllSince;
    if !(r == 0 || s.stopped || i >= |s.timed|) {
      var h := s.timed[i].handler;
      if !Eligible(s, h) {
        TimersDistinct(s, env, i + 1, r - 1);
      } else if Elapsed(s.timed[i].lastStamp, env(s.tick).now) < s.timed[i].period {
        TimersDistinct(s.(tick := s.tick + 1), env, i + 1, r - 1);
      } else {
        TimerPass.StampedDistinct(s, env, i);
        var s1 := OnTimer(Stamped(s, env, i), env, h);
        Clocks.OnTimerClocked(Stamped(s, env, i), env, h);
        Clocks.DeleteTimedClocked(s1, env, h);
        if h.User? && env(Stamped(s, env, i).tick).keep {
          TimersDistinct(s1, env, i + 1, r - 1);
        } else {
          TimersDistinct(DeleteTimed(s1, h), env, i, r - 1);
        }
      }
    }
  }

  lemma {:induction false} PassKeeps(s: State, env: Env, writeFails: bool)
    requires Good(s) && !s.stopped
    ensures Good(AfterReset(AfterWrite(s, env, writeFails)))
  {
    hide AuthSafety.Kept, AfterReset, AfterWrite, Clocks.Clocked, Clocks.DistinctTimers;
    AuthSafety.AfterWriteKeeps(s, env, writeFails);
    AuthSafety.AfterResetKeeps(AfterWrite(s, env, writeFails));
    Timers.BeforeIoClocked(s, env, writeFails);
    GoodClocked(s, AfterReset(AfterWrite(s, env, writeFails)), env);
  }

  lemma {:induction false} PassParts(s: State, env: Env, writeFails: bool, io: Io)
    ensures var s1 := N.OnIo(N.FireTimed(AfterReset(AfterWrite(s, env, writeFails)), env), env, io);
      && (io == Idle ==> N.RunOnce(s, env, writeFails, io) == s1)
      && (io != Idle ==> N.RunOnce(s, env, writeFails, io) == N.FireTimed(s1, env))
  {
  }

  lemma {:induction false} StepKeeps(s: State, env: Env, e: Event)
    requires Good(s)
    ensures Good(N.Step(s, env, e))
  {
    hide AuthSafety.Kept, N.RunOnce, N.Act, DropUser, Clocks.Clocked, Clocks.DistinctTimers;
    AuthSafety.StepKeeps(s, env, e);
    if !s.stopped {
      match e
      case Pass(writeFails, io) => OnceKeeps(s, env, writeFails, io);
      case Call(action) =>
        Clocks.ActClocked(s, env, action);
        GoodClocked(s, N.Act(s, env, action), env);
      case Drop(h, id) =>
        Timers.DropClocked(s, h, id, env);
        if h.User? {
          GoodClocked(s, DropUser(s, h, id), env);
        }
    }
  }

  lemma {:induction false} OnceKeeps(s: State, env: Env, writeFails: bool, io: Io)
    requires Good(s) && !s.stopped
    ensures Good(N.RunOnce(s, env, writeFails, io))
  {
    hide Good, AfterReset, AfterWrite, N.FireTimed, N.OnIo;
    var s1 := AfterReset(AfterWrite(s, env, writeFails));
    PassKeeps(s, env, writeFails);
    TimedKeeps(s1, env);
    IoKeeps(N.FireTimed(s1, env), env, io);
    TimedKeeps(N.OnIo(N.FireTimed(s1, env), env, io), env);
  }

  /** Where the search for a timer ends. */
  lemma {:induction false} Found(ts: seq<Timer>, h: Handler, i: nat)
    requires i <= |ts| && (i < |ts| ==> ts[i].handler == h) && forall k :: 0 <= k < i ==> ts[k].handler != h
    ensures IsTimed(ts, h) <==> i < |ts|
  {
  }

  lemma {:induction false} Dropping(s: State, h: Handler, id: string)
    ensures DropUser(s, h, id)
      == s.(handlers := WithoutEntry(s.handlers, h), ids := WithoutId(s.ids, h, id), timed := WithoutTimer(s.timed, h))
  {
    hide WithoutEntry, WithoutId, WithoutTimer;
  }

  lemma {:induction false} StampedIs(s: State, env: Env, i: nat)
    requires i < |s.timed|
    ensures Stamped(s, env, i) == s.(timed := s.timed[i := s.timed[i].(lastStamp := env(s.tick + 1).now)], tick := s.tick + 2)
  {
  }

  lemma {:induction false} HeaderRead(s: State, name: string, hasId: bool, known: bool)
    requires known == (s.hasStreamId || (name == "stream:stream" && hasId))
    ensures s.(inStream := true, hasStreamId := known) == N.InStream(s, name, hasId)
  {
  }

  class Conn {
    const account: Account
    var link: Link
    var tlsSupport: bool
    var tlsDisabled: bool
    var sasl: set<Mechanism>
    var secured: bool
    var bindRequired: bool
    var sessionRequired: bool
    var authenticated: bool
    var openHandler: OpenHandler
    var resetParser: bool
    var inStream: bool
    var streamDone: bool
    var hasStreamId: bool
    var handlers: seq<Entry>
    var ids: map<string, seq<Handler>>
    var timed: seq<Timer>
    var busyId: Option<string>
    var stopped: bool
    var tick: nat
    ghost var history: seq<Obs>

    ghost function View(): State
      reads this
    {
      State(account, link, tlsSupport, tlsDisabled, sasl, secured, bindRequired, sessionRequired, authenticated,
        openHandler, resetParser, inStream, streamDone, hasStreamId, handlers, ids, timed, busyId, stopped, tick, history)
    }

    constructor (account: Account)
      ensures View() == Init(account) && Good(View())
    {
      this.account := account;
      link, openHandler, resetParser := Connecting, AuthOpen, true;
      tlsSupport, tlsDisabled, sasl, secured := false, false, {}, false;
      bindRequired, sessionRequired, authenticated := false, false, false;
      inStream, streamDone, hasStreamId := false, false, false;
      handlers, ids, timed, busyId := [], map[], [], None;
      stopped, tick := false, 0;
      history := [];
      new;
      hide Good;
      InitIsGood(account);
    }

    lemma {:induction false} Fields()
      ensures View().stopped == stopped && View().handlers == handlers && View().ids == ids && View().timed == timed
      ensures View().busyId == busyId && View().authenticated == authenticated && View().link == link && View().tick == tick
    {
    }

    // ---------------------------------------------------- sending and registering

    method Send(m: Message)
      modifies this
      ensures View() == N.Send(old(View()), m)
    {
      history := history + [if link == Connected then Queued(m) else Dropped(m)];
    }

    /** `_handler_add`: a search through the list, and an append at its end. */
    method AddHandler(h: Handler, ns: Option<string>, name: Option<string>, typ: Option<string>)
      modifies this
      ensures View() == N.AddHandler(old(View()), h, ns, name, typ)
    {
      var i := 0;
      while i < |handlers| && handlers[i].handler != h
        invariant 0 <= i <= |handlers| && View() == old(View())
        invariant forall k :: 0 <= k < i ==> handlers[k].handler != h
      {
        i := i + 1;
      }
      if i == |handlers| {
        handlers := handlers + [Entry(h, ns, name, typ, false)];
      }
    }

    /** `_id_handler_add`. */
    method AddId(h: Handler, id: string)
      modifies this
      ensures View() == N.AddId(old(View()), h, id)
    {
      var chain := if id in ids then ids[id] else [];
      var i := 0;
      while i < |chain| && chain[i] != h
        invariant 0 <= i <= |chain|
        invariant forall k :: 0 <= k < i ==> chain[k] != h
      {
        i := i + 1;
      }
      if i == |chain| {
        ids := ids[id := chain + [h]];
      }
    }

    /** `_timed_handler_add`. */
    method AddTimed(env: Env, h: Handler, period: nat)
      modifies this
      ensures View() == N.AddTimed(old(View()), env, h, period)
    {
      hide *;
      var i := 0;
      while i < |timed| && timed[i].handler != h
        invariant 0 <= i <= |timed| && View() == old(View())
        invariant forall k :: 0 <= k < i ==> timed[k].handler != h
      {
        i := i + 1;
      }
      Fields();
      Found(timed, h, i);
      AddTimedCases(View(), env, h, period);
      if i == |timed| {
        SetTimers(timed + [Timer(h, period, env(tick).now, false)], tick + 1);
      }
    }

    method SetTimers(ts: seq<Timer>, n: nat)
      modifies this`timed, this`tick
      ensures View() == old(View()).(timed := ts, tick := n)
    {
      timed, tick := ts, n;
    }

    /** `xmpp_timed_handler_delete`: unlinks the first item of the function. */
    method DeleteTimed(h: Handler)
      modifies this
      ensures View() == N.DeleteTimed(old(View()), h)
    {
      var i := 0;
      while i < |timed| && timed[i].handler != h
        invariant 0 <= i <= |timed|
        invariant forall k :: 0 <= k < i ==> timed[k].handler != h
      {
        i := i + 1;
      }
      FirstTimerCuts(timed, h, i);
      DeletedTimed(View(), h);
      hide *;
      Fields();
      if i < |timed| {
        SetTimed(timed[..i] + timed[i + 1..]);
      }
    }

    method SetTimed(ts: seq<Timer>)
      modifies this`timed
      ensures timed == ts && View() == old(View()).(timed := ts)
    {
      timed := ts;
    }

    method XmppDisconnect(env: Env)
      modifies this
      ensures View() == N.XmppDisconnect(old(View()), env)
    {
      if link != Disconnected {
        Send(StreamFooter);
        AddTimed(env, DisconnectCleanup, DISCONNECT_TIMEOUT);
      }
    }

    // ---------------------------------------------------------------- user code

    method Act(env: Env, a: Action)
      modifies this
      ensures View() == N.Act(old(View()), env, a)
    {
      hide *;
      ActCases(View(), env, a);
      Fields();
      match a
      case AddStanza(n, ns, name, typ) => AddHandler(User(n), ns, name, typ);
      case AddById(n, id) =>
        if busyId == Some(id) {
          Crash();
        } else {
          AddId(User(n), id);
        }
      case AddTimer(n, period) => AddTimed(env, User(n), period);
      case SendData(data) => Send(UserData(data));
      case Disconnect => XmppDisconnect(env);
      case DisableTls =>
        BarTls();
        Note(TlsBarred);
    }

    method BarTls()
      modifies this`tlsDisabled
      ensures View() == old(View()).(tlsDisabled := true)
    {
      tlsDisabled := true;
    }

    method Perform(env: Env, actions: seq<Action>)
      modifies this
      ensures View() == N.Perform(old(View()), env, actions)
    {
      hide N.Act;
      var i := 0;
      while i < |actions| && !stopped
        invariant 0 <= i <= |actions|
        invariant N.Perform(View(), env, actions[i..]) == N.Perform(old(View()), env, actions)
      {
        assert actions[i..][0] == actions[i] && actions[i..][1..] == actions[i + 1..];
        Act(env, actions[i]);
        i := i + 1;
      }
    }

    method Callback(env: Env)
      modifies this
      ensures View() == N.Callback(old(View()), env)
    {
      hide N.Perform;
      var actions := env(tick).actions;
      tick := tick + 1;
      Perform(env, actions);
    }

    method Notify(env: Env, up: bool)
      modifies this
      ensures View() == N.Notify(old(View()), env, up)
    {
      hide N.Callback;
      history := history + [Notified(up)];
      Callback(env);
    }

    method ConnDisconnect(env: Env)
      modifies this
      ensures View() == N.ConnDisconnect(old(View()), env)
    {
      hide N.Notify;
      link := Disconnected;
      Notify(env, false);
    }

    /** `conn_prepare_reset` and `conn_open_stream`. */
    method Restart(open: OpenHandler)
      modifies this
      ensures View() == N.Restart(old(View()), open)
    {
      hide N.Send;
      resetParser := true;
      openHandler := open;
      Send(StreamHeader);
    }

    // ------------------------------------------------------------------- auth.c

    method TryMechanism(m: Mechanism, h: Handler)
      modifies this
      ensures View() == N.TryMechanism(old(View()), m, h)
    {
      AddHandler(h, Some(NS_SASL), None, None);
      Send(Message.Auth(m));
      sasl := sasl - {m};
    }

    method Request(env: Env, h: Handler, id: string, timer: Handler, period: nat, m: Message)
      modifies this
      ensures View() == N.Request(old(View()), env, h, id, timer, period, m)
    {
      hide N.AddId, N.AddTimed, N.Send;
      AddId(h, id);
      AddTimed(env, timer, period);
      Send(m);
    }

    method Note(ghost o: Obs)
      modifies this`history
      ensures View() == Observe(old(View()), o)
    {
      history := history + [o];
    }

    method Crash()
      modifies this`stopped
      ensures View() == Stop(old(View()))
    {
      stopped := true;
    }

    method AskTls()
      modifies this
      ensures View() == N.Send(N.AddHandler(old(View()), HandleProceedTls, Some(NS_TLS), None, None), StartTls).(tlsSupport := false)
    {
      hide *;
      AddHandler(HandleProceedTls, Some(NS_TLS), None, None);
      Send(StartTls);
      WithoutTls();
    }

    /** The environment was asked. */
    method Advance()
      modifies this`tick
      ensures View() == old(View()).(tick := old(View()).tick + 1)
    {
      tick := tick + 1;
    }

    method WithoutTls()
      modifies this`tlsSupport
      ensures View() == old(View()).(tlsSupport := false)
    {
      tlsSupport := false;
    }

    /** It was asked whether a TLS context can be had. */
    method TlsAsked(env: Env)
      modifies this
      ensures View() == N.TlsAsked(old(View()), env)
    {
      ghost var at := tick;
      Advance();
      Note(TlsProbed(at));
    }

    /** `_auth`: TLS first. */
    method TryAuth(env: Env)
      modifies this
      ensures View() == N.TryAuth(old(View()), env)
      decreases tlsSupport
    {
      ghost var s := View();
      assert s.tlsSupport == tlsSupport && s.tick == tick;
      hide N.TryAuth, N.Left;
      if !tlsSupport {
        hide View;
        TryRest(env);
      } else if env(tick).tlsAvailable {
        hide View;
        AskForTls(env);
      } else {
        hide View, Observe, N.TlsAsked;
        Note(AuthCalled(Left(s)));
        TlsAsked(env);
        WithoutTls();
        NoTls(s, env, View());
        TryAuth(env);
      }
    }

    method AskForTls(env: Env)
      requires tlsSupport && env(tick).tlsAvailable
      modifies this
      ensures View() == N.TryAuth(old(View()), env)
    {
      ghost var s := View();
      assert s.tlsSupport == tlsSupport && s.tick == tick;
      hide View, N.TryAuth, N.AddHandler, N.Send, N.Left, N.TlsAsked, Observe;
      Note(AuthCalled(Left(s)));
      TlsAsked(env);
      AsksTls(s, env, View());
      AskTls();
    }

    /** `_auth` without TLS: the mechanisms, strongest first, then the legacy request. */
    method TryRest(env: Env)
      requires !tlsSupport
      modifies this
      ensures View() == N.TryAuth(old(View()), env)
    {
      ghost var s := View();
      var anonymous, mechanisms := account.node.None?, sasl;
      assert s.account == account && s.sasl == sasl && !s.tlsSupport;
      hide View, N.Left, N.TryMechanism, N.Request, N.XmppDisconnect, Observe, Stop;
      Note(AuthCalled(Left(s)));
      if anonymous {
        if Anonymous in mechanisms {
          TryMechanism(Anonymous, HandleSaslResult);
        } else {
          XmppDisconnect(env);
        }
      } else if DigestMd5 in mechanisms {
        TryMechanism(DigestMd5, HandleDigestChallenge);
      } else if Plain in mechanisms {
        if !account.client {
          XmppDisconnect(env);
        } else if account.pass.None? {
          Crash();
        } else {
          TryMechanism(Plain, HandleSaslResult);
        }
      } else if account.client {
        if account.pass.None? {
          Crash();
        } else if account.resource.None? {
          XmppDisconnect(env);
        } else {
          Request(env, HandleLegacy, "_xmpp_auth1", MissingLegacy, LEGACY_TIMEOUT, LegacyIq);
        }
      }
    }

    /** The loop over `<mechanism/>` children. */
    method ReadMechanisms(children: seq<Stanza>) returns (r: Option<set<Mechanism>>)
      ensures r == Offered(children)
    {
      hide MechanismsOf, GetText, Name;
      var found, ok, i := {}, true, 0;
      assert children[0..] == children;
      while i < |children| && ok
        invariant 0 <= i <= |children|
        invariant ok ==> Offered(children) == WithFound(found, Offered(children[i..]))
        invariant !ok ==> Offered(children) == None
      {
        var mech := children[i];
        ghost var rest := children[i..];
        assert rest[0] == mech && rest[1..] == children[i + 1..];
        if Name(mech).None? {
          ok := false;
        } else if Name(mech) == Some("mechanism") {
          var text := GetText(mech);
          if text.None? {
            ok := false;
          } else {
            FoundJoins(found, MechanismsOf(text.value), Offered(rest[1..]));
            found := found + MechanismsOf(text.value);
          }
        }
        i := i + 1;
      }
      r := if ok then Some(found) else None;
    }

    /** What `tls_support` is to be; None where `strcmp` would read a NULL. */
    method ReadTls(st: Stanza) returns (r: Option<bool>)
      ensures r == TlsSeen(View(), st)
    {
      hide ChildByName, Ns;
      r := Some(tlsSupport);
      if !secured {
        if tlsDisabled {
          r := Some(false);
        } else {
          var child := ChildByName(st, "starttls");
          if child.Some? {
            if Ns(child.value).None? {
              r := None;
            } else if Ns(child.value) == Some(NS_TLS) {
              r := Some(true);
            }
          }
        }
      }
    }

    /** What `sasl_support` is to be. */
    method ReadSasl(st: Stanza) returns (r: Option<set<Mechanism>>)
      ensures r == SaslSeen(View(), st)
    {
      hide ChildByName, Ns, Offered;
      r := Some(sasl);
      var child := ChildByName(st, "mechanisms");
      if child.Some? {
        if Ns(child.value).None? {
          r := None;
        } else if Ns(child.value) == Some(NS_SASL) {
          var found := ReadMechanisms(child.value.children);
          r := if found.None? then None else Some(sasl + found.value);
        }
      }
    }

    method SetFeatures(tls: bool, mechanisms: set<Mechanism>)
      modifies this`tlsSupport, this`sasl
      ensures View() == old(View()).(tlsSupport := tls, sasl := mechanisms)
    {
      tlsSupport := tls;
      sasl := mechanisms;
    }

    method SetTls(tls: bool)
      modifies this`tlsSupport
      ensures View() == old(View()).(tlsSupport := tls)
    {
      tlsSupport := tls;
    }

    /** `_handle_features`. */
    method OnFeatures(env: Env, st: Stanza)
      modifies this
      ensures View() == N.OnFeatures(old(View()), env, st)
    {
      hide View, N.DeleteTimed, N.TryAuth, TlsSeen, SaslSeen, Stop;
      var tls := ReadTls(st);
      var mechanisms := ReadSasl(st);
      DeleteTimed(MissingFeatures);
      if tls.None? {
        Crash();
      } else if mechanisms.None? {
        SetTls(tls.value);
        Crash();
      } else {
        SetFeatures(tls.value, mechanisms.value);
        TryAuth(env);
      }
    }

    method Secure()
      modifies this`secured, this`history
      ensures View() == Observe(old(View()).(secured := true), TlsStarted)
    {
      secured := true;
      history := history + [TlsStarted];
    }

    /** `_handle_proceedtls_default`. */
    method OnProceedTls(env: Env, st: Stanza)
      modifies this
      ensures View() == N.OnProceedTls(old(View()), env, st)
    {
      hide *;
      Fields();
      ProceedCases(View(), env, st);
      var starts := env(tick).tlsStarts;
      if Name(st) == Some("proceed") {
        Advance();
        if !starts {
          XmppDisconnect(env);
        } else {
          Secure();
          Restart(AuthOpen);
        }
      }
    }

    /** `_handle_sasl_result`. */
    method OnSaslResult(env: Env, st: Stanza)
      modifies this
      ensures View() == N.OnSaslResult(old(View()), env, st)
    {
      hide View, Name, N.TryAuth, N.Restart, N.XmppDisconnect;
      if Name(st) == Some("failure") {
        TryAuth(env);
      } else if Name(st) == Some("success") {
        Restart(SaslOpen);
      } else {
        XmppDisconnect(env);
      }
    }

    method Respond(env: Env, digest: Digest)
      modifies this
      ensures View() == N.Respond(old(View()), env, digest)
    {
      hide View, N.AddHandler, N.Send, N.XmppDisconnect, Stop;
      match digest
      case Faults => Crash();
      case NoResponse => XmppDisconnect(env);
      case Made(text) =>
        AddHandler(HandleDigestRspauth, Some(NS_SASL), None, None);
        Send(Response(Some(text)));
    }

    /** `_handle_digestmd5_challenge`. */
    method OnDigestChallenge(env: Env, st: Stanza)
      modifies this
      ensures View() == N.OnDigestChallenge(old(View()), env, st)
    {
      hide Name, GetText, N.OnSaslResult, N.Respond;
      if Name(st) != Some("challenge") {
        hide View;
        OnSaslResult(env, st);
      } else if GetText(st).None? {
        hide View;
        Crash();
      } else {
        var digest := env(tick).digest;
        assert old(View()).tick == tick;
        hide View;
        Advance();
        Respond(env, digest);
      }
    }

    /** `auth_handle_open`, with the loop of `handler_reset_timed`. */
    method OnAuthOpen(env: Env)
      modifies this
      ensures View() == N.OnAuthOpen(old(View()), env)
    {
      hide N.AddHandler, N.AddTimed;
      ResetTimed(env);
      AddHandler(HandleError, None, Some("stream:error"), None);
      AddHandler(HandleFeatures, None, Some("stream:features"), None);
      AddTimed(env, MissingFeatures, FEATURES_TIMEOUT);
    }

    method ResetTimed(env: Env)
      modifies this`timed, this`tick
      ensures View() == old(View()).(timed := Restamped(old(View()).timed, env(old(View()).tick).now), tick := old(View()).tick + 1)
    {
      hide Restamped;
      var now := env(tick).now;
      tick := tick + 1;
      Restamp(now);
    }

    /** The loop over the timed handlers. */
    method Restamp(now: nat)
      modifies this`timed
      ensures timed == Restamped(old(timed), now)
    {
      ghost var was := timed;
      var i := 0;
      while i < |timed|
        invariant 0 <= i <= |timed| == |was|
        invariant forall k :: 0 <= k < i ==> timed[k] == was[k].(lastStamp := now)
        invariant forall k :: i <= k < |was| ==> timed[k] == was[k]
      {
        timed := timed[i := timed[i].(lastStamp := now)];
        i := i + 1;
      }
    }

    /** `_handle_open_sasl`. */
    method OnSaslOpen(env: Env)
      modifies this
      ensures View() == N.OnSaslOpen(old(View()), env)
    {
      hide View, N.AddHandler, N.AddTimed;
      AddHandler(HandleFeaturesSasl, None, Some("stream:features"), None);
      AddTimed(env, MissingFeaturesSasl, FEATURES_TIMEOUT);
    }

    method BindResource(env: Env, bind: Option<Stanza>)
      modifies this
      ensures View() == N.BindResource(old(View()), env, bind)
    {
      var required := bindRequired;
      assert View().bindRequired == required && View().account == account;
      hide View, Stop, N.XmppDisconnect, N.Request, RequestedResource;
      if !required {
        XmppDisconnect(env);
      } else if bind.None? {
        Crash();
      } else {
        Request(env, HandleBind, "_xmpp_bind1", MissingBind, BIND_TIMEOUT, BindIq(bind.value, RequestedResource(account)));
      }
    }

    method Require(bind: bool, session: bool)
      modifies this`bindRequired, this`sessionRequired
      ensures View() == old(View()).(bindRequired := bind, sessionRequired := session)
    {
      bindRequired, sessionRequired := bind, session;
    }

    /** `_handle_features_sasl`. */
    method OnFeaturesSasl(env: Env, st: Stanza)
      modifies this
      ensures View() == N.OnFeaturesSasl(old(View()), env, st)
    {
      var bind, session := InNs(ChildByName(st, "bind"), NS_BIND), InNs(ChildByName(st, "session"), NS_SESSION);
      var needsBind, needsSession := bindRequired, sessionRequired;
      ghost var s := View();
      assert s.bindRequired == needsBind && s.sessionRequired == needsSession;
      hide View, Stop, InNs, ChildByName, N.DeleteTimed, N.BindResource;
      DeleteTimed(MissingFeaturesSasl);
      if bind.None? || session.None? {
        Crash();
      } else {
        Require(needsBind || bind.value, needsSession || session.value);
        BindResource(env, ChildByName(st, "bind"));
      }
    }

    method Login()
      modifies this`authenticated, this`history
      ensures View() == Observe(old(View()).(authenticated := true), Authenticated)
    {
      authenticated := true;
      history := history + [Authenticated];
    }

    method Authenticate(env: Env)
      modifies this
      ensures View() == N.Authenticate(old(View()), env)
    {
      hide View, Observe, N.Notify;
      Login();
      Notify(env, true);
    }

    /** `_handle_bind`. */
    method OnBind(env: Env, st: Stanza)
      modifies this
      ensures View() == N.OnBind(old(View()), env, st)
    {
      var needsSession := sessionRequired;
      assert View().sessionRequired == needsSession;
      hide View, Type, N.DeleteTimed, N.XmppDisconnect, N.Request, N.Authenticate;
      DeleteTimed(MissingBind);
      if Type(st) == Some("error") {
        XmppDisconnect(env);
      } else if Type(st) == Some("result") {
        if needsSession {
          Request(env, HandleSession, "_xmpp_session1", MissingSession, SESSION_TIMEOUT, SessionIq);
        } else {
          Authenticate(env);
        }
      } else {
        XmppDisconnect(env);
      }
    }

    /** `_handle_session`. */
    method OnSession(env: Env, st: Stanza)
      modifies this
      ensures View() == N.OnSession(old(View()), env, st)
    {
      hide View, Type, N.DeleteTimed, N.XmppDisconnect, N.Authenticate;
      DeleteTimed(MissingSession);
      if Type(st) == Some("error") {
        XmppDisconnect(env);
      } else if Type(st) == Some("result") {
        Authenticate(env);
      } else {
        XmppDisconnect(env);
      }
    }

    /** `_handle_legacy`. */
    method OnLegacy(env: Env, st: Stanza)
      modifies this
      ensures View() == N.OnLegacy(old(View()), env, st)
    {
      hide View, Type, Name, N.DeleteTimed, N.XmppDisconnect, N.Authenticate;
      DeleteTimed(MissingLegacy);
      if Type(st).None? || Name(st) != Some("iq") {
        XmppDisconnect(env);
      } else if Type(st) == Some("error") {
        XmppDisconnect(env);
      } else if Type(st) == Some("result") {
        Authenticate(env);
      } else {
        XmppDisconnect(env);
      }
    }

    /** `_handle_digestmd5_rspauth`. */
    method OnRspauth(env: Env, st: Stanza) returns (stays: bool)
      modifies this
      ensures View() == if Name(st) == Some("challenge") then N.Send(old(View()), Response(None)) else N.OnSaslResult(old(View()), env, st)
      ensures stays == (Name(st) == Some("challenge"))
    {
      hide View, Name, N.Send, N.OnSaslResult;
      if Name(st) == Some("challenge") {
        Send(Response(None));
        stays := true;
      } else {
        OnSaslResult(env, st);
        stays := false;
      }
    }

    /** The call through the function pointer. */
    method Handle(env: Env, h: Handler, st: Stanza) returns (stays: bool)
      modifies this
      ensures View() == OnStanza(old(View()), env, h, st)
      ensures stays == N.Stays(old(View()), env, h, st)
    {
      var keep := env(tick).keep;
      hide *;
      Fields();
      StanzaCases(View(), env, h, st);
      StaysCases(View(), env, h, st);
      NoStanzaCase(View(), env, h, st);
      Note(Handled(h, st));
      stays := false;
      match h
      case HandleError =>
        if st.children == [] {
          Crash();
        }
        stays := true;
      case HandleFeatures => OnFeatures(env, st);
      case HandleProceedTls => OnProceedTls(env, st);
      case HandleSaslResult => OnSaslResult(env, st);
      case HandleDigestChallenge => OnDigestChallenge(env, st);
      case HandleDigestRspauth => stays := OnRspauth(env, st);
      case HandleFeaturesSasl => OnFeaturesSasl(env, st);
      case HandleBind => OnBind(env, st);
      case HandleSession => OnSession(env, st);
      case HandleLegacy => OnLegacy(env, st);
      case User(_) =>
        Callback(env);
        stays := keep;
      case _ =>
    }

    // ---------------------------------------------------------------- handler.c

    method EnableAll()
      modifies this`handlers
      ensures View() == old(View()).(handlers := Enabled(old(View()).handlers))
    {
      ghost var was := handlers;
      var i := 0;
      while i < |handlers|
        invariant 0 <= i <= |handlers| == |was| && View() == old(View()).(handlers := handlers)
        invariant forall k :: 0 <= k < i ==> handlers[k] == was[k].(enabled := true)
        invariant forall k :: i <= k < |was| ==> handlers[k] == was[k]
      {
        handlers := handlers[i := handlers[i].(enabled := true)];
        i := i + 1;
      }
      assert handlers == Enabled(was);
    }

    /** One enabled item is looked at: it is passed over, or called, and unlinked if its
        handler returns false. */
    method Visit(env: Env, st: Stanza, i: nat, ghost r: nat) returns (j: nat)
      requires 0 < r && !stopped && Going(handlers, i, r)
      modifies this
      ensures Going(handlers, j, r - 1)
      ensures N.FireList(View(), env, st, j, r - 1) == N.FireList(old(View()), env, st, i, r)
    {
      ghost var s := View();
      var e := handlers[i];
      EligibleIs(s, e.handler);
      hide *;
      Fields();
      Dispatch.Unfolds(s, env, st, i, r);
      GoingOn(handlers, handlers, i, r);
      if (e.handler.User? && !authenticated) || !Matches(e, st) {
        j := i + 1;
      } else {
        var stays := Handle(env, e.handler, st);
        ghost var s1 := View();
        Fields();
        Grown(s, env, e.handler, st);
        GoingOn(s.handlers, s1.handlers, i, r);
        if stopped || stays {
          j := i + 1;
        } else {
          Unlink(i);
          Fields();
          j := i;
        }
      }
    }

    method Unlink(i: nat)
      requires i < |handlers|
      modifies this`handlers
      ensures View() == old(View()).(handlers := RemoveAt(old(View()).handlers, i))
      ensures handlers == RemoveAt(old(handlers), i)
    {
      handlers := handlers[..i] + handlers[i + 1..];
    }

    /** The second part of `handler_fire_stanza`: all that were added are enabled, and the
        list is gone through as it is, skipping what is added on the way. */
    method FireList(env: Env, st: Stanza)
      modifies this
      ensures View() == N.FireList(old(View()).(handlers := Enabled(old(View()).handlers)), env, st, 0, |old(View()).handlers|)
    {
      hide *;
      ghost var was := handlers;
      Fields();
      EnableAll();
      ghost var s0 := View();
      var i: nat := 0;
      ghost var r: nat := |handlers|;
      Fields();
      StartsGoing(was);
      while i < |handlers| && !stopped
        invariant Going(handlers, i, r)
        invariant N.FireList(View(), env, st, i, r) == N.FireList(s0, env, st, 0, |s0.handlers|)
        decreases r, |handlers| - i
      {
        NextInLine(handlers, i, r);
        if !handlers[i].enabled {
          EmptyDispatch(View(), env, st, i);
          i := i + 1;
        } else {
          i := Visit(env, st, i, r);
          r := r - 1;
        }
      }
      Fields();
      DispatchOver(View(), env, st, i, r);
    }

    /** The first part of `handler_fire_stanza`: the handlers of the stanza's id. A handler
        that is not called yet stays in the chain, but not in `prev`. */
    method FireIds(env: Env, st: Stanza, id: string)
      requires AuthSafety.Inv(View()) && busyId == Some(id) && Id(st) == Some(id)
      modifies this
      ensures View() == N.FireIds(old(View()), env, st, id, 0, 0, |Chain(old(View()).ids, id)|)
      ensures AuthSafety.Kept(View())
    {
      hide *;
      ghost var s := View();
      var k: nat, prev: nat := 0, 0;
      ghost var r: nat := |Chain(s.ids, id)|;
      AuthSafety.InvIsKept(s);
      Fields();
      while !stopped && k < |Chain(ids, id)|
        invariant prev <= k && busyId == Some(id) && AuthSafety.Kept(View())
        invariant stopped || k + r == |Chain(ids, id)|
        invariant N.FireIds(View(), env, st, id, k, prev, r) == N.FireIds(s, env, st, id, 0, 0, |Chain(s.ids, id)|)
        decreases r
      {
        k, prev := VisitId(env, st, id, k, prev, r);
        r := r - 1;
      }
      Fields();
      IdsOver(View(), env, st, id, k, prev, r);
    }

    method VisitId(env: Env, st: Stanza, id: string, k: nat, prev: nat, ghost r: nat) returns (j: nat, before: nat)
      requires AuthSafety.Kept(View()) && busyId == Some(id) && Id(st) == Some(id) && !stopped
      requires prev <= k < |Chain(ids, id)| && k + r == |Chain(ids, id)|
      modifies this
      ensures before <= j && busyId == Some(id) && AuthSafety.Kept(View())
      ensures stopped || j + (r - 1) == |Chain(ids, id)|
      ensures N.FireIds(View(), env, st, id, j, before, r - 1) == N.FireIds(old(View()), env, st, id, k, prev, r)
    {
      ghost var s := View();
      var h := Chain(ids, id)[k];
      assert s.stopped == stopped && s.ids == ids && s.busyId == busyId;
      assert Eligible(s, h) == !(h.User? && !authenticated);
      if h.User? && !authenticated {
        hide View, N.OnStanza, N.Stays, Eligible, AuthSafety.Kept;
        j, before := k + 1, prev;
      } else {
        IdCall(s, env, st, id, k);
        var stays := Handle(env, h, st);
        ghost var s1 := View();
        assert s1.stopped == stopped && s1.ids == ids && s1.busyId == busyId;
        hide N.OnStanza, N.Stays, Eligible, AuthSafety.Kept, Unchained;
        if stopped || stays {
          hide View;
          j, before := k + 1, k + 1;
        } else {
          Unchain(id, k, prev);
          AuthSafety.KeptRuns(s1);
          AuthSafety.UnchainKeeps(s1, id, k, prev);
          AuthSafety.InvIsKept(View());
          hide View, AuthSafety.Inv;
          j, before := prev, prev;
        }
      }
    }

    method Unchain(id: string, k: nat, prev: nat)
      requires prev <= k < |Chain(ids, id)|
      modifies this`ids
      ensures View() == old(View()).(ids := old(View()).ids[id := Unchained(Chain(old(View()).ids, id), k, prev)])
      ensures |Chain(ids, id)| == old(|Chain(ids, id)|) - (k + 1) + prev
    {
      var chain := Chain(ids, id);
      ids := ids[id := chain[..prev] + chain[k + 1..]];
    }

    method SetBusy(id: Option<string>)
      modifies this`busyId
      ensures View() == old(View()).(busyId := id) && busyId == id
    {
      busyId := id;
    }

    /** `handler_fire_stanza`. */
    method FireStanza(env: Env, st: Stanza)
      requires AuthSafety.Inv(View()) && !stopped
      modifies this
      ensures View() == N.FireStanza(old(View()), env, st)
    {
      ghost var s := View();
      hide *;
      Fields();
      Note(Received(st));
      if Id(st).Some? {
        SetBusy(Id(st));
        BusyKeeps(s, st);
        Fields();
        FireIds(env, st, Id(st).value);
        SetBusy(None);
      }
      ghost var s1 := View();
      Fields();
      if !stopped {
        FireList(env, st);
      }
      StanzaFired(s, env, st, s1, View());
    }

    /** A timed handler is called. */
    method HandleTimed(env: Env, h: Handler) returns (stays: bool)
      modifies this
      ensures View() == OnTimer(old(View()), env, h)
      ensures stays == (h.User? && env(old(tick)).keep)
    {
      var keep := env(tick).keep;
      hide *;
      Note(Fired(h));
      stays := false;
      match h {
        case MissingFeatures => TryAuth(env);
        case DisconnectCleanup => ConnDisconnect(env);
        case User(_) =>
          Callback(env);
          stays := keep;
        case _ => XmppDisconnect(env);
      }
      TimerHandled(old(View()), env, h, View());
    }

    method EnableTimers()
      modifies this`timed
      ensures View() == old(View()).(timed := EnabledTimers(old(View()).timed)) && timed == EnabledTimers(old(timed))
    {
      ghost var was := timed;
      var i := 0;
      while i < |timed|
        invariant 0 <= i <= |timed| == |was| && View() == old(View()).(timed := timed)
        invariant forall k :: 0 <= k < i ==> timed[k] == was[k].(enabled := true)
        invariant forall k :: i <= k < |was| ==> timed[k] == was[k]
      {
        timed := timed[i := timed[i].(enabled := true)];
        i := i + 1;
      }
      assert timed == EnabledTimers(was);
    }

    /** The clock is read, and the item that fires gets its stamp. */
    method Stamp(env: Env, i: nat)
      requires i < |timed|
      modifies this`timed, this`tick
      ensures View() == Stamped(old(View()), env, i)
    {
      hide *;
      Fields();
      StampedIs(View(), env, i);
      SetTimers(timed[i := timed[i].(lastStamp := env(tick + 1).now)], tick + 2);
    }

    /** One enabled timer is looked at. */
    method VisitTimer(env: Env, i: nat, ghost r: nat, min: nat) returns (j: nat, least: nat)
      requires 0 < r && !stopped && i < |timed| && Ticking(timed, i, r)
      modifies this
      ensures Ticking(timed, j, r - 1)
      ensures N.FireTimers(View(), env, j, r - 1) == N.FireTimers(old(View()), env, i, r)
      ensures TimerPass.Least(TimerPass.Verdicts(View(), env, j, r - 1), least)
        == TimerPass.Least(TimerPass.Verdicts(old(View()), env, i, r), min)
    {
      ghost var s := View();
      var t := timed[i];
      var now := env(tick).now;
      assert s.tick == tick && s.timed == timed && s.stopped == stopped;
      assert Eligible(s, t.handler) == !(t.handler.User? && !authenticated);
      hide *;
      least := min;
      if t.handler.User? && !authenticated {
        BarredStep(s, env, i, r, min);
        j := i + 1;
      } else if Elapsed(t.lastStamp, now) < t.period {
        least := WaitTimer(env, i, r, min);
        j := i + 1;
      } else {
        j := RingTimer(env, i, r, min);
      }
    }

    /** It is not due yet. */
    method WaitTimer(env: Env, i: nat, ghost r: nat, min: nat) returns (least: nat)
      requires 0 < r && !stopped && i < |timed| && Ticking(timed, i, r) && Eligible(View(), timed[i].handler)
      requires Elapsed(timed[i].lastStamp, env(tick).now) < timed[i].period
      modifies this
      ensures Ticking(timed, i + 1, r - 1)
      ensures N.FireTimers(View(), env, i + 1, r - 1) == N.FireTimers(old(View()), env, i, r)
      ensures TimerPass.Least(TimerPass.Verdicts(View(), env, i + 1, r - 1), least)
        == TimerPass.Least(TimerPass.Verdicts(old(View()), env, i, r), min)
    {
      hide *;
      ghost var s := View();
      Fields();
      var left := timed[i].period - Elapsed(timed[i].lastStamp, env(tick).now);
      least := if min > left then left else min;
      WaitingStep(s, env, i, r, min, least);
      Advance();
    }

    /** It is due: it is stamped and called, and deleted if its handler returns false. */
    method RingTimer(env: Env, i: nat, ghost r: nat, ghost min: nat) returns (j: nat)
      requires 0 < r && !stopped && i < |timed| && Ticking(timed, i, r) && Eligible(View(), timed[i].handler)
      requires Elapsed(timed[i].lastStamp, env(tick).now) >= timed[i].period
      modifies this
      ensures Ticking(timed, j, r - 1)
      ensures N.FireTimers(View(), env, j, r - 1) == N.FireTimers(old(View()), env, i, r)
      ensures TimerPass.Least(TimerPass.Verdicts(View(), env, j, r - 1), min)
        == TimerPass.Least(TimerPass.Verdicts(old(View()), env, i, r), min)
    {
      hide *;
      ghost var s := View();
      Fields();
      var h := timed[i].handler;
      RingStep(s, env, i, r, min);
      Stamp(env, i);
      Fields();
      var stays := HandleTimed(env, h);
      if stays {
        j := i + 1;
      } else {
        DeleteTimed(h);
        j := i;
      }
      Fields();
    }

    /** `handler_fire_timed`, for this connection: the wait until the next timer is due. */
    method FireTimed(env: Env) returns (min: nat)
      requires Clocks.DistinctTimers(timed)
      modifies this
      ensures View() == N.FireTimed(old(View()), env)
      ensures min == if old(stopped || link != Connected) then 0xFFFF_FFFF_FFFF_FFFF
        else TimerPass.Least(TimerPass.Verdicts(old(View()).(timed := EnabledTimers(old(View()).timed)), env, 0, |old(View()).timed|), 0xFFFF_FFFF_FFFF_FFFF)
    {
      hide *;
      TimerPass.NeverIs();
      min := TimerPass.NEVER;
      Fields();
      NotTicking(View(), env);
      if !stopped && link == Connected {
        StartsTicking(timed);
        EnableTimers();
        ghost var s := View();
        Fields();
        var i: nat := 0;
        ghost var r: nat := |timed|;
        while i < |timed| && !stopped
          invariant Ticking(timed, i, r)
          invariant N.FireTimers(View(), env, i, r) == N.FireTimers(s, env, 0, |s.timed|)
          invariant TimerPass.Least(TimerPass.Verdicts(View(), env, i, r), min)
            == TimerPass.Least(TimerPass.Verdicts(s, env, 0, |s.timed|), TimerPass.NEVER)
          decreases r, |timed| - i
        {
          NextTimer(timed, i, r);
          if !timed[i].enabled {
            NoTimerLeft(View(), env, i);
            i := i + 1;
          } else {
            i, min := VisitTimer(env, i, r, min);
            r := r - 1;
          }
        }
        Fields();
        TimersOver(View(), env, i, r);
      }
    }

    // --------------------------------------------------------- conn.c and event.c

    method ReadHeader(name: string, hasId: bool)
      modifies this`inStream, this`hasStreamId
      ensures View() == N.InStream(old(View()), name, hasId)
    {
      ghost var s := View();
      var known := hasStreamId || (name == "stream:stream" && hasId);
      assert s.hasStreamId == hasStreamId;
      EnterStream(known);
      hide View;
      HeaderRead(s, name, hasId, known);
    }

    method EnterStream(known: bool)
      modifies this`inStream, this`hasStreamId
      ensures View() == old(View()).(inStream := true, hasStreamId := known)
    {
      inStream, hasStreamId := true, known;
    }

    method OpenStream(env: Env)
      modifies this
      ensures View() == N.OpenStream(old(View()), env)
    {
      var open, over := openHandler, stopped;
      assert View().openHandler == open && View().stopped == over;
      hide View, Observe, N.OnAuthOpen, N.OnSaslOpen;
      if !over {
        Note(Opened);
        if open == AuthOpen {
          OnAuthOpen(env);
        } else {
          OnSaslOpen(env);
        }
      }
    }

    /** `_handle_stream_start`. */
    method OnStreamStart(env: Env, name: string, hasId: bool)
      modifies this
      ensures View() == N.OnStreamStart(old(View()), env, name, hasId)
    {
      ReadHeader(name, hasId);
      var known := hasStreamId;
      assert View().hasStreamId == known;
      hide View, Observe, N.OpenStream, N.ConnDisconnect;
      if name != "stream:stream" || !known {
        Note(BadHeader);
        ConnDisconnect(env);
      }
      OpenStream(env);
    }

    method CloseStream()
      modifies this`inStream, this`streamDone
      ensures View() == old(View()).(inStream := false, streamDone := true)
    {
      inStream, streamDone := false, true;
    }

    /** `_handle_stream_end`. */
    method OnStreamEnd(env: Env)
      modifies this
      ensures View() == N.ConnDisconnect(N.DeleteTimed(old(View()).(inStream := false, streamDone := true), DisconnectCleanup), env)
    {
      hide *;
      CloseStream();
      DeleteTimed(DisconnectCleanup);
      ConnDisconnect(env);
    }

    /** What the parser reports. */
    method OnSax(env: Env, x: Sax)
      requires Good(View())
      modifies this
      ensures View() == N.OnSax(old(View()), env, x) && Good(View())
    {
      ghost var s := View();
      SaxKeeps(s, env, x);
      assert s.stopped == stopped && s.inStream == inStream && s.streamDone == streamDone;
      var open, done, over := inStream, streamDone, stopped;
      if !over && x.StanzaIn? {
        AuthSafety.KeptRuns(s);
      }
      hide View, Good, AuthSafety.Inv, AuthSafety.Kept, N.OnStreamStart, N.FireStanza, N.ConnDisconnect, N.DeleteTimed;
      if !over {
        match x
        case StreamStart(name, hasId) =>
          if !open && !done {
            OnStreamStart(env, name, hasId);
          }
        case StanzaIn(st) =>
          if open {
            FireStanza(env, st);
          }
        case StreamEnd =>
          if open {
            OnStreamEnd(env);
          }
      }
    }

    method OnChunk(env: Env, chunk: seq<Sax>)
      requires Good(View())
      modifies this
      ensures View() == N.OnChunk(old(View()), env, chunk) && Good(View())
    {
      hide View, Good, N.OnSax;
      var i := 0;
      assert chunk[0..] == chunk;
      while i < |chunk|
        invariant 0 <= i <= |chunk| && Good(View())
        invariant N.OnChunk(View(), env, chunk[i..]) == N.OnChunk(old(View()), env, chunk)
      {
        assert chunk[i..][0] == chunk[i] && chunk[i..][1..] == chunk[i + 1..];
        OnSax(env, chunk[i]);
        i := i + 1;
      }
    }

    method OnRead(env: Env, sax: seq<Sax>, wellFormed: bool)
      requires Good(View())
      modifies this
      ensures View() == N.OnRead(old(View()), env, sax, wellFormed)
    {
      hide Good, N.OnChunk, N.ConnDisconnect;
      OnChunk(env, sax);
      if !stopped && !wellFormed {
        ConnDisconnect(env);
      }
    }

    method Connect()
      modifies this
      ensures View() == N.Send(old(View()).(link := Connected), StreamHeader)
    {
      link := Connected;
      hide N.Send;
      Send(StreamHeader);
    }

    /** What `select` reports. */
    method OnIo(env: Env, io: Io)
      requires Good(View())
      modifies this
      ensures View() == N.OnIo(old(View()), env, io) && Good(View())
    {
      ghost var s := View();
      IoKeeps(s, env, io);
      var over, state := stopped, link;
      assert s.stopped == over && s.link == state;
      hide View, Good, N.OnRead, N.ConnDisconnect, N.Send;
      if !over {
        if state == Connecting {
          if io == ConnectDone {
            Connect();
          } else if io == ConnectFailed {
            ConnDisconnect(env);
          }
        } else if state == Connected {
          match io
          case Chunk(sax, wellFormed) => OnRead(env, sax, wellFormed);
          case ReadFailed => ConnDisconnect(env);
          case _ =>
        }
      }
    }

    method ResetParser()
      modifies this`resetParser, this`inStream, this`streamDone
      ensures View() == AfterReset(old(View()))
    {
      if resetParser {
        resetParser, inStream, streamDone := false, false, false;
      }
    }

    method AfterWriting(env: Env, writeFails: bool)
      modifies this
      ensures View() == AfterWrite(old(View()), env, writeFails)
    {
      hide N.ConnDisconnect;
      if link == Connected && writeFails {
        ConnDisconnect(env);
      }
    }

    /** `xmpp_run_once`. */
    method RunOnce(env: Env, writeFails: bool, io: Io)
      requires Good(View()) && !stopped
      modifies this
      ensures View() == N.RunOnce(old(View()), env, writeFails, io) && Good(View())
    {
      hide *;
      ghost var s := View();
      Fields();
      PassKeeps(s, env, writeFails);
      AfterWriting(env, writeFails);
      ResetParser();
      Pass(env);
      OnIo(env, io);
      if io != Idle {
        Pass(env);
      }
      PassParts(s, env, writeFails, io);
    }

    method Pass(env: Env)
      requires Good(View())
      modifies this
      ensures View() == N.FireTimed(old(View()), env) && Good(View())
    {
      TimedKeeps(View(), env);
      assert Clocks.DistinctTimers(timed);
      hide *;
      var wait := FireTimed(env);
    }

    /** The user deletes a handler of its own from each of the lists. */
    method Forget(h: Handler, id: string)
      modifies this`handlers, this`ids, this`timed
      ensures View() == DropUser(old(View()), h, id)
    {
      hide *;
      Fields();
      Dropping(View(), h, id);
      SetLists(WithoutEntry(handlers, h), WithoutId(ids, h, id), WithoutTimer(timed, h));
    }

    method SetLists(hs: seq<Entry>, table: map<string, seq<Handler>>, ts: seq<Timer>)
      modifies this`handlers, this`ids, this`timed
      ensures View() == old(View()).(handlers := hs, ids := table, timed := ts)
    {
      handlers, ids, timed := hs, table, ts;
    }

    /** An event of a run. */
    method Step(env: Env, e: Event)
      requires Good(View())
      modifies this
      ensures View() == N.Step(old(View()), env, e) && Good(View())
    {
      StepKeeps(View(), env, e);
      hide Good, N.RunOnce, N.Act, DropUser, View;
      Fields();
      if !stopped {
        match e
        case Pass(writeFails, io) => RunOnce(env, writeFails, io);
        case Call(action) => Act(env, action);
        case Drop(h, id) =>
          if h.User? {
            Forget(h, id);
          }
      }
    }

    /** A whole run: what is proved of runs is proved of this object. */
    method Run(env: Env, events: seq<Event>)
      requires Good(View())
      modifies this
      ensures View() == N.Run(old(View()), env, events) && Good(View())
    {
      hide View, Good, N.Step;
      var i := 0;
      assert events[0..] == events;
      while i < |events|
        invariant 0 <= i <= |events| && Good(View())
        invariant N.Run(View(), env, events[i..]) == N.Run(old(View()), env, events)
      {
        assert events[i..][0] == events[i] && events[i..][1..] == events[i + 1..];
        Step(env, events[i]);
        i := i + 1;
      }
    }
  }
}
