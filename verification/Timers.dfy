/** The timed handlers: what one pass over them does, and how far apart the firings of one
    function are over whole runs. */
module Timers {
  import opened Common
  import opened Stanzas
  import opened Negotiation
  import opened Frames
  import opened Clocks
  import TimerPass

  // --------------------------------------------------- firings over whole runs

  /** A function fired: what the clock read, and the period it was registered with. */
  datatype Ring = Ring(handler: Handler, at: nat, period: nat)

  function Rings(s: State, env: Env, i: nat, r: nat): seq<Ring>
    decreases r
  {
    if r == 0 || s.stopped || i >= |s.timed| then []
    else
      var t := s.timed[i];
      if !Eligible(s, t.handler) then Rings(s, env, i + 1, r - 1)
      else
        var now := env(s.tick).now;
        if Elapsed(t.lastStamp, now) < t.period then Rings(s.(tick := s.tick + 1), env, i + 1, r - 1)
        else
          var stamped := Stamped(s, env, i);
          var s1 := OnTimer(stamped, env, t.handler);
          [Ring(t.handler, now, t.period)]
          + (if t.handler.User? && env(stamped.tick).keep then Rings(s1, env, i + 1, r - 1)
             else Rings(DeleteTimed(s1, t.handler), env, i, r - 1))
  }

  function RingsTimed(s: State, env: Env): seq<Ring> {
    if s.stopped || s.link != Connected then []
    else Rings(s.(timed := EnabledTimers(s.timed)), env, 0, |s.timed|)
  }

  function RingsOnce(s: State, env: Env, writeFails: bool, io: Io): seq<Ring> {
    var s1 := AfterReset(AfterWrite(s, env, writeFails));
    RingsTimed(s1, env) + (if io == Idle then [] else RingsTimed(OnIo(FireTimed(s1, env), env, io), env))
  }

  function RingsStep(s: State, env: Env, e: Event): seq<Ring> {
    if s.stopped || !e.Pass? then [] else RingsOnce(s, env, e.writeFails, e.io)
  }

  function RingsRun(s: State, env: Env, events: seq<Event>): seq<Ring>
    decreases events
  {
    if events == [] then [] else RingsStep(s, env, events[0]) + RingsRun(Step(s, env, events[0]), env, events[1..])
  }

  function HandlersOf(rings: seq<Ring>): seq<Handler> {
    if rings == [] then [] else [rings[0].handler] + HandlersOf(rings[1..])
  }

  lemma {:induction false} RingsUnfold(s: State, env: Env, i: nat, r: nat)
    requires 0 < r && !s.stopped && i < |s.timed|
    ensures var t, now := s.timed[i], env(s.tick).now;
      if !Eligible(s, t.handler) then Rings(s, env, i, r) == Rings(s, env, i + 1, r - 1)
      else if Elapsed(t.lastStamp, now) < t.period then Rings(s, env, i, r) == Rings(s.(tick := s.tick + 1), env, i + 1, r - 1)
      else
        var stamped := Stamped(s, env, i);
        var s1 := OnTimer(stamped, env, t.handler);
        Rings(s, env, i, r) == [Ring(t.handler, now, t.period)]
          + (if t.handler.User? && env(stamped.tick).keep then Rings(s1, env, i + 1, r - 1)
             else Rings(DeleteTimed(s1, t.handler), env, i, r - 1))
  {
    hide OnTimer, DeleteTimed, Stamped, Eligible, Elapsed;
  }

  lemma {:induction false} RingsEnd(s: State, env: Env, i: nat, r: nat)
    requires r == 0 || s.stopped || i >= |s.timed|
    ensures Rings(s, env, i, r) == []
  {
    hide OnTimer, DeleteTimed, Stamped, Eligible, Elapsed;
  }

  lemma {:induction false} FirstRing(ring: Ring, rest: seq<Ring>)
    ensures HandlersOf([ring] + rest) == [ring.handler] + HandlersOf(rest)
  {
    assert ([ring] + rest)[1..] == rest;
  }

  /** The firings of a pass are those that are observed on it, in this order. */
  lemma {:induction false} RingsAreFired(s: State, env: Env, i: nat, r: nat)
    ensures var t := FireTimers(s, env, i, r);
      s.history <= t.history && TimerPass.FiredOf(t.history[|s.history|..]) == HandlersOf(Rings(s, env, i, r))
    decreases r
  {
    NothingFired(s.history);
    hide *;
    if r == 0 || s.stopped || i >= |s.timed| {
      TimersEnd(s, env, i, r);
      RingsEnd(s, env, i, r);
    } else {
      var t := s.timed[i];
      TimersUnfold(s, env, i, r);
      RingsUnfold(s, env, i, r);
      if !Eligible(s, t.handler) {
        RingsAreFired(s, env, i + 1, r - 1);
      } else if Elapsed(t.lastStamp, env(s.tick).now) < t.period {
        SameHistory(s, env, i, t.handler);
        RingsAreFired(s.(tick := s.tick + 1), env, i + 1, r - 1);
      } else {
        var stamped := Stamped(s, env, i);
        var s1 := OnTimer(stamped, env, t.handler);
        var s2 := DeleteTimed(s1, t.handler);
        var now := env(s.tick).now;
        SameHistory(s, env, i, t.handler);
        SameHistory(s1, env, 0, t.handler);
        OneFired(stamped, env, t.handler);
        if t.handler.User? && env(stamped.tick).keep {
          RingsAreFired(s1, env, i + 1, r - 1);
          FirstRing(Ring(t.handler, now, t.period), Rings(s1, env, i + 1, r - 1));
          FiredParts(s.history, s1.history, FireTimers(s1, env, i + 1, r - 1).history);
        } else {
          RingsAreFired(s2, env, i, r - 1);
          FirstRing(Ring(t.handler, now, t.period), Rings(s2, env, i, r - 1));
          FiredParts(s.history, s1.history, FireTimers(s2, env, i, r - 1).history);
        }
      }
    }
  }

  lemma {:induction false} NothingFired(h: seq<Obs>)
    ensures TimerPass.FiredOf(h[|h|..]) == [] && HandlersOf([]) == []
  {
  }

  lemma {:induction false} SameHistory(s: State, env: Env, i: nat, h: Handler)
    ensures i < |s.timed| ==> Stamped(s, env, i).history == s.history
    ensures s.(tick := s.tick + 1).history == s.history && DeleteTimed(s, h).history == s.history
  {
    hide WithoutTimer;
  }

  lemma {:induction false} OneFired(s: State, env: Env, h: Handler)
    ensures var r := OnTimer(s, env, h); s.history <= r.history && TimerPass.FiredOf(r.history[|s.history|..]) == [h]
  {
    hide *;
    TimerPass.TimerInner(s, env, h);
    TimerPass.FiredFirst(s, h, OnTimer(s, env, h).history);
  }

  lemma {:induction false} FiredParts(a: seq<Obs>, b: seq<Obs>, c: seq<Obs>)
    requires a <= b <= c
    ensures TimerPass.FiredOf(c[|a|..]) == TimerPass.FiredOf(b[|a|..]) + TimerPass.FiredOf(c[|b|..])
  {
    assert c[|a|..] == b[|a|..] + c[|b|..];
    TimerPass.FiredJoin(b[|a|..], c[|b|..]);
  }

  // -------------------------------------------------- what the clock read, and when

  /** The firings that the verdicts on timers tell of: the reading by which the timer was
      judged, and its period. */
  function RingsOf(ts: seq<Timer>, vs: seq<TimerPass.Verdict>): seq<Ring>
    requires |ts| == |vs|
  {
    if ts == [] then []
    else (if vs[0].Rings? then [Ring(ts[0].handler, vs[0].at, ts[0].period)] else []) + RingsOf(ts[1..], vs[1..])
  }

  lemma {:induction false} RingsFirst(t: Timer, v: TimerPass.Verdict, ts: seq<Timer>, vs: seq<TimerPass.Verdict>)
    requires |ts| == |vs|
    ensures RingsOf([t] + ts, [v] + vs) == (if v.Rings? then [Ring(t.handler, v.at, t.period)] else []) + RingsOf(ts, vs)
  {
    assert ([t] + ts)[1..] == ts && ([v] + vs)[1..] == vs;
  }

  lemma {:induction false} VerdictsUnfold(s: State, env: Env, i: nat, r: nat)
    requires 0 < r && i < |s.timed| && !s.stopped
    ensures var t := s.timed[i];
      && (!Eligible(s, t.handler) ==>
            TimerPass.Verdicts(s, env, i, r) == [TimerPass.Barred] + TimerPass.Verdicts(s, env, i + 1, r - 1))
      && (Eligible(s, t.handler) && Elapsed(t.lastStamp, env(s.tick).now) < t.period ==>
            TimerPass.Verdicts(s, env, i, r)
              == [TimerPass.Waits(t.period - Elapsed(t.lastStamp, env(s.tick).now))]
                 + TimerPass.Verdicts(s.(tick := s.tick + 1), env, i + 1, r - 1))
  {
    hide OnTimer, DeleteTimed, Stamped, Eligible, Elapsed;
  }

  lemma {:induction false} VerdictsEnd(s: State, env: Env, i: nat, r: nat)
    requires r == 0 || s.stopped || i >= |s.timed|
    ensures TimerPass.Verdicts(s, env, i, r) == []
  {
    hide OnTimer, DeleteTimed, Stamped, Eligible, Elapsed;
  }

  /** The firings that come after the first timer, which is at i and is gone afterwards or
      not; the others are where they were, or one place before. */
  lemma {:induction false} RingsNext(ts: seq<Timer>, us: seq<Timer>, i: nat, j: nat, v: TimerPass.Verdict, vs: seq<TimerPass.Verdict>)
    requires i + 1 + |vs| <= |ts| && j + |vs| <= |us|
    requires us[j..j + |vs|] == ts[i + 1..i + 1 + |vs|]
    ensures RingsOf(ts[i..i + 1 + |vs|], [v] + vs)
      == (if v.Rings? then [Ring(ts[i].handler, v.at, ts[i].period)] else []) + RingsOf(us[j..j + |vs|], vs)
  {
    hide RingsOf;
    var rest := ts[i + 1..i + 1 + |vs|];
    assert ts[i..i + 1 + |vs|] == [ts[i]] + rest;
    RingsFirst(ts[i], v, rest, vs);
  }

  /** Whatever a pass does: its firings are those of the timers that its verdicts say ring,
      with the reading the verdict was by and the period the timer had. */
  lemma {:induction false} RingsAreVerdicts(s: State, env: Env, i: nat, r: nat)
    requires i + r <= |s.timed| && DistinctTimers(s.timed)
    ensures var vs := TimerPass.Verdicts(s, env, i, r);
      |vs| <= r && Rings(s, env, i, r) == RingsOf(s.timed[i..i + |vs|], vs)
    decreases r, 1
  {
    hide *;
    if r == 0 || s.stopped {
      VerdictsEnd(s, env, i, r);
      RingsEnd(s, env, i, r);
      NoRings(s.timed, i);
    } else {
      var t := s.timed[i];
      VerdictsUnfold(s, env, i, r);
      RingsUnfold(s, env, i, r);
      if !Eligible(s, t.handler) {
        var vs := TimerPass.Verdicts(s, env, i + 1, r - 1);
        RingsAreVerdicts(s, env, i + 1, r - 1);
        RingsNext(s.timed, s.timed, i, i + 1, TimerPass.Barred, vs);
      } else if Elapsed(t.lastStamp, env(s.tick).now) < t.period {
        var s1 := s.(tick := s.tick + 1);
        var vs := TimerPass.Verdicts(s1, env, i + 1, r - 1);
        RingsAreVerdicts(s1, env, i + 1, r - 1);
        RingsNext(s.timed, s1.timed, i, i + 1, TimerPass.Waits(t.period - Elapsed(t.lastStamp, env(s.tick).now)), vs);
      } else {
        RingIsVerdict(s, env, i, r);
      }
    }
  }

  lemma {:induction false} NoRings(ts: seq<Timer>, i: nat)
    requires i <= |ts|
    ensures RingsOf(ts[i..i], []) == []
  {
  }

  lemma {:induction false} OthersStay(s: State, s1: State, i: nat, u: Timer, n: nat)
    requires i + 1 + n <= |s.timed| && u.handler == s.timed[i].handler && TimerPass.AfterFiring(s, s1, i, u)
    ensures i + 1 + n <= |s1.timed| && s1.timed[i + 1..i + 1 + n] == s.timed[i + 1..i + 1 + n]
  {
    hide *;
    TimerPass.FiringFacts(s, s1, i, u);
    forall k | i < k < i + 1 + n ensures s1.timed[k] == s.timed[k] {
      TimerPass.LaterTimer(s, s1, i, u, k);
    }
  }

  lemma {:induction false} OneCut(ts: seq<Timer>, i: nat, n: nat)
    requires i + 1 + n <= |ts|
    ensures (ts[..i] + ts[i + 1..])[i..i + n] == ts[i + 1..i + 1 + n]
  {
  }

  /** The first timer rings. */
  lemma {:induction false} RingIsVerdict(s: State, env: Env, i: nat, r: nat)
    requires 0 < r && i + r <= |s.timed| && DistinctTimers(s.timed) && !s.stopped
    requires Eligible(s, s.timed[i].handler) && Elapsed(s.timed[i].lastStamp, env(s.tick).now) >= s.timed[i].period
    ensures var vs := TimerPass.Verdicts(s, env, i, r);
      |vs| <= r && Rings(s, env, i, r) == RingsOf(s.timed[i..i + |vs|], vs)
    decreases r, 0
  {
    hide *;
    var t := s.timed[i];
    var stamped := Stamped(s, env, i);
    var s1 := OnTimer(stamped, env, t.handler);
    TimerPass.StampedAt(s, env, i);
    TimerPass.FiresAt(s, env, i);
    TimerPass.FiringFacts(s, s1, i, stamped.timed[i]);
    TimerPass.RingUnfolds(s, env, i, r);
    RingsUnfold(s, env, i, r);
    if t.handler.User? && env(stamped.tick).keep {
      var vs := TimerPass.Verdicts(s1, env, i + 1, r - 1);
      RingsAreVerdicts(s1, env, i + 1, r - 1);
      OthersStay(s, s1, i, stamped.timed[i], |vs|);
      RingsNext(s.timed, s1.timed, i, i + 1, TimerPass.Rings(env(s.tick).now, env(s.tick + 1).now, true), vs);
    } else {
      var s2 := DeleteTimed(s1, t.handler);
      TimerPass.CutLength(s.timed, s1.timed, i);
      TimerPass.CutAt(s1.timed, i);
      TimerPass.CutTimers(s1, t.handler);
      var vs := TimerPass.Verdicts(s2, env, i, r - 1);
      RingsAreVerdicts(s2, env, i, r - 1);
      OthersStay(s, s1, i, stamped.timed[i], |vs|);
      OneCut(s1.timed, i, |vs|);
      RingsNext(s.timed, s2.timed, i, i, TimerPass.Rings(env(s.tick).now, env(s.tick + 1).now, false), vs);
    }
  }

  /** Two firings of one function are at least the period apart that the later had. */
  ghost predicate Spaced(past: seq<Ring>) {
    forall i, j :: 0 <= i < j < |past| && past[i].handler == past[j].handler ==>
      past[i].at + past[j].period <= past[j].at
  }

  /** No firing is later than the clock, nor than the stamp of the function. */
  ghost predicate Behind(past: seq<Ring>, ts: seq<Timer>, now: nat) {
    && (forall i :: 0 <= i < |past| ==> past[i].at <= now)
    && (forall i, j :: 0 <= i < |past| && 0 <= j < |ts| && past[i].handler == ts[j].handler ==> past[i].at <= ts[j].lastStamp)
  }

  ghost predicate OnTime(past: seq<Ring>, s: State, env: Env) {
    Spaced(past) && Behind(past, s.timed, env(s.tick).now) && AllPast(s.timed, env(s.tick).now)
  }

  lemma {:induction false} BehindSince(past: seq<Ring>, ts: seq<Timer>, us: seq<Timer>, now: nat, later: nat)
    requires Behind(past, ts, now) && AllSince(ts, us, now) && now <= later
    ensures Behind(past, us, later)
  {
    forall i, j | 0 <= i < |past| && 0 <= j < |us| && past[i].handler == us[j].handler ensures past[i].at <= us[j].lastStamp {
      assert Since(ts, us[j], now);
    }
  }

  lemma {:induction false} OnTimeClocked(past: seq<Ring>, s: State, r: State, env: Env)
    requires Forward(env) && OnTime(past, s, env) && Clocked(s, r, env)
    ensures OnTime(past, r, env)
  {
    hide Spaced, Behind, AllSince, AllPast, DistinctTimers;
    BehindSince(past, s.timed, r.timed, env(s.tick).now, env(r.tick).now);
  }

  /** A timer fires, and is stamped. */
  lemma {:induction false} RingOnTime(past: seq<Ring>, s: State, env: Env, i: nat)
    requires Forward(env) && OnTime(past, s, env) && i < |s.timed| && DistinctTimers(s.timed)
    requires Elapsed(s.timed[i].lastStamp, env(s.tick).now) >= s.timed[i].period
    ensures OnTime(past + [Ring(s.timed[i].handler, env(s.tick).now, s.timed[i].period)], Stamped(s, env, i), env)
  {
    var t := s.timed[i];
    var now := env(s.tick).now;
    var more := past + [Ring(t.handler, now, t.period)];
    assert t.lastStamp + t.period <= now by { ElapsedIsPast(t.lastStamp, now, t.period); }
    assert now <= env(s.tick + 1).now <= env(s.tick + 2).now;
    forall k | 0 <= k < |past| && past[k].handler == t.handler ensures past[k].at + t.period <= now {
      assert past[k].at <= t.lastStamp;
    }
    assert Spaced(more);
    var u := s.timed[i := t.(lastStamp := env(s.tick + 1).now)];
    forall k, j | 0 <= k < |more| && 0 <= j < |u| && more[k].handler == u[j].handler ensures more[k].at <= u[j].lastStamp {
      if j == i && k < |past| {
        assert past[k].at <= t.lastStamp;
      } else if k < |past| {
        assert past[k].at <= s.timed[j].lastStamp;
      } else {
        assert j == i;
      }
    }
  }

  lemma {:induction false} ElapsedIsPast(from: nat, to: nat, period: nat)
    requires from <= to && Elapsed(from, to) >= period
    ensures from + period <= to
  {
  }

  /** The state between passes: the firings so far keep their distance. */
  ghost predicate Kept(past: seq<Ring>, s: State, env: Env) {
    OnTime(past, s, env) && DistinctTimers(s.timed)
  }

  lemma {:induction false} KeptClocked(past: seq<Ring>, s: State, r: State, env: Env)
    requires Forward(env) && Kept(past, s, env) && Clocked(s, r, env)
    ensures Kept(past, r, env)
  {
    OnTimeClocked(past, s, r, env);
    hide OnTime, DistinctTimers, AllSince, AllPast;
  }

  lemma {:induction false} RingKept(past: seq<Ring>, s: State, env: Env, i: nat)
    requires Forward(env) && Kept(past, s, env) && i < |s.timed|
    requires Elapsed(s.timed[i].lastStamp, env(s.tick).now) >= s.timed[i].period
    ensures Kept(past + [Ring(s.timed[i].handler, env(s.tick).now, s.timed[i].period)], Stamped(s, env, i), env)
  {
    RingOnTime(past, s, env, i);
    hide OnTime, Elapsed;
  }

  lemma {:induction false} FireTimersKept(past: seq<Ring>, s: State, env: Env, i: nat, r: nat)
    requires Forward(env) && Kept(past, s, env)
    ensures Kept(past + Rings(s, env, i, r), FireTimers(s, env, i, r), env)
    decreases r
  {
    hide Kept, OnTimer, Eligible, WithoutTimer, Elapsed, Forward, Stamped, Clocked;
    if r == 0 || s.stopped || i >= |s.timed| {
      assert past + [] == past;
    } else {
      var t := s.timed[i];
      if !Eligible(s, t.handler) {
        FireTimersKept(past, s, env, i + 1, r - 1);
      } else if Elapsed(t.lastStamp, env(s.tick).now) < t.period {
        TickClocked(s, env);
        KeptClocked(past, s, s.(tick := s.tick + 1), env);
        FireTimersKept(past, s.(tick := s.tick + 1), env, i + 1, r - 1);
      } else {
        var ring := Ring(t.handler, env(s.tick).now, t.period);
        var stamped := Stamped(s, env, i);
        RingKept(past, s, env, i);
        var s1 := OnTimer(stamped, env, t.handler);
        OnTimerClocked(stamped, env, t.handler);
        KeptClocked(past + [ring], stamped, s1, env);
        if t.handler.User? && env(stamped.tick).keep {
          FireTimersKept(past + [ring], s1, env, i + 1, r - 1);
          assert past + [ring] + Rings(s1, env, i + 1, r - 1) == past + ([ring] + Rings(s1, env, i + 1, r - 1));
        } else {
          var s2 := DeleteTimed(s1, t.handler);
          DeleteTimedClocked(s1, env, t.handler);
          KeptClocked(past + [ring], s1, s2, env);
          FireTimersKept(past + [ring], s2, env, i, r - 1);
          assert past + [ring] + Rings(s2, env, i, r - 1) == past + ([ring] + Rings(s2, env, i, r - 1));
        }
      }
    }
  }

  lemma {:induction false} EnabledKept(past: seq<Ring>, s: State, env: Env)
    requires Kept(past, s, env)
    ensures Kept(past, s.(timed := EnabledTimers(s.timed)), env)
  {
    hide Spaced;
  }

  lemma {:induction false} FireTimedKept(past: seq<Ring>, s: State, env: Env)
    requires Forward(env) && Kept(past, s, env)
    ensures Kept(past + RingsTimed(s, env), FireTimed(s, env), env)
  {
    hide Kept, Forward, FireTimers, Rings, EnabledTimers;
    if s.stopped || s.link != Connected {
      assert past + [] == past;
    } else {
      EnabledKept(past, s, env);
      FireTimersKept(past, s.(timed := EnabledTimers(s.timed)), env, 0, |s.timed|);
    }
  }

  // ------------------------------------------------ what else moves the clock on

  lemma {:induction false} FireIdsClocked(s: State, env: Env, st: Stanza, id: string, k: nat, prev: nat, r: nat)
    ensures Clocked(s, FireIds(s, env, st, id, k, prev, r), env)
    decreases r
  {
    hide Clocked, OnStanza, Unchained, Stays, Eligible;
    var chain := Chain(s.ids, id);
    if r == 0 || s.stopped || k >= |chain| || prev > k {
      SameTimers(s, s, env);
    } else if !Eligible(s, chain[k]) {
      FireIdsClocked(s, env, st, id, k + 1, prev, r - 1);
    } else {
      var s1 := OnStanza(s, env, chain[k], st);
      OnStanzaClocked(s, env, chain[k], st);
      if s1.stopped || k >= |Chain(s1.ids, id)| || Stays(s, env, chain[k], st) {
        FireIdsClocked(s1, env, st, id, k + 1, k + 1, r - 1);
        ClockedJoins(s, s1, FireIds(s1, env, st, id, k + 1, k + 1, r - 1), env);
      } else {
        var s2 := s1.(ids := s1.ids[id := Unchained(Chain(s1.ids, id), k, prev)]);
        SameTimers(s1, s2, env);
        FireIdsClocked(s2, env, st, id, prev, prev, r - 1);
        ClockedJoins(s, s1, s2, env);
        ClockedJoins(s, s2, FireIds(s2, env, st, id, prev, prev, r - 1), env);
      }
    }
  }

  lemma {:induction false} FireListClocked(s: State, env: Env, st: Stanza, i: nat, r: nat)
    ensures Clocked(s, FireList(s, env, st, i, r), env)
    decreases r
  {
    hide Clocked, OnStanza, RemoveAt, Stays, Eligible, Matches;
    if r == 0 || s.stopped || i >= |s.handlers| {
      SameTimers(s, s, env);
    } else {
      var e := s.handlers[i];
      var s1 := OnStanza(s, env, e.handler, st);
      if !Eligible(s, e.handler) || !Matches(e, st) {
        FireListClocked(s, env, st, i + 1, r - 1);
      } else if s1.stopped || i >= |s1.handlers| || Stays(s, env, e.handler, st) {
        OnStanzaClocked(s, env, e.handler, st);
        FireListClocked(s1, env, st, i + 1, r - 1);
        ClockedJoins(s, s1, FireList(s1, env, st, i + 1, r - 1), env);
      } else {
        var s2 := s1.(handlers := RemoveAt(s1.handlers, i));
        OnStanzaClocked(s, env, e.handler, st);
        SameTimers(s1, s2, env);
        FireListClocked(s2, env, st, i, r - 1);
        ClockedJoins(s, s1, s2, env);
        ClockedJoins(s, s2, FireList(s2, env, st, i, r - 1), env);
      }
    }
  }

  lemma {:induction false} FireByIdClocked(s: State, env: Env, st: Stanza)
    ensures Clocked(s, FireById(s, env, st), env)
  {
    hide Clocked, FireIds, Id, Chain;
    if Id(st).Some? {
      var b := s.(busyId := Id(st));
      var f := FireIds(b, env, st, Id(st).value, 0, 0, |Chain(s.ids, Id(st).value)|);
      SameTimers(s, b, env);
      FireIdsClocked(b, env, st, Id(st).value, 0, 0, |Chain(s.ids, Id(st).value)|);
      SameTimers(f, f.(busyId := None), env);
      ClockedJoins(s, b, f, env);
      ClockedJoins(s, f, f.(busyId := None), env);
    } else {
      SameTimers(s, s, env);
    }
  }

  lemma {:induction false} FireStanzaClocked(s: State, env: Env, st: Stanza)
    ensures Clocked(s, FireStanza(s, env, st), env)
  {
    hide *;
    StanzaFires(s, env, st);
    var s0 := Observe(s, Received(st));
    var s1 := FireById(s0, env, st);
    ObserveClocked(s, Received(st), env);
    FireByIdClocked(s0, env, st);
    ClockedJoins(s, s0, s1, env);
    FireListedClocked(s1, env, st);
    ClockedJoins(s, s1, FireListed(s1, env, st), env);
  }

  lemma {:induction false} FireListedClocked(s: State, env: Env, st: Stanza)
    ensures Clocked(s, FireListed(s, env, st), env)
  {
    hide Clocked, FireList, Enabled;
    if s.stopped {
      SameTimers(s, s, env);
    } else {
      EnabledClocked(s, env, st);
    }
  }

  lemma {:induction false} EnabledClocked(s: State, env: Env, st: Stanza)
    ensures Clocked(s, FireList(s.(handlers := Enabled(s.handlers)), env, st, 0, |s.handlers|), env)
  {
    hide Clocked, FireList, Enabled;
    var s1 := s.(handlers := Enabled(s.handlers));
    SameTimers(s, s1, env);
    FireListClocked(s1, env, st, 0, |s.handlers|);
    ClockedJoins(s, s1, FireList(s1, env, st, 0, |s.handlers|), env);
  }

  lemma {:induction false} AuthOpenClocked(s: State, env: Env)
    ensures Clocked(s, OnAuthOpen(s, env), env)
  {
    hide Clocked, WithEntry, AddTimed, Restamped;
    var s1 := s.(timed := Restamped(s.timed, env(s.tick).now), tick := s.tick + 1);
    var s2 := AddHandler(AddHandler(s1, HandleError, None, Some("stream:error"), None), HandleFeatures, None, Some("stream:features"), None);
    RestampedClocked(s, env);
    SameTimers(s1, s2, env);
    AddTimedClocked(s2, env, MissingFeatures, FEATURES_TIMEOUT);
    ClockedJoins(s, s1, s2, env);
    ClockedJoins(s, s2, OnAuthOpen(s, env), env);
  }

  lemma {:induction false} SaslOpenClocked(s: State, env: Env)
    ensures Clocked(s, OnSaslOpen(s, env), env)
  {
    hide Clocked, AddHandler, AddTimed;
    var s1 := AddHandler(s, HandleFeaturesSasl, None, Some("stream:features"), None);
    AddHandlerClocked(s, HandleFeaturesSasl, None, Some("stream:features"), None, env);
    AddTimedClocked(s1, env, MissingFeaturesSasl, FEATURES_TIMEOUT);
    ClockedJoins(s, s1, OnSaslOpen(s, env), env);
  }

  lemma {:induction false} OpenStreamClocked(s: State, env: Env)
    ensures Clocked(s, OpenStream(s, env), env)
  {
    hide Clocked, OnAuthOpen, OnSaslOpen, Observe;
    var s0 := Observe(s, Opened);
    SameTimers(s, s, env);
    ObserveClocked(s, Opened, env);
    AuthOpenClocked(s0, env);
    SaslOpenClocked(s0, env);
    ClockedJoins(s, s0, OnAuthOpen(s0, env), env);
    ClockedJoins(s, s0, OnSaslOpen(s0, env), env);
  }

  lemma {:induction false} StreamStartClocked(s: State, env: Env, name: string, hasId: bool)
    ensures Clocked(s, OnStreamStart(s, env, name, hasId), env)
  {
    hide Clocked, OpenStream, ConnDisconnect, Observe;
    var id := s.hasStreamId || (name == "stream:stream" && hasId);
    HeaderClocked(s, env, id);
  }

  lemma {:induction false} HeaderClocked(s: State, env: Env, id: bool)
    ensures var s0 := s.(inStream := true, hasStreamId := id);
      && Clocked(s, OpenStream(s0, env), env)
      && Clocked(s, OpenStream(ConnDisconnect(Observe(s0, BadHeader), env), env), env)
  {
    hide Clocked, OpenStream, ConnDisconnect, Observe;
    var s0 := s.(inStream := true, hasStreamId := id);
    SameTimers(s, s0, env);
    RefusedClocked(s0, env);
    OpenStreamClocked(s0, env);
    ClockedJoins(s, s0, OpenStream(ConnDisconnect(Observe(s0, BadHeader), env), env), env);
    ClockedJoins(s, s0, OpenStream(s0, env), env);
  }

  lemma {:induction false} RefusedClocked(s: State, env: Env)
    ensures Clocked(s, OpenStream(ConnDisconnect(Observe(s, BadHeader), env), env), env)
  {
    hide Clocked, OpenStream, ConnDisconnect, Observe;
    var s0 := Observe(s, BadHeader);
    var s1 := ConnDisconnect(s0, env);
    ObserveClocked(s, BadHeader, env);
    ConnDisconnectClocked(s0, env);
    OpenStreamClocked(s1, env);
    ClockedJoins(s, s0, s1, env);
    ClockedJoins(s, s1, OpenStream(s1, env), env);
  }

  lemma {:induction false} OnSaxClocked(s: State, env: Env, x: Sax)
    ensures Clocked(s, OnSax(s, env, x), env)
  {
    hide Clocked, OnStreamStart, FireStanza, ConnDisconnect, DeleteTimed;
    SameTimers(s, s, env);
    match x
    case StreamStart(name, hasId) => StreamStartClocked(s, env, name, hasId);
    case StanzaIn(st) => FireStanzaClocked(s, env, st);
    case StreamEnd => EndClocked(s, env);
  }

  lemma {:induction false} EndClocked(s: State, env: Env)
    ensures Clocked(s, ConnDisconnect(DeleteTimed(s.(inStream := false, streamDone := true), DisconnectCleanup), env), env)
  {
    hide Clocked, ConnDisconnect, DeleteTimed;
    var s0 := s.(inStream := false, streamDone := true);
    var s1 := DeleteTimed(s0, DisconnectCleanup);
    SameTimers(s, s0, env);
    DeleteTimedClocked(s0, env, DisconnectCleanup);
    ConnDisconnectClocked(s1, env);
    ClockedJoins(s, s0, s1, env);
    ClockedJoins(s, s1, ConnDisconnect(s1, env), env);
  }

  lemma {:induction false} OnChunkClocked(s: State, env: Env, chunk: seq<Sax>)
    ensures Clocked(s, OnChunk(s, env, chunk), env)
    decreases chunk
  {
    hide Clocked, OnSax;
    if chunk == [] {
      SameTimers(s, s, env);
    } else {
      var s1 := OnSax(s, env, chunk[0]);
      OnSaxClocked(s, env, chunk[0]);
      OnChunkClocked(s1, env, chunk[1..]);
      ClockedJoins(s, s1, OnChunk(s1, env, chunk[1..]), env);
    }
  }

  lemma {:induction false} OnReadClocked(s: State, env: Env, sax: seq<Sax>, wellFormed: bool)
    ensures Clocked(s, OnRead(s, env, sax, wellFormed), env)
  {
    hide Clocked, OnChunk, ConnDisconnect;
    var s1 := OnChunk(s, env, sax);
    OnChunkClocked(s, env, sax);
    ConnDisconnectClocked(s1, env);
    ClockedJoins(s, s1, ConnDisconnect(s1, env), env);
  }

  lemma {:induction false} ConnectedClocked(s: State, env: Env)
    ensures Clocked(s, Send(s.(link := Connected), StreamHeader), env)
  {
    hide Clocked, SentAs;
    SameTimers(s, Send(s.(link := Connected), StreamHeader), env);
  }

  lemma {:induction false} OnIoClocked(s: State, env: Env, io: Io)
    ensures Clocked(s, OnIo(s, env, io), env)
  {
    hide Clocked, OnRead, ConnDisconnect, Send;
    SameTimers(s, s, env);
    ConnDisconnectClocked(s, env);
    ConnectedClocked(s, env);
    if io.Chunk? {
      OnReadClocked(s, env, io.sax, io.wellFormed);
    }
  }

  lemma {:induction false} BeforeIoClocked(s: State, env: Env, writeFails: bool)
    ensures Clocked(s, AfterReset(AfterWrite(s, env, writeFails)), env)
  {
    hide Clocked, ConnDisconnect;
    var s1 := AfterWrite(s, env, writeFails);
    SameTimers(s, s, env);
    ConnDisconnectClocked(s, env);
    SameTimers(s1, AfterReset(s1), env);
    ClockedJoins(s, s1, AfterReset(s1), env);
  }

  lemma {:induction false} RunOnceKept(past: seq<Ring>, s: State, env: Env, writeFails: bool, io: Io)
    requires Forward(env) && Kept(past, s, env)
    ensures Kept(past + RingsOnce(s, env, writeFails, io), RunOnce(s, env, writeFails, io), env)
  {
    hide Kept, Forward, AfterReset, AfterWrite, FireTimed, OnIo, RingsTimed;
    var s1 := AfterReset(AfterWrite(s, env, writeFails));
    BeforeIoClocked(s, env, writeFails);
    KeptClocked(past, s, s1, env);
    FireTimedKept(past, s1, env);
    var s2 := FireTimed(s1, env);
    var s3 := OnIo(s2, env, io);
    var first := past + RingsTimed(s1, env);
    OnIoClocked(s2, env, io);
    KeptClocked(first, s2, s3, env);
    FireTimedKept(first, s3, env);
    if io == Idle {
      assert RingsTimed(s1, env) + [] == RingsTimed(s1, env);
    } else {
      assert first + RingsTimed(s3, env) == past + (RingsTimed(s1, env) + RingsTimed(s3, env));
    }
  }

  lemma {:induction false} DropClocked(s: State, h: Handler, id: string, env: Env)
    ensures Clocked(s, DropUser(s, h, id), env)
  {
    hide Clocked, WithoutEntry, WithoutId, WithoutTimer;
    DeleteTimedClocked(s, env, h);
    SameTimers(DeleteTimed(s, h), DropUser(s, h, id), env);
    ClockedJoins(s, DeleteTimed(s, h), DropUser(s, h, id), env);
  }

  lemma {:induction false} StepKept(past: seq<Ring>, s: State, env: Env, e: Event)
    requires Forward(env) && Kept(past, s, env)
    ensures Kept(past + RingsStep(s, env, e), Step(s, env, e), env)
  {
    hide Kept, Forward, RunOnce, RingsOnce, Act, DropUser;
    assert past + [] == past;
    if !s.stopped {
      match e
      case Pass(writeFails, io) => RunOnceKept(past, s, env, writeFails, io);
      case Call(action) =>
        ActClocked(s, env, action);
        KeptClocked(past, s, Act(s, env, action), env);
      case Drop(h, id) =>
        DropClocked(s, h, id, env);
        KeptClocked(past, s, DropUser(s, h, id), env);
    }
  }

  lemma {:induction false} RunKept(past: seq<Ring>, s: State, env: Env, events: seq<Event>)
    requires Forward(env) && Kept(past, s, env)
    ensures Kept(past + RingsRun(s, env, events), Run(s, env, events), env)
    decreases events
  {
    hide Kept, Forward, Step, RingsStep;
    if events == [] {
      assert past + [] == past;
    } else {
      var s1, first := Step(s, env, events[0]), past + RingsStep(s, env, events[0]);
      StepKept(past, s, env, events[0]);
      RunKept(first, s1, env, events[1..]);
      assert first + RingsRun(s1, env, events[1..]) == past + (RingsStep(s, env, events[0]) + RingsRun(s1, env, events[1..]));
    }
  }

  /** Over every run on a clock that does not run backwards: two firings of one function
      are at least as far apart as the period it had at the later, however often it was
      deleted and added in between; and no function is ever in the list twice. */
  lemma {:induction false} FiringsAreSpaced(account: Account, env: Env, events: seq<Event>)
    requires Forward(env)
    ensures Spaced(RingsRun(Init(account), env, events))
    ensures DistinctTimers(Run(Init(account), env, events).timed)
  {
    assert Kept([], Init(account), env);
    hide Run, RingsRun, Init, Spaced, Behind;
    RunKept([], Init(account), env, events);
    assert [] + RingsRun(Init(account), env, events) == RingsRun(Init(account), env, events);
  }
}
