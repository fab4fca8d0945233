/** What one dispatch of a stanza to the handlers of its id does to their chain, while
    handlers of the user are passed over until the connection is authenticated
    (src/handler.c:54-77). */
module IdDispatch {
  import opened Common
  import opened Stanzas
  import opened Negotiation
  import opened Frames
  import AuthSafety
  import Dispatch
  import IdChains

  /** What becomes of a handler: it is passed over, or called and stays, or called and is
      taken out. */
  datatype Fate = Skipped | Stayed | Gone

  function FateOf(s: State, env: Env, h: Handler, st: Stanza): Fate {
    if !Eligible(s, h) then Skipped else if Stays(s, env, h, st) then Stayed else Gone
  }

  /** The fates of the r handlers of the chain from position k on. */
  function Fates(s: State, env: Env, st: Stanza, id: string, k: nat, prev: nat, r: nat): seq<Fate>
    decreases r
  {
    var chain := Chain(s.ids, id);
    if r == 0 || s.stopped || k >= |chain| || prev > k then []
    else if !Eligible(s, chain[k]) then [Skipped] + Fates(s, env, st, id, k + 1, prev, r - 1)
    else
      var s1 := OnStanza(s, env, chain[k], st);
      if s1.stopped || k >= |Chain(s1.ids, id)| || Stays(s, env, chain[k], st) then
        [Stayed] + Fates(s1, env, st, id, k + 1, k + 1, r - 1)
      else
        [Gone] + Fates(s1.(ids := s1.ids[id := Unchained(Chain(s1.ids, id), k, prev)]), env, st, id, prev, prev, r - 1)
  }

  /** The connection when the j-th of these handlers is looked at. */
  function LookedAt(s: State, env: Env, st: Stanza, id: string, k: nat, prev: nat, r: nat, j: nat): State
    decreases r
  {
    var chain := Chain(s.ids, id);
    if j == 0 || r == 0 || s.stopped || k >= |chain| || prev > k then s
    else if !Eligible(s, chain[k]) then LookedAt(s, env, st, id, k + 1, prev, r - 1, j - 1)
    else
      var s1 := OnStanza(s, env, chain[k], st);
      if s1.stopped || k >= |Chain(s1.ids, id)| || Stays(s, env, chain[k], st) then
        LookedAt(s1, env, st, id, k + 1, k + 1, r - 1, j - 1)
      else
        LookedAt(s1.(ids := s1.ids[id := Unchained(Chain(s1.ids, id), k, prev)]), env, st, id, prev, prev, r - 1, j - 1)
  }

  // ------------------------------------------------------------- what fates mean

  /** The next handler that is called is taken out. */
  predicate NextIsGone(fates: seq<Fate>) {
    fates != [] && (fates[0] == Gone || (fates[0] == Skipped && NextIsGone(fates[1..])))
  }

  /** Whether the first handler is in the chain afterwards. */
  predicate Survives(fates: seq<Fate>)
    requires fates != []
  {
    fates[0] == Stayed || (fates[0] == Skipped && !NextIsGone(fates[1..]))
  }

  /** The chain afterwards. */
  function Left(chain: seq<Handler>, fates: seq<Fate>): seq<Handler>
    requires |chain| == |fates|
  {
    if chain == [] then [] else (if Survives(fates) then [chain[0]] else []) + Left(chain[1..], fates[1..])
  }

  /** The handlers that are called. */
  function Called(chain: seq<Handler>, fates: seq<Fate>): seq<Handler>
    requires |chain| == |fates|
  {
    if chain == [] then [] else (if fates[0] == Skipped then [] else [chain[0]]) + Called(chain[1..], fates[1..])
  }

  function Skips(n: nat): (r: seq<Fate>)
    ensures |r| == n && forall i :: 0 <= i < n ==> r[i] == Skipped
  {
    seq(n, i => Skipped)
  }

  /** A handler that was passed over is lost just if the next that is called is taken out. */
  lemma {:induction false} NextIsGoneIff(fates: seq<Fate>)
    ensures NextIsGone(fates) <==>
      exists n :: 0 <= n < |fates| && fates[n] == Gone && forall m :: 0 <= m < n ==> fates[m] == Skipped
    decreases |fates|
  {
    if fates != [] {
      var rest := fates[1..];
      NextIsGoneIff(rest);
      if n :| 0 <= n < |fates| && fates[n] == Gone && forall m :: 0 <= m < n ==> fates[m] == Skipped {
        if n > 0 {
          assert rest[n - 1] == Gone && forall m :: 0 <= m < n - 1 ==> rest[m] == fates[m + 1] == Skipped;
        }
      }
      if fates[0] == Skipped && NextIsGone(rest) {
        var n :| 0 <= n < |rest| && rest[n] == Gone && forall m :: 0 <= m < n ==> rest[m] == Skipped;
        assert fates[n + 1] == Gone && forall m :: 0 < m < n + 1 ==> fates[m] == rest[m - 1];
      }
    }
  }

  lemma {:induction false} SkipsNext(n: nat, fates: seq<Fate>)
    ensures Skips(n + 1) + fates == [Skipped] + (Skips(n) + fates)
    ensures Skips(n) + ([Skipped] + fates) == Skips(n + 1) + fates
    ensures (Skips(n + 1) + fates)[1..] == Skips(n) + fates
  {
  }

  lemma {:induction false} SkipsBefore(n: nat, f: Fate, fates: seq<Fate>)
    requires f != Skipped
    ensures NextIsGone(Skips(n) + ([f] + fates)) <==> f == Gone
    decreases n
  {
    if n == 0 {
      assert Skips(0) + ([f] + fates) == [f] + fates;
    } else {
      SkipsNext(n - 1, [f] + fates);
      SkipsBefore(n - 1, f, fates);
    }
  }

  lemma {:induction false} OnlySkips(n: nat)
    ensures !NextIsGone(Skips(n))
    decreases n
  {
    if n > 0 {
      assert Skips(n)[1..] == Skips(n - 1);
      OnlySkips(n - 1);
    }
  }

  /** Nothing more is called: those that were passed over stay. */
  lemma {:induction false} LeftAlone(chain: seq<Handler>)
    ensures Left(chain, Skips(|chain|)) == chain && Called(chain, Skips(|chain|)) == []
  {
    if chain != [] {
      assert Skips(|chain|)[1..] == Skips(|chain| - 1);
      OnlySkips(|chain| - 1);
      LeftAlone(chain[1..]);
    }
  }

  /** A handler is called after others were passed over. */
  lemma {:induction false} LeftAcross(a: seq<Handler>, h: Handler, b: seq<Handler>, f: Fate, fates: seq<Fate>)
    requires f != Skipped && |fates| == |b|
    ensures Left(a + ([h] + b), Skips(|a|) + ([f] + fates)) == (if f == Gone then [] else a + [h]) + Left(b, fates)
    decreases |a|
  {
    if a == [] {
      assert a + ([h] + b) == [h] + b && Skips(0) + ([f] + fates) == [f] + fates;
      assert ([h] + b)[1..] == b && ([f] + fates)[1..] == fates;
      assert a + [h] == [h];
    } else {
      hide *;
      var rest, fs := a[1..] + ([h] + b), Skips(|a| - 1) + ([f] + fates);
      SkipsNext(|a| - 1, [f] + fates);
      SkipsBefore(|a| - 1, f, fates);
      LeftAcross(a[1..], h, b, f, fates);
      LeftSkips(a[0], rest, fs);
      assert a + ([h] + b) == [a[0]] + rest;
      Regroup(a, h, Left(b, fates));
    }
  }

  lemma {:induction false} Regroup(a: seq<Handler>, h: Handler, l: seq<Handler>)
    requires a != []
    ensures [a[0]] + (a[1..] + [h] + l) == a + [h] + l
    ensures [] + ([] + l) == [] + l
  {
  }

  lemma {:induction false} LeftSkips(h: Handler, rest: seq<Handler>, fates: seq<Fate>)
    requires |fates| == |rest|
    ensures Left([h] + rest, [Skipped] + fates) == (if NextIsGone(fates) then [] else [h]) + Left(rest, fates)
  {
    assert ([h] + rest)[1..] == rest && ([Skipped] + fates)[1..] == fates;
  }

  // ---------------------------------------------------------------- one dispatch

  /** What may stand in the chain of an id. */
  ghost predicate Fits(chain: seq<Handler>, id: string) {
    forall i :: 0 <= i < |chain| ==> (ById(chain[i]) || chain[i].User?) && (chain[i] == HandleBind ==> id == "_xmpp_bind1")
  }

  /** One call is one observation of a call, and leaves the chain. */
  lemma {:induction false} OneCall(s: State, env: Env, h: Handler, st: Stanza, id: string)
    requires s.busyId == Some(id) && (ById(h) || h.User?) && (h == HandleBind ==> id == "_xmpp_bind1")
    ensures var r := OnStanza(s, env, h, st);
      && s.history <= r.history && Dispatch.CalledOf(r.history[|s.history|..]) == [h]
      && r.busyId == s.busyId && (r.stopped || Chain(r.ids, id) == Chain(s.ids, id))
      && (s.authenticated ==> r.authenticated)
  {
    var r := OnStanza(s, env, h, st);
    hide OnStanza, AllInner, AllNew, Distinct, BarredBy, Chain, ById, Dispatch.CalledOf;
    IdChains.OnStanzaChain(s, env, h, st, id);
    OnStanzaExtends(s, env, h, st);
    Dispatch.CalledFirst(s.link, s.history, Handled(h, st), r.history);
  }

  /** A dispatch that goes through the chain from position k on, after those from `prev` on
      were passed over: who is called, and what is left of the chain. */
  ghost predicate Outcome(chain: seq<Handler>, h: seq<Obs>, t: State, id: string, k: nat, prev: nat, fates: seq<Fate>) {
    && prev <= k <= |chain| && |fates| == |chain| - k
    && h <= t.history && Dispatch.CalledOf(t.history[|h|..]) == Called(chain[k..], fates)
    && Chain(t.ids, id) == chain[..prev] + Left(chain[prev..], Skips(k - prev) + fates)
  }

  lemma {:induction false} OutcomeEnds(chain: seq<Handler>, t: State, id: string, prev: nat)
    requires prev <= |chain| && Chain(t.ids, id) == chain
    ensures Outcome(chain, t.history, t, id, |chain|, prev, [])
  {
    LeftAlone(chain[prev..]);
    assert Skips(|chain| - prev) + [] == Skips(|chain| - prev);
    assert chain[..prev] + chain[prev..] == chain;
  }

  lemma {:induction false} OutcomeSkips(chain: seq<Handler>, h: seq<Obs>, t: State, id: string, k: nat, prev: nat, fates: seq<Fate>)
    requires k < |chain| && Outcome(chain, h, t, id, k + 1, prev, fates) && prev <= k
    ensures Outcome(chain, h, t, id, k, prev, [Skipped] + fates)
  {
    hide Left, Dispatch.CalledOf, Chain;
    SkipsNext(k - prev, fates);
    assert chain[k..][1..] == chain[k + 1..] && ([Skipped] + fates)[1..] == fates;
    assert [] + Called(chain[k + 1..], fates) == Called(chain[k + 1..], fates);
  }

  lemma {:induction false} CalledNext(chain: seq<Handler>, k: nat, f: Fate, fates: seq<Fate>)
    requires k < |chain| && f != Skipped && |fates| == |chain| - k - 1
    ensures Called(chain[k..], [f] + fates) == [chain[k]] + Called(chain[k + 1..], fates)
  {
    assert chain[k..][1..] == chain[k + 1..] && ([f] + fates)[1..] == fates;
  }

  lemma {:induction false} Around(chain: seq<Handler>, k: nat, prev: nat)
    requires prev <= k < |chain|
    ensures chain[prev..] == chain[prev..k] + ([chain[k]] + chain[k + 1..])
    ensures chain[..prev] + (chain[prev..k] + [chain[k]]) == chain[..k + 1]
    ensures Unchained(chain, k, prev)[..prev] == chain[..prev] && Unchained(chain, k, prev)[prev..] == chain[k + 1..]
    ensures |Unchained(chain, k, prev)| == prev + (|chain| - k - 1)
  {
  }

  /** A handler is called and stays. */
  lemma {:induction false} OutcomeStays(chain: seq<Handler>, g: seq<Obs>, h: seq<Obs>, t: State, id: string, k: nat, prev: nat, fates: seq<Fate>)
    requires prev <= k < |chain| && Outcome(chain, h, t, id, k + 1, k + 1, fates)
    requires g <= h && Dispatch.CalledOf(h[|g|..]) == [chain[k]]
    ensures Outcome(chain, g, t, id, k, prev, [Stayed] + fates)
  {
    hide Left, Dispatch.CalledOf, Chain, Called;
    Dispatch.CallsJoin(g, h, t.history);
    CalledNext(chain, k, Stayed, fates);
    Around(chain, k, prev);
    LeftAcross(chain[prev..k], chain[k], chain[k + 1..], Stayed, fates);
    assert Skips(0) + fates == fates;
    assert chain[..prev] + (chain[prev..k] + [chain[k]] + Left(chain[k + 1..], fates)) == chain[..k + 1] + Left(chain[k + 1..], fates);
  }

  /** A handler is called and is taken out. */
  lemma {:induction false} OutcomeGoes(chain: seq<Handler>, g: seq<Obs>, h: seq<Obs>, t: State, id: string, k: nat, prev: nat, fates: seq<Fate>)
    requires prev <= k < |chain| && Outcome(Unchained(chain, k, prev), h, t, id, prev, prev, fates)
    requires g <= h && Dispatch.CalledOf(h[|g|..]) == [chain[k]]
    ensures Outcome(chain, g, t, id, k, prev, [Gone] + fates)
  {
    hide Left, Dispatch.CalledOf, Chain, Called, Unchained;
    Dispatch.CallsJoin(g, h, t.history);
    Around(chain, k, prev);
    CalledNext(chain, k, Gone, fates);
    LeftAcross(chain[prev..k], chain[k], chain[k + 1..], Gone, fates);
    assert Skips(0) + fates == fates;
    assert [] + Left(chain[k + 1..], fates) == Left(chain[k + 1..], fates);
  }

  lemma {:induction false} Unfolds(s: State, env: Env, st: Stanza, id: string, k: nat, prev: nat, r: nat)
    requires 0 < r && !s.stopped && prev <= k < |Chain(s.ids, id)|
    ensures var h := Chain(s.ids, id)[k];
      if !Eligible(s, h) then
        FireIds(s, env, st, id, k, prev, r) == FireIds(s, env, st, id, k + 1, prev, r - 1)
        && Fates(s, env, st, id, k, prev, r) == [Skipped] + Fates(s, env, st, id, k + 1, prev, r - 1)
      else
        var s1 := OnStanza(s, env, h, st);
        if s1.stopped || k >= |Chain(s1.ids, id)| || Stays(s, env, h, st) then
          FireIds(s, env, st, id, k, prev, r) == FireIds(s1, env, st, id, k + 1, k + 1, r - 1)
          && Fates(s, env, st, id, k, prev, r) == [Stayed] + Fates(s1, env, st, id, k + 1, k + 1, r - 1)
        else
          var s2 := s1.(ids := s1.ids[id := Unchained(Chain(s1.ids, id), k, prev)]);
          FireIds(s, env, st, id, k, prev, r) == FireIds(s2, env, st, id, prev, prev, r - 1)
          && Fates(s, env, st, id, k, prev, r) == [Gone] + Fates(s2, env, st, id, prev, prev, r - 1)
  {
    hide OnStanza, Stays, Eligible, Unchained, Chain;
  }

  lemma {:induction false} Ends(s: State, env: Env, st: Stanza, id: string, k: nat, prev: nat, r: nat)
    ensures r == 0 || s.stopped || k >= |Chain(s.ids, id)| ==>
      FireIds(s, env, st, id, k, prev, r) == s && Fates(s, env, st, id, k, prev, r) == []
  {
    hide OnStanza, Stays, Eligible, Unchained, Chain;
  }

  lemma {:induction false} FitsCut(chain: seq<Handler>, id: string, k: nat, prev: nat)
    requires Fits(chain, id) && prev <= k < |chain|
    ensures Fits(Unchained(chain, k, prev), id)
  {
    hide ById;
  }

  /** The chain of the id is replaced. */
  lemma {:induction false} Rechained(s: State, id: string, chain: seq<Handler>)
    ensures var r := s.(ids := s.ids[id := chain]);
      Chain(r.ids, id) == chain && r.history == s.history && r.busyId == s.busyId && r.stopped == s.stopped
  {
  }

  /** The dispatch to the handlers of an id: exactly those that are not passed over are
      called, once each and in order, and this is the chain that is left. */
  lemma {:induction false} FireIdsOutcome(s: State, env: Env, st: Stanza, id: string, k: nat, prev: nat)
    requires s.busyId == Some(id) && Fits(Chain(s.ids, id), id) && prev <= k <= |Chain(s.ids, id)|
    requires !FireIds(s, env, st, id, k, prev, |Chain(s.ids, id)| - k).stopped
    ensures var chain := Chain(s.ids, id);
      Outcome(chain, s.history, FireIds(s, env, st, id, k, prev, |chain| - k), id, k, prev, Fates(s, env, st, id, k, prev, |chain| - k))
    decreases |Chain(s.ids, id)| - k
  {
    var chain := Chain(s.ids, id);
    var r := |chain| - k;
    hide *;
    if r == 0 {
      Ends(s, env, st, id, k, prev, r);
      OutcomeEnds(chain, s, id, prev);
    } else {
      Ends(s, env, st, id, k, prev, r);
      assert !s.stopped;
      Unfolds(s, env, st, id, k, prev, r);
      var h := chain[k];
      if !Eligible(s, h) {
        FireIdsOutcome(s, env, st, id, k + 1, prev);
        OutcomeSkips(chain, s.history, FireIds(s, env, st, id, k + 1, prev, r - 1), id, k, prev, Fates(s, env, st, id, k + 1, prev, r - 1));
      } else {
        FitsAt(chain, id, k);
        OneCall(s, env, h, st, id);
        var s1 := OnStanza(s, env, h, st);
        Ends(s1, env, st, id, k + 1, k + 1, r - 1);
        assert !s1.stopped;
        if Stays(s, env, h, st) {
          FireIdsOutcome(s1, env, st, id, k + 1, k + 1);
          OutcomeStays(chain, s.history, s1.history, FireIds(s1, env, st, id, k + 1, k + 1, r - 1), id, k, prev,
            Fates(s1, env, st, id, k + 1, k + 1, r - 1));
        } else {
          var left := Unchained(chain, k, prev);
          var s2 := s1.(ids := s1.ids[id := left]);
          Rechained(s1, id, left);
          FitsCut(chain, id, k, prev);
          Around(chain, k, prev);
          FireIdsOutcome(s2, env, st, id, prev, prev);
          OutcomeGoes(chain, s.history, s1.history, FireIds(s2, env, st, id, prev, prev, r - 1), id, k, prev,
            Fates(s2, env, st, id, prev, prev, r - 1));
        }
      }
    }
  }

  lemma {:induction false} FitsAt(chain: seq<Handler>, id: string, k: nat)
    requires Fits(chain, id) && k < |chain|
    ensures (ById(chain[k]) || chain[k].User?) && (chain[k] == HandleBind ==> id == "_xmpp_bind1")
  {
    hide ById;
  }

  // ------------------------------------------------------------ why a fate is what it is

  lemma {:induction false} LookedUnfolds(s: State, env: Env, st: Stanza, id: string, k: nat, prev: nat, r: nat, j: nat)
    requires 0 < j && 0 < r && !s.stopped && prev <= k < |Chain(s.ids, id)|
    ensures var h := Chain(s.ids, id)[k];
      if !Eligible(s, h) then
        LookedAt(s, env, st, id, k, prev, r, j) == LookedAt(s, env, st, id, k + 1, prev, r - 1, j - 1)
      else
        var s1 := OnStanza(s, env, h, st);
        if s1.stopped || k >= |Chain(s1.ids, id)| || Stays(s, env, h, st) then
          LookedAt(s, env, st, id, k, prev, r, j) == LookedAt(s1, env, st, id, k + 1, k + 1, r - 1, j - 1)
        else
          var s2 := s1.(ids := s1.ids[id := Unchained(Chain(s1.ids, id), k, prev)]);
          LookedAt(s, env, st, id, k, prev, r, j) == LookedAt(s2, env, st, id, prev, prev, r - 1, j - 1)
  {
    hide OnStanza, Stays, Eligible, Unchained, Chain;
  }

  lemma {:induction false} FateIs(s: State, env: Env, h: Handler, st: Stanza)
    ensures FateOf(s, env, h, st) == if !Eligible(s, h) then Skipped else if Stays(s, env, h, st) then Stayed else Gone
  {
    hide Eligible, Stays;
  }

  lemma {:induction false} FirstLook(s: State, env: Env, st: Stanza, id: string, k: nat, prev: nat, r: nat)
    ensures LookedAt(s, env, st, id, k, prev, r, 0) == s
  {
  }

  /** The fate of each handler is judged when it is looked at; authentication is not undone. */
  lemma {:induction false} FatesAre(s: State, env: Env, st: Stanza, id: string, k: nat, prev: nat, j: nat)
    requires s.busyId == Some(id) && Fits(Chain(s.ids, id), id) && prev <= k && k + j < |Chain(s.ids, id)|
    requires !FireIds(s, env, st, id, k, prev, |Chain(s.ids, id)| - k).stopped
    ensures var r := |Chain(s.ids, id)| - k;
      var fates, seen := Fates(s, env, st, id, k, prev, r), LookedAt(s, env, st, id, k, prev, r, j);
      && |fates| == r && fates[j] == FateOf(seen, env, Chain(s.ids, id)[k + j], st)
      && (s.authenticated ==> seen.authenticated)
    decreases |Chain(s.ids, id)| - k
  {
    var chain := Chain(s.ids, id);
    var r := |chain| - k;
    hide *;
    FireIdsOutcome(s, env, st, id, k, prev);
    OutcomeLength(chain, s.history, FireIds(s, env, st, id, k, prev, r), id, k, prev, Fates(s, env, st, id, k, prev, r));
    Ends(s, env, st, id, k, prev, r);
    Unfolds(s, env, st, id, k, prev, r);
    var h := chain[k];
    FitsAt(chain, id, k);
    OneCall(s, env, h, st, id);
    FateIs(s, env, h, st);
    FirstLook(s, env, st, id, k, prev, r);
    var s1 := OnStanza(s, env, h, st);
    if Eligible(s, h) {
      Ends(s1, env, st, id, k + 1, k + 1, r - 1);
    }
    if j > 0 {
      LookedUnfolds(s, env, st, id, k, prev, r, j);
      if !Eligible(s, h) {
        FatesAre(s, env, st, id, k + 1, prev, j - 1);
      } else if Stays(s, env, h, st) {
        FatesAre(s1, env, st, id, k + 1, k + 1, j - 1);
      } else {
        var left := Unchained(chain, k, prev);
        Rechained(s1, id, left);
        FitsCut(chain, id, k, prev);
        Around(chain, k, prev);
        assert left[prev..][j - 1] == chain[k + 1..][j - 1];
        FatesAre(s1.(ids := s1.ids[id := left]), env, st, id, prev, prev, j - 1);
      }
    }
  }

  lemma {:induction false} OutcomeLength(chain: seq<Handler>, h: seq<Obs>, t: State, id: string, k: nat, prev: nat, fates: seq<Fate>)
    requires Outcome(chain, h, t, id, k, prev, fates)
    ensures |fates| == |chain| - k
  {
    hide Left, Called, Dispatch.CalledOf, Chain;
  }

  // --------------------------------------------------------------- what is lost

  lemma {:induction false} LeftIsPart(chain: seq<Handler>, fates: seq<Fate>, h: Handler)
    requires |chain| == |fates| && h in Left(chain, fates)
    ensures h in chain
    decreases |chain|
  {
    if chain != [] && h != chain[0] {
      LeftIsPart(chain[1..], fates[1..], h);
    }
  }

  /** No function is twice in a chain, so places in it and functions are the same. */
  lemma {:induction false} LeftWhen(chain: seq<Handler>, fates: seq<Fate>, j: nat)
    requires |chain| == |fates| && AuthSafety.NoTwice(chain) && j < |chain|
    ensures chain[j] in Left(chain, fates) <==> Survives(fates[j..])
    decreases |chain|
  {
    var rest := chain[1..];
    if j == 0 {
      assert fates[0..] == fates;
      if chain[0] in Left(rest, fates[1..]) {
        LeftIsPart(rest, fates[1..], chain[0]);
      }
    } else {
      LeftWhen(rest, fates[1..], j - 1);
      assert rest[j - 1] == chain[j] && fates[1..][j - 1..] == fates[j..];
    }
  }

  lemma {:induction false} InvChain(s: State, id: string)
    requires AuthSafety.Inv(s)
    ensures AuthSafety.NoTwice(Chain(s.ids, id)) && Fits(Chain(s.ids, id), id)
  {
    var chain := Chain(s.ids, id);
    forall i | 0 <= i < |chain| ensures (ById(chain[i]) || chain[i].User?) && (chain[i] == HandleBind ==> id == "_xmpp_bind1") {
      IdChains.InChain(s, id, i);
    }
    hide AuthSafety.Occurs, AuthSafety.Safe, AuthSafety.EntriesOk, AuthSafety.FlagsOk, AuthSafety.IdOk;
    if id in s.ids {
      assert AuthSafety.ChainOk(s.history, id, s.ids[id]);
    }
  }

  /** The fates of all handlers of the id. */
  function AllFates(s: State, env: Env, st: Stanza, id: string): seq<Fate> {
    Fates(s, env, st, id, 0, 0, |Chain(s.ids, id)|)
  }

  /** The next handler after the j-th that is called is taken out. */
  ghost predicate NextGoes(fates: seq<Fate>, j: nat) {
    exists n :: j < n < |fates| && fates[n] == Gone && forall m :: j < m < n ==> fates[m] == Skipped
  }

  lemma {:induction false} NextGoesIs(fates: seq<Fate>, j: nat)
    requires j < |fates|
    ensures NextGoes(fates, j) <==> NextIsGone(fates[j + 1..])
  {
    var rest := fates[j + 1..];
    NextIsGoneIff(rest);
    hide NextIsGone;
    assert forall m :: j < m < |fates| ==> fates[m] == rest[m - j - 1];
    if n :| j < n < |fates| && fates[n] == Gone && forall m :: j < m < n ==> fates[m] == Skipped {
      assert rest[n - j - 1] == Gone && forall m :: 0 <= m < n - j - 1 ==> rest[m] == fates[m + j + 1];
    }
    if n :| 0 <= n < |rest| && rest[n] == Gone && forall m :: 0 <= m < n ==> rest[m] == Skipped {
      assert fates[n + j + 1] == Gone;
    }
  }

  lemma {:induction false} SurvivesIs(fates: seq<Fate>, j: nat)
    requires j < |fates|
    ensures Survives(fates[j..]) <==> fates[j] == Stayed || (fates[j] == Skipped && !NextGoes(fates, j))
  {
    NextGoesIs(fates, j);
    hide NextIsGone, NextGoes;
    assert fates[j..][0] == fates[j] && fates[j..][1..] == fates[j + 1..];
  }

  /** The connection after the dispatch to all handlers of the id, and when the j-th is
      looked at. */
  function AfterAll(s: State, env: Env, st: Stanza, id: string): State {
    FireIds(s, env, st, id, 0, 0, |Chain(s.ids, id)|)
  }

  function Seen(s: State, env: Env, st: Stanza, id: string, j: nat): State {
    LookedAt(s, env, st, id, 0, 0, |Chain(s.ids, id)|, j)
  }

  /** After the dispatch to the handlers of an id: one that was called is there just if it
      returned true; one that was not called is the user's, looked at before the connection
      was authenticated, and is missing if and only if the next one that was called returned
      false. */
  ghost predicate Accounted(chain: seq<Handler>, left: seq<Handler>, fates: seq<Fate>, seen: State, env: Env, j: nat) {
    && j < |fates| == |chain|
    && (fates[j] == Skipped <==> chain[j].User? && !seen.authenticated)
    && (fates[j] == Stayed <==> chain[j].User? && seen.authenticated && env(seen.tick).keep)
    && (fates[j] != Skipped ==> (chain[j] in left <==> fates[j] == Stayed))
    && (fates[j] == Skipped ==> (chain[j] !in left <==> NextGoes(fates, j)))
  }

  lemma {:induction false} AccountedFor(s: State, env: Env, st: Stanza, id: string, j: nat)
    requires AuthSafety.Inv(s) && s.busyId == Some(id) && j < |Chain(s.ids, id)|
    requires !AfterAll(s, env, st, id).stopped
    ensures Accounted(Chain(s.ids, id), Chain(AfterAll(s, env, st, id).ids, id), AllFates(s, env, st, id),
      Seen(s, env, st, id, j), env, j)
  {
    hide *;
    var chain, fates, seen := Chain(s.ids, id), AllFates(s, env, st, id), Seen(s, env, st, id, j);
    var t := AfterAll(s, env, st, id);
    AllIs(s, env, st, id, j);
    InvChain(s, id);
    FireIdsOutcome(s, env, st, id, 0, 0);
    WholeOutcome(chain, s.history, t, id, fates);
    FatesAre(s, env, st, id, 0, 0, j);
    FitsAt(chain, id, j);
    FateMeans(seen, env, chain[j], st);
    LeftWhen(chain, fates, j);
    SurvivesIs(fates, j);
    AccountedWhen(chain, Left(chain, fates), fates, seen, env, st, j);
  }

  lemma {:induction false} AccountedWhen(chain: seq<Handler>, left: seq<Handler>, fates: seq<Fate>, seen: State, env: Env, st: Stanza, j: nat)
    requires j < |fates| == |chain| && fates[j] == FateOf(seen, env, chain[j], st)
    requires fates[j] == Skipped <==> chain[j].User? && !seen.authenticated
    requires fates[j] == Stayed <==> chain[j].User? && seen.authenticated && env(seen.tick).keep
    requires chain[j] in left <==> fates[j] == Stayed || (fates[j] == Skipped && !NextGoes(fates, j))
    ensures Accounted(chain, left, fates, seen, env, j)
  {
    hide NextGoes, FateOf;
  }

  lemma {:induction false} AllIs(s: State, env: Env, st: Stanza, id: string, j: nat)
    ensures AllFates(s, env, st, id) == Fates(s, env, st, id, 0, 0, |Chain(s.ids, id)|)
    ensures AfterAll(s, env, st, id) == FireIds(s, env, st, id, 0, 0, |Chain(s.ids, id)|)
    ensures Seen(s, env, st, id, j) == LookedAt(s, env, st, id, 0, 0, |Chain(s.ids, id)|, j)
  {
    hide Fates, FireIds, LookedAt, Chain;
  }

  lemma {:induction false} WholeOutcome(chain: seq<Handler>, h: seq<Obs>, t: State, id: string, fates: seq<Fate>)
    requires Outcome(chain, h, t, id, 0, 0, fates)
    ensures |fates| == |chain| && h <= t.history && Dispatch.CalledOf(t.history[|h|..]) == Called(chain, fates)
    ensures Chain(t.ids, id) == Left(chain, fates)
  {
    hide Left, Called, Dispatch.CalledOf, Chain;
    assert chain[0..] == chain && Skips(0) + fates == fates && chain[..0] == [];
  }

  lemma {:induction false} FateMeans(s: State, env: Env, h: Handler, st: Stanza)
    requires ById(h) || h.User?
    ensures FateOf(s, env, h, st) == Skipped <==> h.User? && !s.authenticated
    ensures FateOf(s, env, h, st) == Stayed <==> h.User? && s.authenticated && env(s.tick).keep
  {
  }

  /** Exactly the handlers that are not passed over are called, once each and in order. */
  lemma {:induction false} CalledInOrder(s: State, env: Env, st: Stanza, id: string)
    requires AuthSafety.Inv(s) && s.busyId == Some(id) && !AfterAll(s, env, st, id).stopped
    ensures var t, fates := AfterAll(s, env, st, id), AllFates(s, env, st, id);
      && |fates| == |Chain(s.ids, id)| && s.history <= t.history
      && Dispatch.CalledOf(t.history[|s.history|..]) == Called(Chain(s.ids, id), fates)
      && Chain(t.ids, id) == Left(Chain(s.ids, id), fates)
  {
    hide *;
    AllIs(s, env, st, id, 0);
    InvChain(s, id);
    FireIdsOutcome(s, env, st, id, 0, 0);
    WholeOutcome(Chain(s.ids, id), s.history, AfterAll(s, env, st, id), id, AllFates(s, env, st, id));
  }

  // ----------------------------------------------------- lost, before it happens

  /** Another handler comes later in the chain, and it is the library's. */
  predicate LibraryAfter(chain: seq<Handler>, j: nat) {
    exists n :: j < n < |chain| && !chain[n].User?
  }

  /** Passing over a handler changes nothing. */
  lemma {:induction false} SkipLooksSame(s: State, env: Env, st: Stanza, id: string, k: nat, prev: nat, j: nat)
    requires s.busyId == Some(id) && Fits(Chain(s.ids, id), id) && prev <= k && k + j + 1 < |Chain(s.ids, id)|
    requires !FireIds(s, env, st, id, k, prev, |Chain(s.ids, id)| - k).stopped
    requires var r := |Chain(s.ids, id)| - k;
      FateOf(LookedAt(s, env, st, id, k, prev, r, j), env, Chain(s.ids, id)[k + j], st) == Skipped
    ensures var r := |Chain(s.ids, id)| - k; LookedAt(s, env, st, id, k, prev, r, j + 1) == LookedAt(s, env, st, id, k, prev, r, j)
    decreases |Chain(s.ids, id)| - k
  {
    var chain := Chain(s.ids, id);
    var r := |chain| - k;
    hide *;
    var h := chain[k];
    var s1 := OnStanza(s, env, h, st);
    Ends(s, env, st, id, k, prev, r);
    Unfolds(s, env, st, id, k, prev, r);
    LookedUnfolds(s, env, st, id, k, prev, r, j + 1);
    FirstLook(s, env, st, id, k, prev, r);
    FitsAt(chain, id, k);
    OneCall(s, env, h, st, id);
    FateIs(s, env, h, st);
    if j == 0 {
      FirstLook(s, env, st, id, k + 1, prev, r - 1);
    } else {
      LookedUnfolds(s, env, st, id, k, prev, r, j);
      if !Eligible(s, h) {
        SkipLooksSame(s, env, st, id, k + 1, prev, j - 1);
      } else {
        Ends(s1, env, st, id, k + 1, k + 1, r - 1);
        if Stays(s, env, h, st) {
          SkipLooksSame(s1, env, st, id, k + 1, k + 1, j - 1);
        } else {
          var left := Unchained(chain, k, prev);
          Rechained(s1, id, left);
          FitsCut(chain, id, k, prev);
          Around(chain, k, prev);
          assert left[prev..][j - 1] == chain[k + 1..][j - 1];
          SkipLooksSame(s1.(ids := s1.ids[id := left]), env, st, id, prev, prev, j - 1);
        }
      }
    }
  }

  /** What each fate of the whole dispatch is, and that a handler that is passed over
      changes nothing for the next. */
  lemma {:induction false} FateAt(s: State, env: Env, st: Stanza, id: string, j: nat)
    requires AuthSafety.Inv(s) && s.busyId == Some(id) && j < |Chain(s.ids, id)| && !AfterAll(s, env, st, id).stopped
    ensures var chain, fates, seen := Chain(s.ids, id), AllFates(s, env, st, id), Seen(s, env, st, id, j);
      && |fates| == |chain| && (fates[j] == Skipped <==> chain[j].User? && !seen.authenticated)
      && (!chain[j].User? ==> fates[j] == Gone)
      && (s.authenticated ==> seen.authenticated) && (j == 0 ==> seen == s)
      && (fates[j] == Skipped && j + 1 < |chain| ==> Seen(s, env, st, id, j + 1) == seen)
  {
    hide *;
    var chain := Chain(s.ids, id);
    AllIs(s, env, st, id, j);
    AllIs(s, env, st, id, j + 1);
    InvChain(s, id);
    FatesAre(s, env, st, id, 0, 0, j);
    FitsAt(chain, id, j);
    FateMeans(Seen(s, env, st, id, j), env, chain[j], st);
    FirstLook(s, env, st, id, 0, 0, |chain|);
    if AllFates(s, env, st, id)[j] == Skipped && j + 1 < |chain| {
      SkipLooksSame(s, env, st, id, 0, 0, j);
    }
  }

  /** Handlers of the user that follow one that is passed over are passed over. */
  lemma {:induction false} SkippedOn(s: State, env: Env, st: Stanza, id: string, j: nat, n: nat)
    requires AuthSafety.Inv(s) && s.busyId == Some(id) && j < n < |Chain(s.ids, id)| && !AfterAll(s, env, st, id).stopped
    requires AllFates(s, env, st, id) != [] && |AllFates(s, env, st, id)| == |Chain(s.ids, id)|
    requires AllFates(s, env, st, id)[j] == Skipped
    requires forall m :: j < m < n ==> Chain(s.ids, id)[m].User? || AllFates(s, env, st, id)[m] == Skipped
    ensures forall m :: j < m < n ==> AllFates(s, env, st, id)[m] == Skipped
    ensures !Seen(s, env, st, id, n).authenticated
    decreases n
  {
    hide *;
    if j + 1 < n {
      SkippedOn(s, env, st, id, j, n - 1);
    }
    FateAt(s, env, st, id, n - 1);
    FateAt(s, env, st, id, n);
  }

  /** The first of the library's handlers behind a place. */
  lemma {:induction false} FirstLibrary(chain: seq<Handler>, j: nat, n: nat) returns (first: nat)
    requires j < n < |chain| && !chain[n].User?
    ensures j < first <= n && !chain[first].User? && forall m :: j < m < first ==> chain[m].User?
    decreases n
  {
    first := n;
    if m :| j < m < n && !chain[m].User? {
      first := FirstLibrary(chain, j, m);
    }
  }

  lemma {:induction false} NextGoesAt(fates: seq<Fate>, j: nat, n: nat)
    requires j < n < |fates| && fates[n] == Gone && forall m :: j < m < n ==> fates[m] == Skipped
    ensures NextGoes(fates, j)
  {
  }

  lemma {:induction false} NextGoesFrom(fates: seq<Fate>, j: nat) returns (n: nat)
    requires NextGoes(fates, j)
    ensures j < n < |fates| && fates[n] == Gone && forall m :: j < m < n ==> fates[m] == Skipped
  {
    n :| j < n < |fates| && fates[n] == Gone && forall m :: j < m < n ==> fates[m] == Skipped;
  }

  lemma {:induction false} LibraryIs(chain: seq<Handler>, j: nat, n: nat)
    requires j < n < |chain| && !chain[n].User?
    ensures LibraryAfter(chain, j)
  {
  }

  lemma {:induction false} LibraryFrom(chain: seq<Handler>, j: nat) returns (n: nat)
    requires LibraryAfter(chain, j)
    ensures j < n < |chain| && !chain[n].User?
  {
    n :| j < n < |chain| && !chain[n].User?;
  }

  /** For a handler that is passed over, the next that is called is taken out just if one of
      the library's comes later. */
  lemma {:induction false} NextGoesIff(s: State, env: Env, st: Stanza, id: string, j: nat)
    requires AuthSafety.Inv(s) && s.busyId == Some(id) && j < |Chain(s.ids, id)| && !AfterAll(s, env, st, id).stopped
    requires |AllFates(s, env, st, id)| == |Chain(s.ids, id)| && AllFates(s, env, st, id)[j] == Skipped
    ensures NextGoes(AllFates(s, env, st, id), j) <==> LibraryAfter(Chain(s.ids, id), j)
  {
    hide *;
    var chain, fates := Chain(s.ids, id), AllFates(s, env, st, id);
    if LibraryAfter(chain, j) {
      var l := LibraryFrom(chain, j);
      var n := FirstLibrary(chain, j, l);
      SkippedOn(s, env, st, id, j, n);
      FateAt(s, env, st, id, n);
      NextGoesAt(fates, j, n);
    }
    if NextGoes(fates, j) {
      var n := NextGoesFrom(fates, j);
      SkippedOn(s, env, st, id, j, n);
      FateAt(s, env, st, id, n);
      LibraryIs(chain, j, n);
    }
  }

  /** The library registers one function for an id. */
  lemma {:induction false} OneLibrary(s: State, id: string, m: nat, n: nat)
    requires AuthSafety.Inv(s) && m < n < |Chain(s.ids, id)|
    ensures Chain(s.ids, id)[m].User? || Chain(s.ids, id)[n].User?
  {
    InvChain(s, id);
    hide AuthSafety.Occurs, AuthSafety.Safe, AuthSafety.EntriesOk, AuthSafety.FlagsOk;
    var chain := Chain(s.ids, id);
    assert AuthSafety.ChainOk(s.history, id, s.ids[id]);
    assert AuthSafety.IdOk(s.history, id, chain[m]) && AuthSafety.IdOk(s.history, id, chain[n]) && chain[m] != chain[n];
  }

  /** Before authentication the user's handlers that come first are all passed over. */
  lemma {:induction false} NotSeenYet(s: State, env: Env, st: Stanza, id: string, j: nat)
    requires AuthSafety.Inv(s) && s.busyId == Some(id) && j < |Chain(s.ids, id)| && !AfterAll(s, env, st, id).stopped
    requires !s.authenticated && forall m :: 0 <= m < j ==> Chain(s.ids, id)[m].User?
    ensures Seen(s, env, st, id, j) == s
    decreases j
  {
    hide *;
    FateAt(s, env, st, id, j);
    if j > 0 {
      NotSeenYet(s, env, st, id, j - 1);
      FateAt(s, env, st, id, j - 1);
    }
  }

  lemma {:induction false} CalledIsPart(chain: seq<Handler>, fates: seq<Fate>, h: Handler)
    requires |chain| == |fates| && h in Called(chain, fates)
    ensures h in chain
    decreases |chain|
  {
    if chain != [] && h != chain[0] {
      CalledIsPart(chain[1..], fates[1..], h);
    }
  }

  lemma {:induction false} CalledWhen(chain: seq<Handler>, fates: seq<Fate>, j: nat)
    requires |chain| == |fates| && AuthSafety.NoTwice(chain) && j < |chain|
    ensures chain[j] in Called(chain, fates) <==> fates[j] != Skipped
    decreases |chain|
  {
    var rest := chain[1..];
    if j == 0 {
      if chain[0] in Called(rest, fates[1..]) {
        CalledIsPart(rest, fates[1..], chain[0]);
      }
    } else {
      CalledWhen(rest, fates[1..], j - 1);
      assert rest[j - 1] == chain[j] && fates[1..][j - 1] == fates[j];
    }
  }

  /** A handler of the chain of an id is lost, that is missing afterwards and not called, if
      and only if it is the user's, the connection is not authenticated when the stanza
      arrives, and a handler of the library comes later in the chain. */
  lemma {:induction false} LostIff(s: State, env: Env, st: Stanza, id: string, j: nat)
    requires AuthSafety.Inv(s) && s.busyId == Some(id) && j < |Chain(s.ids, id)|
    requires !AfterAll(s, env, st, id).stopped
    ensures var chain, t := Chain(s.ids, id), AfterAll(s, env, st, id);
      && s.history <= t.history
      && (chain[j] !in Chain(t.ids, id) && chain[j] !in Dispatch.CalledOf(t.history[|s.history|..])
          <==> chain[j].User? && !s.authenticated && LibraryAfter(chain, j))
  {
    hide *;
    var chain, fates := Chain(s.ids, id), AllFates(s, env, st, id);
    CalledInOrder(s, env, st, id);
    AccountedFor(s, env, st, id, j);
    AccountedMeans(chain, Chain(AfterAll(s, env, st, id).ids, id), fates, Seen(s, env, st, id, j), env, j);
    InvChain(s, id);
    CalledWhen(chain, fates, j);
    FateAt(s, env, st, id, j);
    if fates[j] == Skipped {
      NextGoesIff(s, env, st, id, j);
    } else if chain[j].User? && !s.authenticated && LibraryAfter(chain, j) {
      var n := LibraryFrom(chain, j);
      forall m | 0 <= m < j ensures chain[m].User? {
        OneLibrary(s, id, m, n);
      }
      NotSeenYet(s, env, st, id, j);
    }
  }

  /** Nothing is lost of a chain if the connection is authenticated, or if no handler in it
      is the user's: just those that were called and returned false are missing. */
  lemma {:induction false} NothingIsLost(s: State, env: Env, st: Stanza, id: string, j: nat)
    requires AuthSafety.Inv(s) && s.busyId == Some(id) && j < |Chain(s.ids, id)|
    requires !AfterAll(s, env, st, id).stopped
    requires s.authenticated || !Chain(s.ids, id)[j].User?
    ensures var fates := AllFates(s, env, st, id);
      && j < |fates| && fates[j] != Skipped
      && (Chain(s.ids, id)[j] !in Chain(AfterAll(s, env, st, id).ids, id) <==> fates[j] == Gone)
  {
    hide *;
    AllIs(s, env, st, id, j);
    AccountedFor(s, env, st, id, j);
    AccountedMeans(Chain(s.ids, id), Chain(AfterAll(s, env, st, id).ids, id), AllFates(s, env, st, id), Seen(s, env, st, id, j), env, j);
    InvChain(s, id);
    FatesAre(s, env, st, id, 0, 0, j);
  }

  lemma {:induction false} AccountedMeans(chain: seq<Handler>, left: seq<Handler>, fates: seq<Fate>, seen: State, env: Env, j: nat)
    requires Accounted(chain, left, fates, seen, env, j)
    ensures j < |fates| == |chain| && (fates[j] == Skipped ==> chain[j].User? && !seen.authenticated)
    ensures fates[j] != Skipped ==> (chain[j] in left <==> fates[j] == Stayed)
    ensures fates[j] == Skipped ==> (chain[j] !in left <==> NextGoes(fates, j))
  {
    hide NextGoes;
  }

  /** The user answers nothing and does nothing. */
  const Idle: Env := n => Reply(true, true, NoResponse, 0, [], true)

  /** It does happen: a handler of the user for the reply to the bind request, registered
      before the library's own, is not called by the reply, and is gone after it. */
  lemma {:induction false} UserIsLost(s: State, st: Stanza)
    requires AuthSafety.Inv(s) && s.busyId == Some("_xmpp_bind1") && !s.stopped && !s.authenticated && !s.sessionRequired
    requires Chain(s.ids, "_xmpp_bind1") == [User(0), HandleBind] && Type(st) == Some("result")
    ensures var t := FireIds(s, Idle, st, "_xmpp_bind1", 0, 0, 2);
      && !t.stopped && t.authenticated && Chain(t.ids, "_xmpp_bind1") == []
      && s.history <= t.history && Dispatch.CalledOf(t.history[|s.history|..]) == [HandleBind]
  {
    var id, chain := "_xmpp_bind1", [User(0), HandleBind];
    var s1 := OnStanza(s, Idle, HandleBind, st);
    BindAnswered(s, st);
    Looks(s, st);
    hide *;
    InvChain(s, id);
    FitsAt(chain, id, 1);
    OneCall(s, Idle, HandleBind, st, id);
    var s2 := s1.(ids := s1.ids[id := Unchained(chain, 1, 0)]);
    Rechained(s1, id, Unchained(chain, 1, 0));
    SameAuthenticated(s1, id, Unchained(chain, 1, 0));
    Unfolds(s, Idle, st, id, 0, 0, 2);
    Unfolds(s, Idle, st, id, 1, 0, 1);
    Ends(s2, Idle, st, id, 0, 0, 0);
    assert Unchained(chain, 1, 0) == [] by { Emptied(); }
  }

  lemma {:induction false} Emptied()
    ensures Unchained([User(0), HandleBind], 1, 0) == []
  {
  }

  lemma {:induction false} SameAuthenticated(s: State, id: string, chain: seq<Handler>)
    ensures s.(ids := s.ids[id := chain]).authenticated == s.authenticated
  {
  }

  lemma {:induction false} Looks(s: State, st: Stanza)
    requires !s.authenticated
    ensures !Eligible(s, User(0)) && Eligible(s, HandleBind) && !Stays(s, Idle, HandleBind, st)
  {
  }

  lemma {:induction false} BindAnswered(s: State, st: Stanza)
    requires !s.stopped && !s.sessionRequired && Type(st) == Some("result")
    ensures var r := OnStanza(s, Idle, HandleBind, st); !r.stopped && r.authenticated
  {
    hide WithoutTimer, Type;
  }
}
