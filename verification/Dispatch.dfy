/** What one dispatch of a stanza to the list of handlers does, while the handlers it calls
    register others and are taken out themselves. */
module Dispatch {
  import opened Common
  import opened Stanzas
  import opened Negotiation
  import opened Meanings
  import opened Frames

  // ------------------------------------------------------------------ dispatch

  /** Whom a stanza is for: a user's handler on an authenticated connection or one of the
      library's, if the stanza or one of its children is in the namespace that was asked for,
      and it has the name and the type that were asked for; what is NULL was not. */
  predicate Chosen(authenticated: bool, e: Entry, st: Stanza) {
    && (e.handler.User? ==> authenticated)
    && (e.ns.None? || Bears(st, "xmlns", e.ns.value)
        || exists i :: 0 <= i < |st.children| && Bears(st.children[i], "xmlns", e.ns.value))
    && (e.name.None? || (st.kind != TextKind && st.data == e.name))
    && (e.typ.None? || Bears(st, "type", e.typ.value))
  }

  lemma {:induction false} ChosenIs(s: State, e: Entry, st: Stanza)
    ensures Chosen(s.authenticated, e, st) <==> Eligible(s, e.handler) && Matches(e, st)
  {
    hide Bears, Ns, Type, Name;
    forall c: Stanza, v ensures Ns(c) == Some(v) <==> Bears(c, "xmlns", v) {
      QueriesAre(c, v);
    }
    if e.name.Some? {
      QueriesAre(st, e.name.value);
    }
    if e.typ.Some? {
      QueriesAre(st, e.typ.value);
    }
  }

  /** The handlers that are to be called, in the order of the list. */
  function Selected(authenticated: bool, hs: seq<Entry>, st: Stanza): seq<Handler> {
    if hs == [] then []
    else (if Chosen(authenticated, hs[0], st) then [hs[0].handler] else []) + Selected(authenticated, hs[1..], st)
  }

  /** The handlers that were called, according to the observations. */
  function CalledOf(os: seq<Obs>): seq<Handler> {
    if os == [] then [] else CallIn(os[0]) + CalledOf(os[1..])
  }

  function CallIn(o: Obs): seq<Handler> {
    if o.Handled? then [o.handler] else []
  }

  /** Whether each of the r entries from position i on stays. */
  function Fates(s: State, env: Env, st: Stanza, i: nat, r: nat): seq<bool>
    decreases r
  {
    if r == 0 || s.stopped || i >= |s.handlers| then []
    else
      var e := s.handlers[i];
      if !Eligible(s, e.handler) || !Matches(e, st) then [true] + Fates(s, env, st, i + 1, r - 1)
      else
        var s1 := OnStanza(s, env, e.handler, st);
        if s1.stopped || i >= |s1.handlers| || Stays(s, env, e.handler, st) then [true] + Fates(s1, env, st, i + 1, r - 1)
        else [false] + Fates(s1.(handlers := RemoveAt(s1.handlers, i)), env, st, i, r - 1)
  }

  /** The connection when the k-th of these entries is looked at. */
  function LookedAt(s: State, env: Env, st: Stanza, i: nat, r: nat, k: nat): State
    decreases r
  {
    if k == 0 || r == 0 || s.stopped || i >= |s.handlers| then s
    else
      var e := s.handlers[i];
      if !Eligible(s, e.handler) || !Matches(e, st) then LookedAt(s, env, st, i + 1, r - 1, k - 1)
      else
        var s1 := OnStanza(s, env, e.handler, st);
        if s1.stopped || i >= |s1.handlers| || Stays(s, env, e.handler, st) then LookedAt(s1, env, st, i + 1, r - 1, k - 1)
        else LookedAt(s1.(handlers := RemoveAt(s1.handlers, i)), env, st, i, r - 1, k - 1)
  }

  function KeptBy(hs: seq<Entry>, fates: seq<bool>): seq<Entry>
    requires |hs| == |fates|
  {
    if hs == [] then [] else (if fates[0] then [hs[0]] else []) + KeptBy(hs[1..], fates[1..])
  }

  ghost predicate NoneById(hs: seq<Entry>) {
    forall i :: 0 <= i < |hs| ==> !ById(hs[i].handler)
  }

  lemma {:induction false} FirstCall(o: Obs, rest: seq<Obs>)
    ensures CalledOf([o] + rest) == CallIn(o) + CalledOf(rest)
  {
    assert ([o] + rest)[1..] == rest;
  }

  lemma {:induction false} CalledJoin(a: seq<Obs>, b: seq<Obs>)
    ensures CalledOf(a + b) == CalledOf(a) + CalledOf(b)
  {
    if a == [] {
      assert a + b == b;
      assert [] + CalledOf(b) == CalledOf(b);
    } else {
      hide *;
      var o, rest := a[0], a[1..];
      assert a == [o] + rest && a + b == [o] + (rest + b);
      FirstCall(o, rest);
      FirstCall(o, rest + b);
      CalledJoin(rest, b);
      assert CallIn(o) + (CalledOf(rest) + CalledOf(b)) == CallIn(o) + CalledOf(rest) + CalledOf(b);
    }
  }

  lemma {:induction false} InnerCallsNone(link: Link, os: seq<Obs>)
    requires AllInner(link, os)
    ensures CalledOf(os) == []
  {
    if os != [] {
      assert Inner(link, os[0]);
      InnerCallsNone(link, os[1..]);
    }
  }

  /** A handler was called, by one observation, and has added entries that are new. */
  ghost predicate HasCalled(s: State, r: State, h: Handler) {
    && s.history <= r.history && CalledOf(r.history[|s.history|..]) == [h]
    && s.handlers <= r.handlers && AllNew(r.handlers[|s.handlers|..]) && Distinct(r.handlers)
    && r.authenticated == s.authenticated
  }

  lemma {:induction false} HasCalledIs(s: State, r: State, h: Handler)
    requires HasCalled(s, r, h)
    ensures s.history <= r.history && CalledOf(r.history[|s.history|..]) == [h]
    ensures s.handlers <= r.handlers && AllNew(r.handlers[|s.handlers|..]) && Distinct(r.handlers)
    ensures r.authenticated == s.authenticated
  {
    hide CalledOf, AllNew, Distinct;
  }

  /** One call is one observation of a call; it adds entries that are new. */
  lemma {:induction false} OneCall(s: State, env: Env, h: Handler, st: Stanza)
    requires !ById(h) && Distinct(s.handlers)
    ensures var r := OnStanza(s, env, h, st);
      && s.history <= r.history && CalledOf(r.history[|s.history|..]) == [h]
      && s.handlers <= r.handlers && AllNew(r.handlers[|s.handlers|..]) && Distinct(r.handlers)
      && r.authenticated == s.authenticated && HasCalled(s, r, h)
  {
    var r := OnStanza(s, env, h, st);
    hide AllInner, Distinct, AllNew, CalledOf, OnStanza;
    OnStanzaKeeps(s, env, h, st);
    CalledFirst(s.link, s.history, Handled(h, st), r.history);
  }

  /** A call, and what happens in it. */
  lemma {:induction false} CalledFirst(link: Link, past: seq<Obs>, o: Obs, later: seq<Obs>)
    requires o.Handled? && past + [o] <= later && AllInner(link, later[|past| + 1..])
    ensures past <= later && CalledOf(later[|past|..]) == [o.handler]
  {
    hide AllInner, CalledOf;
    var rest := later[|past| + 1..];
    assert later[|past|..] == [o] + rest;
    InnerCallsNone(link, rest);
    FirstCall(o, rest);
  }

  /** The part of a list that one dispatch has still to go through. */
  function Rest(hs: seq<Entry>, i: nat, r: nat): seq<Entry>
    requires i + r <= |hs|
  {
    hs[i..i + r]
  }

  /** A dispatch that goes through r entries from position i on: what it leaves. */
  ghost predicate Outcome(s: State, t: State, st: Stanza, i: nat, r: nat, fates: seq<bool>)
    requires i + r <= |s.handlers|
  {
    && |fates| == r
    && s.history <= t.history
    && CalledOf(t.history[|s.history|..]) == Selected(s.authenticated, Rest(s.handlers, i, r), st)
    && t.authenticated == s.authenticated
    && Distinct(t.handlers)
    && ListLeft(s.handlers, t.handlers, i, r, fates)
  }

  /** The list before and after: what stays of it, and then new entries. */
  ghost predicate ListLeft(hs: seq<Entry>, t: seq<Entry>, i: nat, r: nat, fates: seq<bool>)
    requires i + r <= |hs| && |fates| == r
  {
    var kept := hs[..i] + KeptBy(Rest(hs, i, r), fates) + hs[i + r..];
    kept <= t && AllNew(t[|kept|..])
  }

  lemma {:induction false} OutcomeParts(s: State, t: State, st: Stanza, i: nat, r: nat, fates: seq<bool>)
    requires i + r <= |s.handlers| && Outcome(s, t, st, i, r, fates)
    ensures |fates| == r && s.history <= t.history && t.authenticated == s.authenticated && Distinct(t.handlers)
    ensures CalledOf(t.history[|s.history|..]) == Selected(s.authenticated, Rest(s.handlers, i, r), st)
    ensures ListLeft(s.handlers, t.handlers, i, r, fates)
  {
    hide Distinct, CalledOf, Selected, Rest, ListLeft;
  }

  lemma {:induction false} OutcomeWhen(s: State, t: State, st: Stanza, i: nat, r: nat, fates: seq<bool>)
    requires i + r <= |s.handlers| && |fates| == r && s.history <= t.history
    requires t.authenticated == s.authenticated && Distinct(t.handlers)
    requires CalledOf(t.history[|s.history|..]) == Selected(s.authenticated, Rest(s.handlers, i, r), st)
    requires ListLeft(s.handlers, t.handlers, i, r, fates)
    ensures Outcome(s, t, st, i, r, fates)
  {
    hide Distinct, CalledOf, Selected, Rest, ListLeft;
  }

  lemma {:induction false} OutcomeEnds(s: State, st: Stanza, i: nat)
    requires i <= |s.handlers| && Distinct(s.handlers)
    ensures Outcome(s, s, st, i, 0, [])
  {
    hide Distinct;
    assert s.handlers[..i] + [] + s.handlers[i..] == s.handlers;
  }

  /** An entry is passed over. */
  lemma {:induction false} OutcomeSkips(s: State, t: State, st: Stanza, i: nat, r: nat, fates: seq<bool>)
    requires 0 < r && i + r <= |s.handlers| && !Chosen(s.authenticated, s.handlers[i], st)
    requires Outcome(s, t, st, i + 1, r - 1, fates)
    ensures Outcome(s, t, st, i, r, [true] + fates)
  {
    hide Distinct, AllNew, Chosen;
    var rest := Rest(s.handlers, i, r);
    assert rest[1..] == Rest(s.handlers, i + 1, r - 1);
    assert ([true] + fates)[1..] == fates;
    assert [] + Selected(s.authenticated, rest[1..], st) == Selected(s.authenticated, rest[1..], st);
    var kept := KeptBy(rest[1..], fates);
    assert s.handlers[..i] + ([s.handlers[i]] + kept) + s.handlers[i + r..] == s.handlers[..i + 1] + kept + s.handlers[i + r..];
  }

  lemma {:induction false} CallsJoin(a: seq<Obs>, b: seq<Obs>, c: seq<Obs>)
    requires a <= b <= c
    ensures CalledOf(c[|a|..]) == CalledOf(b[|a|..]) + CalledOf(c[|b|..])
  {
    assert c[|a|..] == b[|a|..] + c[|b|..];
    CalledJoin(b[|a|..], c[|b|..]);
  }

  /** The list after an entry was called that stays, or was taken out. */
  lemma {:induction false} ListAfter(hs: seq<Entry>, added: seq<Entry>, i: nat, r: nat, k: seq<Entry>)
    requires 0 < r && i + r <= |hs|
    ensures var more := hs + added;
      && Rest(more, i + 1, r - 1) == Rest(hs, i, r)[1..]
      && more[..i + 1] + k + more[i + r..] == (hs[..i] + ([hs[i]] + k) + hs[i + r..]) + added
      && |RemoveAt(more, i)| == |more| - 1
      && Rest(RemoveAt(more, i), i, r - 1) == Rest(hs, i, r)[1..]
      && RemoveAt(more, i)[..i] + k + RemoveAt(more, i)[i + (r - 1)..] == (hs[..i] + k + hs[i + r..]) + added
  {
    var more := hs + added;
    assert more[i + r..] == hs[i + r..] + added;
    assert RemoveAt(more, i)[i + (r - 1)..] == hs[i + r..] + added;
  }

  lemma {:induction false} NewAppended(kept: seq<Entry>, added: seq<Entry>, t: seq<Entry>)
    requires AllNew(added) && kept + added <= t && AllNew(t[|kept + added|..])
    ensures kept <= t && AllNew(t[|kept|..])
  {
    assert t[|kept|..] == added + t[|kept + added|..];
  }

  lemma {:induction false} DistinctRemoved(hs: seq<Entry>, i: nat)
    requires Distinct(hs) && i < |hs|
    ensures Distinct(RemoveAt(hs, i))
  {
  }

  /** The first of the entries that are left stays. */
  lemma {:induction false} ListKeepsOne(hs: seq<Entry>, added: seq<Entry>, t: seq<Entry>, i: nat, r: nat, fates: seq<bool>)
    requires 0 < r && i + r <= |hs| && |fates| == r - 1 && AllNew(added)
    requires ListLeft(hs + added, t, i + 1, r - 1, fates)
    ensures ListLeft(hs, t, i, r, [true] + fates)
  {
    hide AllNew;
    var rest := Rest(hs, i, r);
    var kept := KeptBy(rest[1..], fates);
    ListAfter(hs, added, i, r, kept);
    assert ([true] + fates)[1..] == fates;
    NewAppended(hs[..i] + ([hs[i]] + kept) + hs[i + r..], added, t);
  }

  /** The first of the entries that are left is taken out. */
  lemma {:induction false} ListDropsOne(hs: seq<Entry>, added: seq<Entry>, t: seq<Entry>, i: nat, r: nat, fates: seq<bool>)
    requires 0 < r && i + r <= |hs| && |fates| == r - 1 && AllNew(added)
    requires var cut := RemoveAt(hs + added, i); i + (r - 1) <= |cut| && ListLeft(cut, t, i, r - 1, fates)
    ensures ListLeft(hs, t, i, r, [false] + fates)
  {
    hide AllNew, RemoveAt;
    var rest := Rest(hs, i, r);
    var kept := KeptBy(rest[1..], fates);
    ListAfter(hs, added, i, r, kept);
    assert ([false] + fates)[1..] == fates;
    assert [] + kept == kept;
    NewAppended(hs[..i] + kept + hs[i + r..], added, t);
  }

  lemma {:induction false} ListKeeps(hs: seq<Entry>, more: seq<Entry>, t: seq<Entry>, i: nat, r: nat, fates: seq<bool>)
    requires 0 < r && i + r <= |hs| && |fates| == r - 1 && hs <= more && AllNew(more[|hs|..])
    requires ListLeft(more, t, i + 1, r - 1, fates)
    ensures ListLeft(hs, t, i, r, [true] + fates)
  {
    hide AllNew, ListLeft;
    assert hs + more[|hs|..] == more;
    ListKeepsOne(hs, more[|hs|..], t, i, r, fates);
  }

  lemma {:induction false} ListDrops(hs: seq<Entry>, more: seq<Entry>, t: seq<Entry>, i: nat, r: nat, fates: seq<bool>)
    requires 0 < r && i + r <= |hs| && |fates| == r - 1 && hs <= more && AllNew(more[|hs|..])
    requires var cut := RemoveAt(more, i); i + (r - 1) <= |cut| && ListLeft(cut, t, i, r - 1, fates)
    ensures ListLeft(hs, t, i, r, [false] + fates)
  {
    hide AllNew, ListLeft, RemoveAt;
    assert hs + more[|hs|..] == more;
    ListDropsOne(hs, more[|hs|..], t, i, r, fates);
  }

  /** The calls of a dispatch that begins with the call of an entry. */
  lemma {:induction false} FirstCalled(authenticated: bool, hs: seq<Entry>, i: nat, r: nat, st: Stanza, more: seq<Entry>)
    requires 0 < r && i + r <= |hs| && Chosen(authenticated, hs[i], st) && hs <= more
    ensures Selected(authenticated, Rest(hs, i, r), st) == [hs[i].handler] + Selected(authenticated, Rest(more, i + 1, r - 1), st)
    ensures |RemoveAt(more, i)| == |more| - 1
    ensures Rest(RemoveAt(more, i), i, r - 1) == Rest(more, i + 1, r - 1)
  {
    hide Chosen, Matches;
    assert Rest(hs, i, r)[1..] == Rest(more, i + 1, r - 1);
    assert Rest(RemoveAt(more, i), i, r - 1) == Rest(more, i + 1, r - 1);
  }

  /** An entry is called, and whether it stays or not the rest is gone through. */
  lemma {:induction false} OutcomeCalls(s: State, s1: State, t: State, st: Stanza, i: nat, r: nat, fates: seq<bool>)
    requires 0 < r && i + r <= |s.handlers| && Chosen(s.authenticated, s.handlers[i], st) && HasCalled(s, s1, s.handlers[i].handler)
    requires i + r <= |s1.handlers| && Outcome(s1, t, st, i + 1, r - 1, fates)
    ensures Outcome(s, t, st, i, r, [true] + fates)
  {
    HasCalledIs(s, s1, s.handlers[i].handler);
    hide *;
    OutcomeParts(s1, t, st, i + 1, r - 1, fates);
    ListKeeps(s.handlers, s1.handlers, t.handlers, i, r, fates);
    FirstCalled(s.authenticated, s.handlers, i, r, st, s1.handlers);
    CallsJoin(s.history, s1.history, t.history);
    OutcomeWhen(s, t, st, i, r, [true] + fates);
  }

  lemma {:induction false} OutcomeRemoves(s: State, s1: State, t: State, st: Stanza, i: nat, r: nat, fates: seq<bool>)
    requires 0 < r && i + r <= |s.handlers| && Chosen(s.authenticated, s.handlers[i], st) && HasCalled(s, s1, s.handlers[i].handler)
    requires
      && i + r <= |s1.handlers|
      && var s2 := s1.(handlers := RemoveAt(s1.handlers, i));
         i + (r - 1) <= |s2.handlers| && Outcome(s2, t, st, i, r - 1, fates)
    ensures Outcome(s, t, st, i, r, [false] + fates)
  {
    HasCalledIs(s, s1, s.handlers[i].handler);
    var cut := RemoveAt(s1.handlers, i);
    var s2 := s1.(handlers := cut);
    hide *;
    OutcomeParts(s2, t, st, i, r - 1, fates);
    SameButList(s1, cut);
    ListDrops(s.handlers, s1.handlers, t.handlers, i, r, fates);
    FirstCalled(s.authenticated, s.handlers, i, r, st, s1.handlers);
    CallsJoin(s.history, s1.history, t.history);
    OutcomeWhen(s, t, st, i, r, [false] + fates);
  }

  lemma {:induction false} SameButList(s: State, hs: seq<Entry>)
    ensures var r := s.(handlers := hs); r.handlers == hs && r.history == s.history && r.authenticated == s.authenticated
  {
  }

  lemma {:induction false} NoneByIdLater(hs: seq<Entry>, more: seq<Entry>, i: nat, r: nat)
    requires hs <= more && 0 < r && i + r <= |hs| && NoneById(Rest(hs, i, r))
    ensures NoneById(Rest(more, i + 1, r - 1))
    ensures |RemoveAt(more, i)| == |more| - 1 && NoneById(Rest(RemoveAt(more, i), i, r - 1))
  {
    assert Rest(more, i + 1, r - 1) == Rest(hs, i, r)[1..];
    assert Rest(RemoveAt(more, i), i, r - 1) == Rest(hs, i, r)[1..];
  }

  /** One dispatch: exactly the chosen entries among those that were there are called, once
      each and in order, whatever their handlers register; what is left is those that
      stayed, and after them the entries that were added, none of which was called. */
  lemma {:induction false} DispatchOutcome(s: State, env: Env, st: Stanza, i: nat, r: nat)
    requires i + r <= |s.handlers| && Distinct(s.handlers) && NoneById(Rest(s.handlers, i, r))
    requires !FireList(s, env, st, i, r).stopped
    ensures Outcome(s, FireList(s, env, st, i, r), st, i, r, Fates(s, env, st, i, r))
    decreases r
  {
    hide Distinct, NoneById, OnStanza, Outcome, RemoveAt, Stays, Matches, ById;
    if r == 0 {
      OutcomeEnds(s, st, i);
    } else {
      StopLasts(s, env, st, i, r);
      var e := s.handlers[i];
      ChosenIs(s, e, st);
      NoneByIdLater(s.handlers, s.handlers, i, r);
      if !Eligible(s, e.handler) || !Matches(e, st) {
        DispatchOutcome(s, env, st, i + 1, r - 1);
        OutcomeSkips(s, FireList(s, env, st, i + 1, r - 1), st, i, r, Fates(s, env, st, i + 1, r - 1));
      } else {
        FirstById(s, i, r);
        OneCall(s, env, e.handler, st);
        var s1 := OnStanza(s, env, e.handler, st);
        NoneByIdLater(s.handlers, s1.handlers, i, r);
        if s1.stopped || Stays(s, env, e.handler, st) {
          DispatchOutcome(s1, env, st, i + 1, r - 1);
          OutcomeCalls(s, s1, FireList(s1, env, st, i + 1, r - 1), st, i, r, Fates(s1, env, st, i + 1, r - 1));
        } else {
          var s2 := s1.(handlers := RemoveAt(s1.handlers, i));
          DistinctRemoved(s1.handlers, i);
          DispatchOutcome(s2, env, st, i, r - 1);
          OutcomeRemoves(s, s1, FireList(s2, env, st, i, r - 1), st, i, r, Fates(s2, env, st, i, r - 1));
        }
      }
    }
  }

  lemma {:induction false} FirstById(s: State, i: nat, r: nat)
    requires 0 < r && i + r <= |s.handlers| && NoneById(Rest(s.handlers, i, r))
    ensures !ById(s.handlers[i].handler)
  {
    assert Rest(s.handlers, i, r)[0] == s.handlers[i];
  }

  lemma {:induction false} StopLasts(s: State, env: Env, st: Stanza, i: nat, r: nat)
    requires !FireList(s, env, st, i, r).stopped
    ensures !s.stopped
  {
    hide OnStanza;
  }

  /** The handlers of the library that stay once they were called. */
  predicate Lasting(h: Handler, st: Stanza) {
    h == HandleError || (h == HandleDigestRspauth && Name(st) == Some("challenge"))
  }

  /** An entry stays: if it is not chosen; one of the library's if it is a lasting one; one of
      the user's if it returns true, to the answer that is given when it is called. */
  ghost predicate FateFits(s: State, seen: State, env: Env, e: Entry, st: Stanza, stays: bool) {
    stays <==> !Chosen(s.authenticated, e, st) || (if e.handler.User? then env(seen.tick).keep else Lasting(e.handler, st))
  }

  lemma {:induction false} SameFlagFits(s: State, t: State, seen: State, env: Env, e: Entry, st: Stanza, stays: bool)
    requires FateFits(s, seen, env, e, st, stays) && t.authenticated == s.authenticated
    ensures FateFits(t, seen, env, e, st, stays)
  {
    hide Chosen, Lasting;
  }

  lemma {:induction false} LookedUnfolds(s: State, env: Env, st: Stanza, i: nat, r: nat, k: nat)
    requires 0 < k && 0 < r && i < |s.handlers| && !s.stopped
    ensures var e := s.handlers[i];
      if !Eligible(s, e.handler) || !Matches(e, st) then
        LookedAt(s, env, st, i, r, k) == LookedAt(s, env, st, i + 1, r - 1, k - 1)
      else
        var s1 := OnStanza(s, env, e.handler, st);
        if s1.stopped || i >= |s1.handlers| || Stays(s, env, e.handler, st) then
          LookedAt(s, env, st, i, r, k) == LookedAt(s1, env, st, i + 1, r - 1, k - 1)
        else
          LookedAt(s, env, st, i, r, k) == LookedAt(s1.(handlers := RemoveAt(s1.handlers, i)), env, st, i, r - 1, k - 1)
  {
    hide Eligible, Matches, OnStanza, Stays, RemoveAt;
  }

  lemma {:induction false} FirstLook(s: State, env: Env, st: Stanza, i: nat, r: nat)
    ensures LookedAt(s, env, st, i, r, 0) == s
  {
  }

  /** The fate of every entry of one dispatch. */
  lemma {:induction false} FatesAre(s: State, env: Env, st: Stanza, i: nat, r: nat, k: nat)
    requires i + r <= |s.handlers| && Distinct(s.handlers) && NoneById(Rest(s.handlers, i, r)) && k < r
    requires !FireList(s, env, st, i, r).stopped
    ensures |Fates(s, env, st, i, r)| == r
    ensures FateFits(s, LookedAt(s, env, st, i, r, k), env, s.handlers[i + k], st, Fates(s, env, st, i, r)[k])
    decreases r, 1
  {
    hide *;
    StopLasts(s, env, st, i, r);
    FatesLength(s, env, st, i, r);
    FirstFate(s, env, st, i, r);
    FirstLook(s, env, st, i, r);
    if k > 0 {
      Unfolds(s, env, st, i, r);
      LookedUnfolds(s, env, st, i, r, k);
      NoneByIdLater(s.handlers, s.handlers, i, r);
      var e := s.handlers[i];
      if Eligible(s, e.handler) && Matches(e, st) {
        FatesAfterCall(s, env, st, i, r, k);
      } else {
        FatesAre(s, env, st, i + 1, r - 1, k - 1);
      }
    }
  }

  /** The entries after one that was called. */
  lemma {:induction false} FatesAfterCall(s: State, env: Env, st: Stanza, i: nat, r: nat, k: nat)
    requires i + r <= |s.handlers| && Distinct(s.handlers) && NoneById(Rest(s.handlers, i, r)) && 0 < k < r
    requires !FireList(s, env, st, i, r).stopped && !s.stopped
    requires Eligible(s, s.handlers[i].handler) && Matches(s.handlers[i], st)
    ensures |Fates(s, env, st, i, r)| == r
    ensures FateFits(s, LookedAt(s, env, st, i, r, k), env, s.handlers[i + k], st, Fates(s, env, st, i, r)[k])
    decreases r, 0
  {
    hide *;
    var e := s.handlers[i];
    Unfolds(s, env, st, i, r);
    LookedUnfolds(s, env, st, i, r, k);
    FatesLength(s, env, st, i, r);
    FirstById(s, i, r);
    OneCall(s, env, e.handler, st);
    var s1 := OnStanza(s, env, e.handler, st);
    NoneByIdLater(s.handlers, s1.handlers, i, r);
    if s1.stopped || Stays(s, env, e.handler, st) {
      FatesAre(s1, env, st, i + 1, r - 1, k - 1);
      SameFlagFits(s1, s, LookedAt(s, env, st, i, r, k), env, s.handlers[i + k], st, Fates(s, env, st, i, r)[k]);
    } else {
      var s2 := s1.(handlers := RemoveAt(s1.handlers, i));
      DistinctRemoved(s1.handlers, i);
      RemovedAt(s1.handlers, i, k);
      FatesAre(s2, env, st, i, r - 1, k - 1);
      SameButList(s1, RemoveAt(s1.handlers, i));
      SameFlagFits(s2, s, LookedAt(s, env, st, i, r, k), env, s.handlers[i + k], st, Fates(s, env, st, i, r)[k]);
    }
  }

  lemma {:induction false} FirstFate(s: State, env: Env, st: Stanza, i: nat, r: nat)
    requires 0 < r && i + r <= |s.handlers| && !s.stopped && !FireList(s, env, st, i, r).stopped
    requires Distinct(s.handlers) && NoneById(Rest(s.handlers, i, r))
    ensures Fates(s, env, st, i, r) != []
    ensures FateFits(s, s, env, s.handlers[i], st, Fates(s, env, st, i, r)[0])
  {
    hide *;
    var e := s.handlers[i];
    Unfolds(s, env, st, i, r);
    FirstById(s, i, r);
    ChosenIs(s, e, st);
    OneCall(s, env, e.handler, st);
    var s1 := OnStanza(s, env, e.handler, st);
    if Eligible(s, e.handler) && Matches(e, st) {
      FateOfCalled(s, env, e, st);
      if s1.stopped {
        StopLasts(s1, env, st, i + 1, r - 1);
      }
    } else {
      FateOfSkipped(s, env, e, st);
    }
  }

  lemma {:induction false} FateOfCalled(s: State, env: Env, e: Entry, st: Stanza)
    requires Chosen(s.authenticated, e, st)
    ensures FateFits(s, s, env, e, st, Stays(s, env, e.handler, st))
  {
    hide Chosen, Name;
  }

  lemma {:induction false} FateOfSkipped(s: State, env: Env, e: Entry, st: Stanza)
    requires !Chosen(s.authenticated, e, st)
    ensures FateFits(s, s, env, e, st, true)
  {
    hide Chosen;
  }

  lemma {:induction false} Unfolds(s: State, env: Env, st: Stanza, i: nat, r: nat)
    requires 0 < r && i < |s.handlers| && !s.stopped
    ensures var e := s.handlers[i];
      if !Eligible(s, e.handler) || !Matches(e, st) then
        && FireList(s, env, st, i, r) == FireList(s, env, st, i + 1, r - 1)
        && Fates(s, env, st, i, r) == [true] + Fates(s, env, st, i + 1, r - 1)
      else
        var s1 := OnStanza(s, env, e.handler, st);
        if s1.stopped || i >= |s1.handlers| || Stays(s, env, e.handler, st) then
          && FireList(s, env, st, i, r) == FireList(s1, env, st, i + 1, r - 1)
          && Fates(s, env, st, i, r) == [true] + Fates(s1, env, st, i + 1, r - 1)
        else
          && FireList(s, env, st, i, r) == FireList(s1.(handlers := RemoveAt(s1.handlers, i)), env, st, i, r - 1)
          && Fates(s, env, st, i, r) == [false] + Fates(s1.(handlers := RemoveAt(s1.handlers, i)), env, st, i, r - 1)
  {
    hide Eligible, Matches, OnStanza, Stays, RemoveAt;
  }

  lemma {:induction false} FatesLength(s: State, env: Env, st: Stanza, i: nat, r: nat)
    requires i + r <= |s.handlers| && Distinct(s.handlers) && NoneById(Rest(s.handlers, i, r))
    requires !FireList(s, env, st, i, r).stopped
    ensures |Fates(s, env, st, i, r)| == r
  {
    hide Distinct, NoneById, Selected, CalledOf, KeptBy, AllNew, FireList, Fates;
    DispatchOutcome(s, env, st, i, r);
  }

  lemma {:induction false} RemovedAt(hs: seq<Entry>, i: nat, k: nat)
    requires 0 < k && i + k < |hs|
    ensures |RemoveAt(hs, i)| == |hs| - 1 && RemoveAt(hs, i)[i + (k - 1)] == hs[i + k]
  {
  }

  // --------------------------------------------------------- who is called, one by one

  lemma {:induction false} SelectedIff(authenticated: bool, hs: seq<Entry>, st: Stanza, h: Handler)
    ensures h in Selected(authenticated, hs, st) <==>
      exists k :: 0 <= k < |hs| && hs[k].handler == h && Chosen(authenticated, hs[k], st)
  {
    if hs != [] {
      var rest := hs[1..];
      SelectedIff(authenticated, rest, st, h);
      hide Chosen;
      assert forall k :: 0 <= k < |rest| ==> rest[k] == hs[k + 1];
      if k :| 0 <= k < |hs| && hs[k].handler == h && Chosen(authenticated, hs[k], st) {
        assert k > 0 ==> rest[k - 1] == hs[k];
      }
    }
  }

  lemma {:induction false} SameChosen(authenticated: bool, e: Entry, st: Stanza, enabled: bool)
    ensures Chosen(authenticated, e.(enabled := enabled), st) <==> Chosen(authenticated, e, st)
  {
    hide Bears;
  }

  /** `handler_fire_stanza` calls an entry of the list exactly if the stanza is for it. */
  lemma {:induction false} CalledIff(s: State, env: Env, st: Stanza, k: nat)
    requires k < |s.handlers| && Distinct(s.handlers) && NoneById(s.handlers)
    requires !FireListed(s, env, st).stopped
    ensures s.history <= FireListed(s, env, st).history
    ensures s.handlers[k].handler in CalledOf(FireListed(s, env, st).history[|s.history|..])
      <==> Chosen(s.authenticated, s.handlers[k], st)
  {
    hide FireList, Chosen, CalledOf, Selected, Distinct, NoneById, Fates;
    var s1 := s.(handlers := Enabled(s.handlers));
    EnabledAlike(s.handlers);
    assert Rest(s1.handlers, 0, |s.handlers|) == s1.handlers;
    if s.stopped {
      assert false;
    }
    DispatchOutcome(s1, env, st, 0, |s.handlers|);
    var t := FireList(s1, env, st, 0, |s.handlers|);
    OutcomeParts(s1, t, st, 0, |s.handlers|, Fates(s1, env, st, 0, |s.handlers|));
    var h := s.handlers[k].handler;
    SelectedIff(s.authenticated, s1.handlers, st, h);
    SameChosen(s.authenticated, s.handlers[k], st, true);
    hide *;
    assert s1.handlers[k].handler == h;
    OnlyOne(s1.handlers, k);
  }

  lemma {:induction false} OnlyOne(hs: seq<Entry>, k: nat)
    requires k < |hs| && Distinct(hs)
    ensures forall j :: 0 <= j < |hs| && hs[j].handler == hs[k].handler ==> j == k
  {
  }

  lemma {:induction false} EnabledAlike(hs: seq<Entry>)
    ensures Distinct(hs) ==> Distinct(Enabled(hs))
    ensures NoneById(hs) ==> NoneById(Enabled(hs))
  {
    hide ById;
  }

  /** The registration of examples/bot.c:119. */
  const VERSION := Entry(User(0), Some("jabber:iq:version"), Some("iq"), None, true)

  /** `<iq type='get'><query xmlns='jabber:iq:version'/></iq>`, whoever else listens: the
      version handler is called, and is not called by the same without its child. */
  lemma {:induction false} VersionIsAnswered(s: State, env: Env, k: nat, st: Stanza, query: Stanza)
    requires k < |s.handlers| && s.handlers[k] == VERSION && Distinct(s.handlers) && NoneById(s.handlers)
    requires s.authenticated && !FireListed(s, env, st).stopped
    requires IsTag(st, "iq") && Bears(st, "type", "get") && (forall v :: !Bears(st, "xmlns", v))
    requires Bears(query, "xmlns", "jabber:iq:version") && (st.children == [query] || st.children == [])
    ensures s.history <= FireListed(s, env, st).history
    ensures User(0) in CalledOf(FireListed(s, env, st).history[|s.history|..]) <==> st.children == [query]
  {
    hide FireListed, CalledOf, Distinct, NoneById, Bears;
    CalledIff(s, env, st, k);
    assert st.children == [query] ==> Bears(st.children[0], "xmlns", "jabber:iq:version");
  }
}
