/** The chain of handlers of an id does not change while they are called. */
module IdChains {
  import opened Common
  import opened Stanzas
  import opened Negotiation
  import opened Frames
  import AuthSafety

  ghost predicate SameChain(s: State, r: State, id: string) {
    r.busyId == s.busyId && (r.stopped || Chain(r.ids, id) == Chain(s.ids, id))
  }

  lemma {:induction false} SameIds(s: State, r: State, id: string)
    requires r.busyId == s.busyId && r.ids == s.ids
    ensures SameChain(s, r, id)
  {
  }

  lemma {:induction false} OtherId(ids: map<string, seq<Handler>>, h: Handler, other: string, id: string)
    requires other != id
    ensures Chain(WithId(ids, h, other), id) == Chain(ids, id)
  {
  }

  lemma {:induction false} DisconnectChain(s: State, env: Env, id: string)
    ensures SameChain(s, XmppDisconnect(s, env), id)
  {
    hide SameChain, WithTimer, IsTimed, SentAs;
    SameIds(s, XmppDisconnect(s, env), id);
  }

  /** What user code does besides registering by id. */
  lemma {:induction false} PlainActChain(s: State, env: Env, e: Entry, n: nat, period: nat, data: string, id: string)
    ensures SameChain(s, s.(handlers := WithEntry(s.handlers, e)), id) && SameChain(s, AddTimed(s, env, User(n), period), id)
    ensures SameChain(s, Send(s, UserData(data)), id) && SameChain(s, Bar(s), id) && SameChain(s, Stop(s), id)
  {
    hide WithEntry, WithTimer, IsTimed, SentAs, Chain;
  }

  lemma {:induction false} AddIdChain(s: State, h: Handler, other: string, id: string)
    requires other != id
    ensures SameChain(s, AddId(s, h, other), id)
  {
    hide WithId, Chain;
    OtherId(s.ids, h, other, id);
  }

  lemma {:induction false} ActChain(s: State, env: Env, a: Action, id: string)
    requires s.busyId == Some(id)
    ensures SameChain(s, Act(s, env, a), id)
  {
    hide SameChain, WithEntry, AddTimed, Send, AddId, Stop, XmppDisconnect, Bar;
    var none := Entry(User(0), None, None, None, false);
    match a
    case AddStanza(n, ns, name, typ) => PlainActChain(s, env, Entry(User(n), ns, name, typ, false), 0, 0, "", id);
    case AddById(n, other) =>
      PlainActChain(s, env, none, 0, 0, "", id);
      if other != id {
        AddIdChain(s, User(n), other, id);
      }
    case AddTimer(n, period) => PlainActChain(s, env, none, n, period, "", id);
    case SendData(data) => PlainActChain(s, env, none, 0, 0, data, id);
    case Disconnect => DisconnectChain(s, env, id);
    case DisableTls => PlainActChain(s, env, none, 0, 0, "", id);
  }

  lemma {:induction false} PerformChain(s: State, env: Env, actions: seq<Action>, id: string)
    requires s.busyId == Some(id)
    ensures SameChain(s, Perform(s, env, actions), id)
    decreases actions
  {
    hide Act, Chain;
    if actions != [] && !s.stopped {
      ActChain(s, env, actions[0], id);
      if !Act(s, env, actions[0]).stopped {
        PerformChain(Act(s, env, actions[0]), env, actions[1..], id);
      } else {
        assert Perform(Act(s, env, actions[0]), env, actions[1..]) == Act(s, env, actions[0]);
      }
    }
  }

  lemma {:induction false} CallbackChain(s: State, s1: State, env: Env, id: string)
    requires s.busyId == Some(id) && s1.busyId == s.busyId && s1.ids == s.ids
    ensures SameChain(s, Callback(s1, env), id)
  {
    hide Perform, Chain;
    PerformChain(s1.(tick := s1.tick + 1), env, env(s1.tick).actions, id);
  }

  lemma {:induction false} ReplyChain(s: State, s1: State, env: Env, id: string)
    requires s.busyId == Some(id) && s1.busyId == s.busyId && s1.ids == s.ids
    ensures SameChain(s, XmppDisconnect(s1, env), id) && SameChain(s, Authenticate(s1, env), id)
    ensures id != "_xmpp_session1" ==>
      SameChain(s, Request(s1, env, HandleSession, "_xmpp_session1", MissingSession, SESSION_TIMEOUT, SessionIq), id)
  {
    hide XmppDisconnect, Callback, WithTimer, IsTimed, SentAs, WithId, Chain;
    DisconnectChain(s1, env, id);
    CallbackChain(s, Observe(Observe(s1.(authenticated := true), Authenticated), Notified(true)), env, id);
    if id != "_xmpp_session1" {
      OtherId(s1.ids, HandleSession, "_xmpp_session1", id);
    }
  }

  /** A handler of replies, or of the user, leaves the chain it stands in as it is. */
  lemma {:induction false} OnStanzaChain(s: State, env: Env, h: Handler, st: Stanza, id: string)
    requires s.busyId == Some(id) && (ById(h) || h.User?) && (h == HandleBind ==> id == "_xmpp_bind1")
    ensures SameChain(s, OnStanza(s, env, h, st), id)
  {
    hide SameChain, XmppDisconnect, Authenticate, Callback, Request, WithoutTimer, Name, Type;
    var s0 := Observe(s, Handled(h, st));
    if h.User? {
      CallbackChain(s, s0, env, id);
    } else {
      ReplyChain(s, DeleteTimed(s0, MissingBind), env, id);
      ReplyChain(s, DeleteTimed(s0, MissingSession), env, id);
      ReplyChain(s, DeleteTimed(s0, MissingLegacy), env, id);
    }
  }

  /** What stands in a chain, by the invariant of AuthSafety. */
  lemma {:induction false} InChain(s: State, id: string, k: nat)
    requires AuthSafety.Inv(s) && k < |Chain(s.ids, id)|
    ensures var h := Chain(s.ids, id)[k]; (ById(h) || h.User?) && (h == HandleBind ==> id == "_xmpp_bind1")
  {
    hide AuthSafety.Occurs, AuthSafety.Safe;
    assert AuthSafety.IdOk(s.history, id, Chain(s.ids, id)[k]);
  }
}
