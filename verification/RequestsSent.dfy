/** Which of the requests on the way to authentication were really queued: those before any
    stream header that was not accepted, and no others. */
module RequestsSent {
  import opened Common
  import opened Stanzas
  import opened Negotiation
  import opened Frames
  import opened AuthSafety

  /** A request was made on a link that takes nothing. */
  predicate Lost(o: Obs) {
    o.Dropped? && (o.msg.Auth? || o.msg == LegacyIq || o.msg.BindIq? || o.msg == SessionIq)
  }

  ghost predicate NoneLost(h: seq<Obs>) {
    forall i :: 0 <= i < |h| ==> !Lost(h[i])
  }

  /** No handler is called after a request was lost. */
  ghost predicate QuietAfterLoss(h: seq<Obs>) {
    forall i, j :: 0 <= i < j < |h| && Lost(h[i]) ==> !h[j].Handled?
  }

  /** Nothing is queued after a header that was not accepted, and no request was lost before. */
  ghost predicate Cut(h: seq<Obs>) {
    && (forall i, j :: 0 <= i < j < |h| && h[i] == BadHeader ==> !h[j].Queued?)
    && (forall j :: 0 <= j < |h| && Lost(h[j]) ==> BadHeader in h[..j])
  }

  ghost predicate Sound(s: State) {
    if BadHeader in s.history then s.link == Disconnected && Cut(s.history)
    else QuietAfterLoss(s.history) && (s.link != Disconnected ==> NoneLost(s.history))
  }

  /** A stanza may be dispatched. */
  predicate Live(s: State) {
    BadHeader in s.history || s.link == Connected
  }

  /** What the parser reports is dispatched, or ignored. */
  predicate Reading(s: State) {
    Live(s) || (s.link == Disconnected && !s.inStream && s.streamDone)
  }

  // --------------------------------------------------------------- observations

  lemma {:induction false} StaysBad(g: seq<Obs>, h: seq<Obs>)
    requires g <= h && BadHeader in g
    ensures BadHeader in h
  {
    var i :| 0 <= i < |g| && g[i] == BadHeader;
    assert h[i] == BadHeader;
  }

  lemma {:induction false} CutGrows(g: seq<Obs>, h: seq<Obs>)
    requires Cut(g) && BadHeader in g && g <= h && forall j :: |g| <= j < |h| ==> !h[j].Queued?
    ensures Cut(h)
  {
    hide Lost;
    forall j | 0 <= j < |h| && Lost(h[j]) ensures BadHeader in h[..j] {
      if j < |g| {
        assert h[..j] == g[..j];
      } else {
        StaysBad(g, h[..j]);
      }
    }
  }

  /** An observation that loses nothing, and is no call if something is lost already. */
  lemma {:induction false} Noted(s: State, o: Obs)
    requires Sound(s) && !Lost(o) && (o.Handled? ==> Live(s)) && (o.Queued? ==> s.link == Connected) && o != BadHeader
    ensures Sound(Observe(s, o)) && (Live(s) ==> Live(Observe(s, o)))
  {
    hide Lost, Cut;
    if BadHeader in s.history {
      StaysBad(s.history, s.history + [o]);
      CutGrows(s.history, s.history + [o]);
    }
  }

  /** A header is not accepted: the connection is given up. */
  lemma {:induction false} RefusedSound(s: State)
    requires Sound(s) && Live(s)
    ensures var r := Observe(s, BadHeader).(link := Disconnected); Sound(r) && BadHeader in r.history
  {
    var h := s.history + [BadHeader];
    var r := Observe(s, BadHeader).(link := Disconnected);
    assert r.history == h && h[|s.history|] == BadHeader;
    hide *;
    SoundParts(s);
    if BadHeader in s.history {
      CutGrows(s.history, h);
    } else {
      FirstRefused(s.history);
    }
    CutIsSound(r);
  }

  lemma {:induction false} SoundParts(s: State)
    requires Sound(s) && Live(s)
    ensures if BadHeader in s.history then Cut(s.history) else NoneLost(s.history)
  {
    hide QuietAfterLoss, NoneLost, Cut;
  }

  lemma {:induction false} CutIsSound(s: State)
    requires BadHeader in s.history && Cut(s.history) && s.link == Disconnected
    ensures Sound(s)
  {
    hide QuietAfterLoss, NoneLost, Cut;
  }

  lemma {:induction false} FirstRefused(h: seq<Obs>)
    requires NoneLost(h) && BadHeader !in h
    ensures Cut(h + [BadHeader])
  {
    hide Lost;
    NotLost(BadHeader);
    var g := h + [BadHeader];
    assert forall j :: 0 <= j < |h| ==> g[j] == h[j] && h[j] in h;
  }

  lemma {:induction false} NotLost(o: Obs)
    requires !o.Dropped?
    ensures !Lost(o)
  {
  }

  lemma {:induction false} SameIsSound(s: State, t: State)
    requires Sound(s) && t.history == s.history && (t.link == s.link || t.link == Disconnected)
    ensures Sound(t)
  {
  }

  lemma {:induction false} InnerCut(g: seq<Obs>, h: seq<Obs>)
    requires g <= h && Cut(g) && BadHeader in g && AllInner(Disconnected, h[|g|..])
    ensures Cut(h)
  {
    hide Cut;
    forall j | |g| <= j < |h| ensures !h[j].Queued? {
      assert Inner(Disconnected, h[|g|..][j - |g|]);
    }
    CutGrows(g, h);
  }

  lemma {:induction false} InnerIsFine(link: Link, g: seq<Obs>, h: seq<Obs>)
    requires g <= h && BadHeader !in g && AllInner(link, h[|g|..])
    ensures BadHeader !in h
  {
    forall j | 0 <= j < |h| ensures h[j] != BadHeader {
      if j >= |g| {
        assert Inner(link, h[|g|..][j - |g|]);
      }
    }
  }

  lemma {:induction false} QuietJoins(link: Link, g: seq<Obs>, h: seq<Obs>)
    requires g <= h && QuietAfterLoss(g) && AllInner(link, h[|g|..])
    ensures QuietAfterLoss(h)
    ensures link == Connected && NoneLost(g) ==> NoneLost(h)
  {
    hide Lost;
    assert forall i :: |g| <= i < |h| ==> h[i] == h[|g|..][i - |g|];
    assert forall i :: |g| <= i < |h| ==> Inner(link, h[i]);
    assert forall i :: |g| <= i < |h| && link == Connected ==> !Lost(h[i]) by {
      forall i | |g| <= i < |h| && link == Connected ensures !Lost(h[i]) {
        InnerIsKept(h[i]);
      }
    }
  }

  lemma {:induction false} InnerIsKept(o: Obs)
    requires Inner(Connected, o)
    ensures !Lost(o)
  {
  }

  /** What a handler does is sound. */
  lemma {:induction false} ExtendsSound(s: State, r: State)
    requires Sound(s) && Extends(s, r) && s.link != Connecting
    ensures Sound(r) && (Live(s) ==> Live(r))
  {
    hide QuietAfterLoss, NoneLost, AllInner, Distinct, Cut;
    if BadHeader in s.history {
      StaysBad(s.history, r.history);
      InnerCut(s.history, r.history);
    } else {
      InnerIsFine(s.link, s.history, r.history);
      QuietJoins(s.link, s.history, r.history);
    }
  }

  lemma {:induction false} OnStanzaSound(s: State, env: Env, h: Handler, st: Stanza)
    requires Sound(s) && Live(s) && s.link != Connecting
    ensures var r := OnStanza(s, env, h, st);
      Sound(r) && Live(r) && r.link == s.link && r.inStream == s.inStream && r.streamDone == s.streamDone
  {
    hide Sound, Live, OnStanza, QuietAfterLoss;
    var s0 := Observe(s, Handled(h, st));
    Noted(s, Handled(h, st));
    OnStanzaExtends(s, env, h, st);
    ExtendsSound(s0, OnStanza(s, env, h, st));
    assert Extends(s0, OnStanza(s, env, h, st));
  }

  // ------------------------------------------------------------------ dispatch

  /** What dispatch leaves as it was. */
  predicate SameStream(s: State, r: State) {
    r.link == s.link && r.inStream == s.inStream && r.streamDone == s.streamDone
  }

  lemma {:induction false} FireIdsSound(s: State, env: Env, st: Stanza, id: string, k: nat, prev: nat, r: nat)
    requires Sound(s) && Live(s) && s.link != Connecting
    ensures var t := FireIds(s, env, st, id, k, prev, r); Sound(t) && Live(t) && SameStream(s, t)
    decreases r
  {
    hide Sound, Live, OnStanza, Unchained, Stays, Eligible;
    var chain := Chain(s.ids, id);
    if !(r == 0 || s.stopped || k >= |chain| || prev > k) {
      if !Eligible(s, chain[k]) {
        FireIdsSound(s, env, st, id, k + 1, prev, r - 1);
      } else {
        OnStanzaSound(s, env, chain[k], st);
        var s1 := OnStanza(s, env, chain[k], st);
        if s1.stopped || k >= |Chain(s1.ids, id)| || Stays(s, env, chain[k], st) {
          FireIdsSound(s1, env, st, id, k + 1, k + 1, r - 1);
        } else {
          var s2 := s1.(ids := s1.ids[id := Unchained(Chain(s1.ids, id), k, prev)]);
          SameIsLive(s1, s2);
          FireIdsSound(s2, env, st, id, prev, prev, r - 1);
        }
      }
    }
  }

  lemma {:induction false} SameIsLive(s: State, t: State)
    requires Sound(s) && Live(s) && t.history == s.history && t.link == s.link
    ensures Sound(t) && Live(t)
  {
    hide QuietAfterLoss, NoneLost;
  }

  lemma {:induction false} FireListSound(s: State, env: Env, st: Stanza, i: nat, r: nat)
    requires Sound(s) && Live(s) && s.link != Connecting
    ensures var t := FireList(s, env, st, i, r); Sound(t) && Live(t) && SameStream(s, t)
    decreases r
  {
    hide Sound, Live, OnStanza, RemoveAt, Stays, Eligible, Matches;
    if !(r == 0 || s.stopped || i >= |s.handlers|) {
      var e := s.handlers[i];
      if !Eligible(s, e.handler) || !Matches(e, st) {
        FireListSound(s, env, st, i + 1, r - 1);
      } else {
        OnStanzaSound(s, env, e.handler, st);
        var s1 := OnStanza(s, env, e.handler, st);
        if s1.stopped || i >= |s1.handlers| || Stays(s, env, e.handler, st) {
          FireListSound(s1, env, st, i + 1, r - 1);
        } else {
          var s2 := s1.(handlers := RemoveAt(s1.handlers, i));
          SameIsLive(s1, s2);
          FireListSound(s2, env, st, i, r - 1);
        }
      }
    }
  }

  lemma {:induction false} FireByIdSound(s: State, env: Env, st: Stanza)
    requires Sound(s) && Live(s) && s.link != Connecting
    ensures var t := FireById(s, env, st); Sound(t) && Live(t) && SameStream(s, t)
  {
    hide Sound, Live, FireIds, Id, Chain;
    if Id(st).Some? {
      BusyIsLive(s, Id(st));
      FireIdsSound(s.(busyId := Id(st)), env, st, Id(st).value, 0, 0, |Chain(s.ids, Id(st).value)|);
      BusyIsLive(FireIds(s.(busyId := Id(st)), env, st, Id(st).value, 0, 0, |Chain(s.ids, Id(st).value)|), None);
    }
  }

  lemma {:induction false} FireListedSound(s: State, env: Env, st: Stanza)
    requires Sound(s) && Live(s) && s.link != Connecting
    ensures var t := FireListed(s, env, st); Sound(t) && Live(t) && SameStream(s, t)
  {
    hide Sound, Live, FireList, Enabled;
    if !s.stopped {
      EnabledIsLive(s);
      FireListSound(s.(handlers := Enabled(s.handlers)), env, st, 0, |s.handlers|);
    }
  }

  lemma {:induction false} FireStanzaSound(s: State, env: Env, st: Stanza)
    requires Sound(s) && Live(s) && s.link != Connecting
    ensures var t := FireStanza(s, env, st); Sound(t) && Live(t) && SameStream(s, t)
  {
    assert !Lost(Received(st));
    var s0 := Observe(s, Received(st));
    assert SameStream(s, s0);
    hide *;
    StanzaFires(s, env, st);
    Noted(s, Received(st));
    StreamIs(s, s0);
    FireByIdSound(s0, env, st);
    var s1 := FireById(s0, env, st);
    StreamIs(s0, s1);
    FireListedSound(s1, env, st);
    StreamIs(s1, FireListed(s1, env, st));
    StreamIs(s, FireListed(s1, env, st));
  }

  lemma {:induction false} StreamIs(s: State, r: State)
    ensures SameStream(s, r) <==> r.link == s.link && r.inStream == s.inStream && r.streamDone == s.streamDone
  {
  }

  lemma {:induction false} BusyIsLive(s: State, id: Option<string>)
    requires Sound(s) && Live(s)
    ensures var r := s.(busyId := id);
      Sound(r) && Live(r) && r.link == s.link && r.inStream == s.inStream && r.streamDone == s.streamDone
  {
    hide Sound, Live;
    SameIsLive(s, s.(busyId := id));
  }

  lemma {:induction false} EnabledIsLive(s: State)
    requires Sound(s) && Live(s)
    ensures var r := s.(handlers := Enabled(s.handlers));
      Sound(r) && Live(r) && r.link == s.link && r.inStream == s.inStream && r.streamDone == s.streamDone
  {
    hide Sound, Live, Enabled;
    SameIsLive(s, s.(handlers := Enabled(s.handlers)));
  }

  lemma {:induction false} ConnDisconnectSound(s: State, env: Env)
    requires Sound(s)
    ensures var r := ConnDisconnect(s, env);
      && Sound(r) && r.link == Disconnected && r.inStream == s.inStream && r.streamDone == s.streamDone
      && (BadHeader in s.history ==> BadHeader in r.history)
  {
    hide Sound, ConnDisconnect;
    SameIsSound(s, s.(link := Disconnected));
    CutOffSound(s, env);
  }

  /** `conn_disconnect`, from where the link is given up on. */
  lemma {:induction false} CutOffSound(s: State, env: Env)
    requires Sound(s.(link := Disconnected))
    ensures var r := ConnDisconnect(s, env);
      && Sound(r) && r.link == Disconnected && r.inStream == s.inStream && r.streamDone == s.streamDone
      && (BadHeader in s.history ==> BadHeader in r.history)
  {
    hide Sound, Notify, AllInner, Distinct;
    var s0 := s.(link := Disconnected);
    NotifyExtends(s0, env, false);
    ExtendsSound(s0, Notify(s0, env, false));
    if BadHeader in s.history {
      StaysBad(s.history, Notify(s0, env, false).history);
    }
  }

  lemma {:induction false} OnTimerSound(s: State, env: Env, h: Handler)
    requires Sound(s) && s.link != Connecting
    ensures var r := OnTimer(s, env, h); Sound(r) && r.link != Connecting
  {
    var s0 := Observe(s, Fired(h));
    assert !Lost(Fired(h)) && s0.link == s.link;
    hide *;
    TimerCases(s, env, h);
    Noted(s, Fired(h));
    if h == MissingFeatures {
      TryAuthExtends(s0, env);
      KeepsSound(s0, TryAuth(s0, env));
    } else if h == DisconnectCleanup {
      ConnDisconnectSound(s0, env);
    } else if h.User? {
      CallbackExtends(s0, env);
      KeepsSound(s0, Callback(s0, env));
    } else {
      DisconnectExtends(s0, env);
      KeepsSound(s0, XmppDisconnect(s0, env));
    }
  }

  lemma {:induction false} KeepsSound(s: State, r: State)
    requires Sound(s) && Keeps(s, r) && s.link != Connecting
    ensures Sound(r) && r.link == s.link && r.inStream == s.inStream && r.streamDone == s.streamDone && (Live(s) ==> Live(r))
  {
    hide Sound, Live, AllInner, AllNew, Distinct, BarredBy;
    ExtendsSound(s, r);
  }

  lemma {:induction false} FireTimersSound(s: State, env: Env, i: nat, r: nat)
    requires Sound(s) && s.link != Connecting
    ensures var t := FireTimers(s, env, i, r); Sound(t) && t.link != Connecting
    decreases r
  {
    hide *;
    if r == 0 || s.stopped || i >= |s.timed| {
      TimersEnd(s, env, i, r);
    } else {
      var t := s.timed[i];
      TimersUnfold(s, env, i, r);
      if !Eligible(s, t.handler) {
        FireTimersSound(s, env, i + 1, r - 1);
      } else if Elapsed(t.lastStamp, env(s.tick).now) < t.period {
        LookedSound(s);
        FireTimersSound(s.(tick := s.tick + 1), env, i + 1, r - 1);
      } else {
        var stamped := Stamped(s, env, i);
        StampedSound(s, env, i);
        OnTimerSound(stamped, env, t.handler);
        var s1 := OnTimer(stamped, env, t.handler);
        if t.handler.User? && env(stamped.tick).keep {
          FireTimersSound(s1, env, i + 1, r - 1);
        } else {
          DeletedSound(s1, t.handler);
          FireTimersSound(DeleteTimed(s1, t.handler), env, i, r - 1);
        }
      }
    }
  }

  lemma {:induction false} LookedSound(s: State)
    requires Sound(s)
    ensures var r := s.(tick := s.tick + 1); Sound(r) && r.link == s.link
  {
    hide Sound;
    SameIsSound(s, s.(tick := s.tick + 1));
  }

  lemma {:induction false} StampedSound(s: State, env: Env, i: nat)
    requires Sound(s) && i < |s.timed|
    ensures Sound(Stamped(s, env, i)) && Stamped(s, env, i).link == s.link
  {
    hide Sound;
    SameIsSound(s, Stamped(s, env, i));
  }

  lemma {:induction false} DeletedSound(s: State, h: Handler)
    requires Sound(s)
    ensures Sound(DeleteTimed(s, h)) && DeleteTimed(s, h).link == s.link
  {
    hide Sound, WithoutTimer;
    SameIsSound(s, DeleteTimed(s, h));
  }

  lemma {:induction false} FireTimedSound(s: State, env: Env)
    requires Sound(s)
    ensures var r := FireTimed(s, env); Sound(r) && (s.link != Connecting ==> r.link != Connecting)
  {
    hide Sound, FireTimers, EnabledTimers;
    if !s.stopped && s.link == Connected {
      SameIsSound(s, s.(timed := EnabledTimers(s.timed)));
      FireTimersSound(s.(timed := EnabledTimers(s.timed)), env, 0, |s.timed|);
    }
  }

  // -------------------------------------------------------------------- events

  lemma {:induction false} OpenStreamSound(s: State, env: Env)
    requires Sound(s) && s.link != Connecting
    ensures var r := OpenStream(s, env); Sound(r) && SameStream(s, r) && (Live(s) ==> Live(r))
  {
    var s1 := Observe(s, Opened);
    assert !Lost(Opened) && s1.link == s.link && s1.inStream == s.inStream && s1.streamDone == s.streamDone;
    OpenCases(s, env);
    hide *;
    Noted(s, Opened);
    OpenExtends(s1, env);
    KeepsSound(s1, OnAuthOpen(s1, env));
    KeepsSound(s1, OnSaslOpen(s1, env));
    StreamIs(s, OpenStream(s, env));
  }

  lemma {:induction false} OpenCases(s: State, env: Env)
    ensures var s1 := Observe(s, Opened); OpenStream(s, env) in {s, OnAuthOpen(s1, env), OnSaslOpen(s1, env)}
  {
    hide OnAuthOpen, OnSaslOpen, Observe;
  }

  lemma {:induction false} BadIsLive(s: State)
    requires BadHeader in s.history
    ensures Live(s)
  {
  }

  lemma {:induction false} OnStreamStartSound(s: State, env: Env, name: string, hasId: bool)
    requires Sound(s) && s.link != Connecting && Live(s)
    ensures var r := OnStreamStart(s, env, name, hasId); Sound(r) && Live(r) && r.link != Connecting
  {
    var s0 := InStream(s, name, hasId);
    var s1 := Observe(s0, BadHeader);
    hide *;
    StreamStarts(s, env, name, hasId);
    InStreamIsLive(s, name, hasId);
    RefusedSound(s0);
    CutOffSound(s1, env);
    BadIsLive(ConnDisconnect(s1, env));
    OpenStreamSound(ConnDisconnect(s1, env), env);
    OpenStreamSound(s0, env);
    StreamIs(s0, OpenStream(s0, env));
    StreamIs(ConnDisconnect(s1, env), OpenStream(ConnDisconnect(s1, env), env));
  }

  lemma {:induction false} InStreamIsLive(s: State, name: string, hasId: bool)
    requires Sound(s) && Live(s)
    ensures Sound(InStream(s, name, hasId)) && Live(InStream(s, name, hasId)) && InStream(s, name, hasId).link == s.link
  {
    hide Sound, Live;
    SameIsLive(s, InStream(s, name, hasId));
  }

  lemma {:induction false} OnSaxSound(s: State, env: Env, x: Sax)
    requires Sound(s) && Reading(s) && s.link != Connecting
    ensures var r := OnSax(s, env, x); Sound(r) && Reading(r) && r.link != Connecting
  {
    hide Sound, OnStreamStart, FireStanza, ConnDisconnect, WithoutTimer;
    if !s.stopped {
      match x
      case StreamStart(name, hasId) =>
        if !s.inStream && !s.streamDone {
          OnStreamStartSound(s, env, name, hasId);
        }
      case StanzaIn(st) =>
        if s.inStream {
          FireStanzaSound(s, env, st);
        }
      case StreamEnd => EndedSound(s, env);
    }
  }

  lemma {:induction false} EndedSound(s: State, env: Env)
    requires Sound(s)
    ensures var r := ConnDisconnect(DeleteTimed(s.(inStream := false, streamDone := true), DisconnectCleanup), env);
      Sound(r) && Reading(r) && r.link != Connecting
  {
    hide Sound, ConnDisconnect, WithoutTimer, Live;
    var s0 := DeleteTimed(s.(inStream := false, streamDone := true), DisconnectCleanup);
    SameIsSound(s, s0);
    ConnDisconnectSound(s0, env);
  }

  lemma {:induction false} OnChunkSound(s: State, env: Env, chunk: seq<Sax>)
    requires Sound(s) && Reading(s) && s.link != Connecting
    ensures var r := OnChunk(s, env, chunk); Sound(r) && r.link != Connecting
    decreases chunk
  {
    hide Sound, Reading, OnSax;
    if chunk != [] {
      OnSaxSound(s, env, chunk[0]);
      OnChunkSound(OnSax(s, env, chunk[0]), env, chunk[1..]);
    }
  }

  lemma {:induction false} OnIoSound(s: State, env: Env, io: Io)
    requires Sound(s)
    ensures Sound(OnIo(s, env, io))
  {
    hide Sound, ConnDisconnect, OnChunk, Send;
    ConnDisconnectSound(s, env);
    if s.stopped {
    } else if s.link == Connecting {
      if io == ConnectDone {
        ConnectedSound(s);
      }
    } else if io.Chunk? && s.link == Connected {
      OnChunkSound(s, env, io.sax);
      ConnDisconnectSound(OnChunk(s, env, io.sax), env);
    }
  }

  lemma {:induction false} ConnectedSound(s: State)
    requires Sound(s) && s.link == Connecting
    ensures Sound(Send(s.(link := Connected), StreamHeader))
  {
    hide QuietAfterLoss, NoneLost;
    assert Sound(s.(link := Connected));
    Noted(s.(link := Connected), Queued(StreamHeader));
  }

  lemma {:induction false} BeforeIoSound(s: State, env: Env, writeFails: bool)
    requires Sound(s)
    ensures Sound(AfterReset(AfterWrite(s, env, writeFails)))
  {
    hide Sound, ConnDisconnect;
    ConnDisconnectSound(s, env);
    var s1 := AfterWrite(s, env, writeFails);
    SameIsSound(s1, AfterReset(s1));
  }

  lemma {:induction false} RunOnceSound(s: State, env: Env, writeFails: bool, io: Io)
    requires Sound(s)
    ensures Sound(RunOnce(s, env, writeFails, io))
  {
    hide Sound, AfterWrite, AfterReset, FireTimed, OnIo;
    BeforeIoSound(s, env, writeFails);
    var s2 := AfterReset(AfterWrite(s, env, writeFails));
    FireTimedSound(s2, env);
    OnIoSound(FireTimed(s2, env), env, io);
    FireTimedSound(OnIo(FireTimed(s2, env), env, io), env);
  }

  /** What is not sent or observed is not heard of. */
  lemma {:induction false} RegisterSound(s: State, env: Env, h: Handler, e: Entry, id: string, period: nat)
    requires Sound(s)
    ensures Sound(s.(handlers := WithEntry(s.handlers, e))) && Sound(AddId(s, h, id)) && Sound(AddTimed(s, env, h, period))
    ensures Sound(Stop(s)) && Sound(s.(tlsDisabled := true))
  {
    hide WithTimer, IsTimed, WithEntry, WithId, QuietAfterLoss, NoneLost;
  }

  /** User code makes no requests of the library's own. */
  lemma {:induction false} ActSound(s: State, env: Env, a: Action)
    requires Sound(s)
    ensures Sound(Act(s, env, a))
  {
    hide AddTimed, WithEntry, AddId, Sound, Observe, Stop;
    match a
    case AddStanza(n, ns, name, typ) => RegisterSound(s, env, User(n), Entry(User(n), ns, name, typ, false), "", 0);
    case AddById(n, id) => RegisterSound(s, env, User(n), Entry(User(n), None, None, None, false), id, 0);
    case AddTimer(n, period) => RegisterSound(s, env, User(n), Entry(User(n), None, None, None, false), "", period);
    case SendData(data) => Noted(s, SentAs(s.link, UserData(data)));
    case Disconnect =>
      Noted(s, SentAs(s.link, StreamFooter));
      RegisterSound(Send(s, StreamFooter), env, DisconnectCleanup, Entry(User(0), None, None, None, false), "", DISCONNECT_TIMEOUT);
    case DisableTls =>
      RegisterSound(s, env, User(0), Entry(User(0), None, None, None, false), "", 0);
      Noted(s.(tlsDisabled := true), TlsBarred);
  }

  lemma {:induction false} StepSound(s: State, env: Env, e: Event)
    requires Sound(s)
    ensures Sound(Step(s, env, e))
  {
    hide Sound, RunOnce, Act, WithoutId, WithoutTimer, WithoutEntry;
    match e
    case Pass(writeFails, io) => RunOnceSound(s, env, writeFails, io);
    case Call(action) => ActSound(s, env, action);
    case Drop(h, id) => SameIsSound(s, DropUser(s, h, id));
  }

  lemma {:induction false} RunSound(s: State, env: Env, events: seq<Event>)
    requires Sound(s)
    ensures Sound(Run(s, env, events))
    decreases events
  {
    hide Sound, Step;
    if events != [] {
      StepSound(s, env, events[0]);
      RunSound(Step(s, env, events[0]), env, events[1..]);
    }
  }

  // ------------------------------------------------------------------- theorems

  predicate Asked(m: Milestone) {
    m == MechanismAsked || m == LegacyAsked || m == BindAsked || m == SessionAsked
  }

  predicate Path(ms: seq<Milestone>) {
    ms == LegacyPath || ms == SaslPath || ms == BindPath || ms == SessionPath
  }

  lemma {:induction false} ReplyFollows(ms: seq<Milestone>, k: nat)
    requires Path(ms) && k < |ms| && Asked(ms[k])
    ensures k + 1 < |ms| && (ms[k + 1] == LegacyUp || ms[k + 1] == Succeeded || ms[k + 1] == Bound || ms[k + 1] == SessionUp)
  {
  }

  /** What the reply to a request says of it. */
  lemma {:induction false} ReplyIsHandled(h: seq<Obs>, ms: seq<Milestone>, at: seq<nat>, k: nat)
    requires Path(ms) && Witnesses(h, ms, at) && k < |ms| && Asked(ms[k])
    ensures at[k] < |h| && (h[at[k]].Queued? <==> !Lost(h[at[k]]))
    ensures k + 1 < |at| && at[k] < at[k + 1] < |h| && h[at[k + 1]].Handled?
  {
    ReplyFollows(ms, k);
    hide Path;
    assert Meets(h[at[k]], ms[k]) && Meets(h[at[k + 1]], ms[k + 1]);
  }

  lemma {:induction false} SentIff(s: State, at: nat, reply: nat)
    requires Sound(s) && at < reply < |s.history| && s.history[reply].Handled?
    requires s.history[at].Queued? <==> !Lost(s.history[at])
    ensures s.history[at].Queued? <==> BadHeader !in s.history[..at]
  {
    hide Lost, NoneLost;
    var h := s.history;
    if BadHeader in h[..at] {
      var i :| 0 <= i < at && h[..at][i] == BadHeader;
      assert h[i] == BadHeader;
    }
  }

  /** Whenever a path to authentication was taken, each request on it was queued for sending
      if and only if no stream header before it was refused. */
  lemma {:induction false} RequestsWereSent(account: Account, env: Env, events: seq<Event>, ms: seq<Milestone>, at: seq<nat>, k: nat)
    requires var h := Run(Init(account), env, events).history;
      Path(ms) && Witnesses(h, ms, at) && k < |ms| && Asked(ms[k])
    ensures var h := Run(Init(account), env, events).history;
      at[k] < |h| && (h[at[k]].Queued? <==> BadHeader !in h[..at[k]])
  {
    assert Sound(Init(account));
    RunSound(Init(account), env, events);
    hide *;
    var s := Run(Init(account), env, events);
    ReplyIsHandled(s.history, ms, at, k);
    SentIff(s, at[k], at[k + 1]);
  }
}
