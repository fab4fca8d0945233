/** Stanzas sent over a transport that takes them in whatever portions it likes arrive as
    the trees they were: printing (src/stanza.c), the send queue (src/conn.c, src/event.c)
    and a parser at the other end (src/parser_expat.c), together. */
module Delivery {
  import opened Common
  import opened Stanzas
  import opened Xml
  import Building
  import opened RoundTrip
  import opened Sending

  /** Nothing but stanzas is sent, and each is a tag that XML can express. */
  ghost predicate SendsStanzas(events: seq<Happening>) {
    forall i :: 0 <= i < |events| ==> Sendable(events[i])
  }

  ghost predicate Sendable(e: Happening) {
    !e.Raw? && !e.Formatted? && (e.Sent? ==> Fit(e.st))
  }

  ghost predicate Fit(st: Stanza) {
    Expressible(st) && Clean(st) && st.kind == TagKind
  }

  /** The stanzas sent while the line was up. */
  function SentUp(l: Line, events: seq<Happening>): seq<Stanza>
    requires Written(l.queue) && AllProper(events)
    decreases events
  {
    if events == [] then []
    else
      (if l.phase == Connected && events[0].Sent? then [events[0].st] else [])
      + SentUp(Step(l, events[0]), events[1..])
  }

  lemma {:induction false} AskedIsPrinted(l: Line, events: seq<Happening>)
    requires Written(l.queue) && AllProper(events) && SendsStanzas(events)
    ensures forall i :: 0 <= i < |SentUp(l, events)| ==> Fit(SentUp(l, events)[i])
    ensures RenderAll(SentUp(l, events)).Pieces?
    ensures Asked(l, events) == Concat(RenderAll(SentUp(l, events)).pieces)
    decreases events
  {
    hide Step, Render, Concat, Fit, Proper;
    if events == [] {
      assert Concat([]) == "" by { ConcatNothing(); }
    } else {
      var e := events[0];
      var s := Step(l, e);
      AskedIsPrinted(s, events[1..]);
      var more := SentUp(s, events[1..]);
      assert Sendable(e);
      if l.phase == Connected && e.Sent? {
        FitPrints(e.st);
        var all := [e.st] + more;
        assert all[0] == e.st && all[1..] == more;
        ConcatAppend(Render(e.st).pieces, RenderAll(more).pieces);
      } else {
        NotSent(e);
        assert [] + more == more;
        assert "" + Asked(s, events[1..]) == Asked(s, events[1..]);
      }
    }
  }

  lemma {:induction false} NotSent(e: Happening)
    requires !e.Raw? && !e.Formatted?
    ensures Proper(e) && (!e.Sent? ==> Request(e).None?)
  {
  }

  lemma {:induction false} ConcatNothing()
    ensures Concat([]) == ""
  {
  }

  lemma {:induction false} FitPrints(st: Stanza)
    requires Fit(st)
    ensures Render(st).Pieces? && Request(Sent(st)) == Some(Concat(Render(st).pieces))
  {
    hide Concat, Expressible, Clean;
    LexPrinted(st, "");
  }

  // ------------------------------------------------------------ at the other end

  /** Documents whose character data is cut up in some way, one for each stanza. */
  ghost predicate Cuts(dss: seq<seq<Building.Doc>>, sts: seq<Stanza>) {
    && |dss| == |sts|
    && forall i :: 0 <= i < |dss| ==> CutOf(dss[i], sts[i])
  }

  ghost predicate CutOf(ds: seq<Building.Doc>, st: Stanza) {
    (forall j :: 0 <= j < |ds| ==> Building.HashableDoc(ds[j])) && OfDocs(ds) == OfDocs(DocsOf(st))
  }

  function AllEvents(dss: seq<seq<Building.Doc>>): seq<Event> {
    if dss == [] then [] else Building.EventsAll(dss[0]) + AllEvents(dss[1..])
  }

  /** What the owner of the parser was told: one tree for each stanza, in order. */
  ghost predicate Told(log: seq<Building.Callback>, sts: seq<Stanza>) {
    && |log| == |sts|
    && forall i :: 0 <= i < |log| ==> log[i].Received? && OfStanza(log[i].st, true) == OfStanza(sts[i], false)
  }

  lemma {:induction false} OneMoreTold(first: Building.Callback, log: seq<Building.Callback>, sts: seq<Stanza>)
    requires sts != [] && Told(log, sts[1..])
    requires first.Received? && OfStanza(first.st, true) == OfStanza(sts[0], false)
    ensures Told([first] + log, sts)
  {
    hide OfStanza;
    assert forall i :: 0 < i < |sts| ==> ([first] + log)[i] == log[i - 1] && sts[i] == sts[1..][i - 1];
  }

  lemma {:induction false} BuildAll(sts: seq<Stanza>, dss: seq<seq<Building.Doc>>, b: Building.Builder)
    requires (forall i :: 0 <= i < |sts| ==> Fit(sts[i])) && Cuts(dss, sts)
    requires Building.Sound(b) && b.depth == 1
    ensures Building.Nested(1, AllEvents(dss))
    ensures var r := Building.Run(b, AllEvents(dss));
      r.depth == 1 && b.log <= r.log && Told(r.log[|b.log|..], sts)
    decreases sts
  {
    hide Building.Run, Building.Nested, Building.EventsAll, Told, OfStanza, Expressible, Clean, OfDocs, DocsOf;
    hide Building.HashableDoc, Lex, Render, Concat;
    if sts == [] {
      NothingTold(b);
    } else {
      assert Fit(sts[0]) && CutOf(dss[0], sts[0]);
      PrintThenBuild(sts[0], dss[0], b);
      var first, rest := Building.EventsAll(dss[0]), AllEvents(dss[1..]);
      var m := Building.Run(b, first);
      BuildAll(sts[1..], dss[1..], m);
      Building.RunAppend(b, first, rest);
      var r := Building.Run(m, rest);
      OneMoreTold(m.log[|b.log|], r.log[|m.log|..], sts);
      assert r.log[|b.log|..] == [m.log[|b.log|]] + r.log[|m.log|..];
    }
  }

  lemma {:induction false} NothingTold(b: Building.Builder)
    requires Building.Sound(b)
    ensures Building.Nested(b.depth, []) && Building.Run(b, []) == b && Told(b.log[|b.log|..], [])
  {
  }

  /** Whatever the interleaving of sends with failed, partial and complete writes, once
      nothing of the queue is left the bytes taken since read as the documents of the
      stanzas sent while connected, and a parser between stanzas, its character data cut
      up in any way, gives its owner exactly those stanzas in order. */
  lemma {:induction false} StanzasArrive(l: Line, events: seq<Happening>, dss: seq<seq<Building.Doc>>, b: Building.Builder)
    requires Written(l.queue) && AllProper(events) && SendsStanzas(events)
    requires Unwritten(l.queue) == "" && Unwritten(Run(l, events).queue) == ""
    requires Cuts(dss, SentUp(l, events)) && Building.Sound(b) && b.depth == 1
    ensures var r := Run(l, events);
      l.taken <= r.taken && Lex(r.taken[|l.taken|..]) == Some(Building.EventsAll(DocsOfAll(SentUp(l, events))))
    ensures Building.Nested(1, AllEvents(dss))
    ensures var r := Building.Run(b, AllEvents(dss));
      r.depth == 1 && b.log <= r.log && Told(r.log[|b.log|..], SentUp(l, events))
  {
    hide *;
    AskedIsPrinted(l, events);
    TextArrives(l, events);
    BuildAll(SentUp(l, events), dss, b);
  }

  lemma {:induction false} TextArrives(l: Line, events: seq<Happening>)
    requires Written(l.queue) && AllProper(events) && SendsStanzas(events)
    requires Unwritten(l.queue) == "" && Unwritten(Run(l, events).queue) == ""
    ensures var r := Run(l, events);
      l.taken <= r.taken && Lex(r.taken[|l.taken|..]) == Some(Building.EventsAll(DocsOfAll(SentUp(l, events))))
  {
    hide *;
    var sts := SentUp(l, events);
    AskedIsPrinted(l, events);
    RunConserves(l, events);
    Rest(l.taken, Run(l, events).taken, Asked(l, events));
    AllFit(sts);
    LexPrintedAll(sts, "");
    Rest("", Asked(l, events), Asked(l, events));
    EmptyText(Building.EventsAll(DocsOfAll(sts)));
  }

  lemma {:induction false} Rest(before: string, after: string, text: string)
    requires after + "" == before + "" + text
    ensures before <= after && after[|before|..] == text && text + "" == text
  {
    assert before + "" == before && after + "" == after;
  }

  lemma {:induction false} EmptyText(docs: seq<Event>)
    ensures Before(docs, Lex("")) == Some(docs)
  {
    assert docs + [] == docs;
  }

  lemma {:induction false} AllFit(sts: seq<Stanza>)
    requires forall i :: 0 <= i < |sts| ==> Fit(sts[i])
    ensures forall i :: 0 <= i < |sts| ==> Expressible(sts[i]) && Clean(sts[i])
  {
    hide Expressible, Clean;
  }
}
