/** What a connection has been asked to send, what the transport has taken and what is
    still queued, as values (src/conn.c, src/event.c). */
module Sending {
  import opened Common
  import opened Formats
  import opened Stanzas

  /** An item of the send queue. */
  datatype Packet = Packet(data: string, written: nat)

  /** What one call that writes to the transport comes to. */
  datatype Reply = Took(count: nat) | Failed(recoverable: bool)

  datatype Phase = Connecting | Connected | Disconnected

  /** `taken` is everything the transport has accepted so far; `count` is
      `send_queue_len`. */
  datatype Line = Line(phase: Phase, tls: bool, error: bool, queue: seq<Packet>, count: nat, taken: string)

  const Fresh := Line(Connecting, false, false, [], 0, "")

  // ------------------------------------------------------------- the transport

  /** A transport that has no more answers would block. */
  function First(replies: seq<Reply>): Reply {
    if replies == [] then Failed(true) else replies[0]
  }

  function Others(replies: seq<Reply>): (r: seq<Reply>) {
    if replies == [] then [] else replies[1..]
  }

  /** The value returned: -1 or a number of bytes up to the one asked for. */
  function Returned(reply: Reply, towrite: nat): (ret: int)
    ensures -1 <= ret <= towrite
  {
    match reply
    case Failed(_) => -1
    case Took(count) => if count < towrite then count else towrite
  }

  function Accepted(reply: Reply, towrite: nat): (n: nat)
    ensures n <= towrite
  {
    if reply.Failed? then 0 else Returned(reply, towrite)
  }

  predicate Fatal(reply: Reply) {
    reply.Failed? && !reply.recoverable
  }

  // ----------------------------------------------------------------- the queue

  predicate Written(queue: seq<Packet>) {
    forall i :: 0 <= i < |queue| ==> queue[i].written <= |queue[i].data|
  }

  /** Only the first packet can be under way, and something of it is left. */
  predicate Tidy(queue: seq<Packet>) {
    && (forall i :: 0 < i < |queue| ==> queue[i].written == 0)
    && (queue != [] && queue[0].written > 0 ==> queue[0].written < |queue[0].data|)
  }

  function Unwritten(queue: seq<Packet>): string
    requires Written(queue)
  {
    if queue == [] then "" else queue[0].data[queue[0].written..] + Unwritten(queue[1..])
  }

  datatype Drained = Drained(queue: seq<Packet>, taken: string, failed: bool)

  function Ahead(text: string, d: Drained): Drained {
    d.(taken := text + d.taken)
  }

  /** The packet after a write of part of it. */
  function Further(p: Packet, n: nat): Packet {
    p.(written := p.written + n)
  }

  /** The loop over the send queue: packets leave while they are written in full. */
  function Drain(queue: seq<Packet>, replies: seq<Reply>): (d: Drained)
    requires Written(queue)
    decreases queue
  {
    if queue == [] then Drained([], "", false)
    else
      var p, reply := queue[0], First(replies);
      var towrite := |p.data| - p.written;
      var n := Accepted(reply, towrite);
      if Fatal(reply) then Drained(queue, "", true)
      else if Returned(reply, towrite) < towrite then
        Drained([Further(p, n)] + queue[1..], p.data[p.written..p.written + n], false)
      else Ahead(p.data[p.written..], Drain(queue[1..], Others(replies)))
  }

  /** What a pass makes of each answer that the transport may give: it stops for later if it is
      put off or if only a part is taken, the pass fails on any other error, and goes on to the
      next packet when the whole of one was taken. */
  lemma {:induction false} DrainByAnswer(queue: seq<Packet>, replies: seq<Reply>)
    requires Written(queue) && queue != []
    ensures var p := queue[0]; var left := p.data[p.written..];
      && (replies == [] || replies[0] == Failed(true) ==> Drain(queue, replies) == Drained(queue, "", false))
      && (replies != [] && replies[0] == Failed(false) ==> Drain(queue, replies) == Drained(queue, "", true))
      && (replies != [] && replies[0].Took? && replies[0].count < |left| ==>
           Drain(queue, replies)
             == Drained([Packet(p.data, p.written + replies[0].count)] + queue[1..], left[..replies[0].count], false))
      && (replies != [] && replies[0].Took? && |left| <= replies[0].count ==>
           var d := Drain(queue[1..], replies[1..]); Drain(queue, replies) == Drained(d.queue, left + d.taken, d.failed))
  {
    var p := queue[0];
    assert p.data[p.written..p.written] == "" && [p] + queue[1..] == queue;
    assert Further(p, 0) == p;
    if replies != [] && replies[0].Took? && replies[0].count < |p.data| - p.written {
      assert p.data[p.written..][..replies[0].count] == p.data[p.written..p.written + replies[0].count];
    }
    if |p.data| == p.written {
      assert p.data[p.written..] == "";
    }
  }

  // ------------------------------------------------------------------ the line

  datatype Happening =
    | Opened
    | Secured(ok: bool)
    | Raw(data: string)
    | Formatted(format: string, args: seq<Arg>)
    | Sent(st: Stanza)
    | Flushed(pendingFails: bool, replies: seq<Reply>)
    | Closed

  /** A send of a format whose output C leaves undefined is left out. */
  predicate Proper(e: Happening) {
    e.Formatted? ==> Expand(e.format, 0, e.args).Printed?
  }

  predicate AllProper(events: seq<Happening>) {
    forall i :: 0 <= i < |events| ==> Proper(events[i])
  }

  /** What a call asks to have sent, if it asks for anything. */
  function Request(e: Happening): Option<string>
    requires Proper(e)
  {
    match e
    case Raw(data) => Some(data)
    case Formatted(format, args) => Some(Expand(format, 0, args).text)
    case Sent(st) => if Render(st).Pieces? then Some(Concat(Render(st).pieces)) else None
    case _ => None
  }

  /** `xmpp_send_raw`. */
  function Enqueue(l: Line, data: string): Line {
    if l.phase != Connected then l
    else l.(queue := l.queue + [Packet(data, 0)], count := l.count + 1)
  }

  function Cut(l: Line): Line {
    l.(phase := Disconnected, tls := false)
  }

  function Broken(l: Line): Line {
    Cut(l).(error := true)
  }

  /** The part of `xmpp_run_once` that sends queued data. */
  function Flush(l: Line, pendingFails: bool, replies: seq<Reply>): Line
    requires Written(l.queue)
  {
    if l.phase != Connected then l
    else
      var p := if l.tls && pendingFails then Broken(l) else l;
      var d := Drain(p.queue, replies);
      var q := p.(queue := d.queue, taken := p.taken + d.taken, error := p.error || d.failed);
      if q.error then Broken(q) else q
  }

  function Step(l: Line, e: Happening): (r: Line)
    requires Written(l.queue) && Proper(e)
    ensures Written(r.queue)
  {
    match e
    case Opened => if l.phase == Connecting then l.(phase := Connected) else l
    case Secured(ok) => if l.phase == Connected then l.(tls := ok) else l
    case Flushed(pendingFails, replies) =>
      DrainKeeps(l.queue, replies);
      Flush(l, pendingFails, replies)
    case Closed => Cut(l)
    case _ => if Request(e).Some? then Enqueue(l, Request(e).value) else l
  }

  function Run(l: Line, events: seq<Happening>): (r: Line)
    requires Written(l.queue) && AllProper(events)
    ensures Written(r.queue)
    decreases events
  {
    if events == [] then l else Run(Step(l, events[0]), events[1..])
  }

  /** Everything that was asked to be sent while the line was up, in order. */
  function Asked(l: Line, events: seq<Happening>): string
    requires Written(l.queue) && AllProper(events)
    decreases events
  {
    if events == [] then ""
    else
      (if l.phase == Connected && Request(events[0]).Some? then Request(events[0]).value else "")
      + Asked(Step(l, events[0]), events[1..])
  }

  // -------------------------------------------------------------- conservation

  lemma {:induction false} DrainKeeps(queue: seq<Packet>, replies: seq<Reply>)
    requires Written(queue)
    ensures Written(Drain(queue, replies).queue)
    decreases queue
  {
    if queue != [] {
      DrainKeeps(queue[1..], Others(replies));
    }
  }

  lemma {:induction false} UnwrittenAppend(a: seq<Packet>, b: seq<Packet>)
    requires Written(a) && Written(b)
    ensures Unwritten(a + b) == Unwritten(a) + Unwritten(b)
  {
    if a == [] {
      assert a + b == b;
    } else {
      assert (a + b)[0] == a[0] && (a + b)[1..] == a[1..] + b;
      UnwrittenAppend(a[1..], b);
    }
  }

  lemma {:induction false} UnwrittenOne(p: Packet, rest: seq<Packet>)
    requires Written(rest) && p.written <= |p.data|
    ensures Written([p] + rest) && Unwritten([p] + rest) == p.data[p.written..] + Unwritten(rest)
  {
    assert ([p] + rest)[0] == p && ([p] + rest)[1..] == rest;
  }

  /** A packet written in part. */
  lemma {:induction false} ShortWrite(p: Packet, rest: seq<Packet>, n: nat)
    requires Written(rest) && p.written + n <= |p.data|
    ensures var queue := [Further(p, n)] + rest;
      Written(queue) && p.data[p.written..p.written + n] + Unwritten(queue) == Unwritten([p] + rest)
  {
    hide Unwritten;
    UnwrittenOne(p, rest);
    UnwrittenOne(Further(p, n), rest);
    var head, tail := p.data[p.written..p.written + n], p.data[p.written + n..];
    assert p.data[p.written..] == head + tail;
    assert head + (tail + Unwritten(rest)) == head + tail + Unwritten(rest);
  }

  /** However a pass over the queue ends, the bytes taken are the first of those that were
      to be written, and the others stay in order. */
  lemma {:induction false} DrainConserves(queue: seq<Packet>, replies: seq<Reply>)
    requires Written(queue)
    ensures var d := Drain(queue, replies); Written(d.queue) && d.taken + Unwritten(d.queue) == Unwritten(queue)
    decreases queue
  {
    hide Unwritten, Returned, Accepted, Fatal;
    if queue == [] {
      assert "" + Unwritten(queue) == Unwritten(queue);
    } else {
      var p, reply, rest := queue[0], First(replies), queue[1..];
      var towrite := |p.data| - p.written;
      assert queue == [p] + rest;
      if Fatal(reply) {
        assert "" + Unwritten(queue) == Unwritten(queue);
      } else if Returned(reply, towrite) < towrite {
        ShortWrite(p, rest, Accepted(reply, towrite));
      } else {
        DrainConserves(rest, Others(replies));
        UnwrittenOne(p, rest);
        var d := Drain(rest, Others(replies));
        var all := p.data[p.written..];
        assert all + d.taken + Unwritten(d.queue) == all + (d.taken + Unwritten(d.queue));
      }
    }
  }

  /** What a pass leaves is tidy. */
  lemma {:induction false} DrainTidies(queue: seq<Packet>, replies: seq<Reply>)
    requires Written(queue) && Tidy(queue)
    ensures Tidy(Drain(queue, replies).queue)
    decreases queue
  {
    if queue != [] {
      DrainTidies(queue[1..], Others(replies));
    }
  }

  lemma {:induction false} FlushConserves(l: Line, pendingFails: bool, replies: seq<Reply>)
    requires Written(l.queue)
    ensures var r := Flush(l, pendingFails, replies);
      && Written(r.queue) && l.taken <= r.taken
      && r.taken + Unwritten(r.queue) == l.taken + Unwritten(l.queue)
      && (Tidy(l.queue) ==> Tidy(r.queue))
  {
    hide Drain, Unwritten, Tidy;
    DrainConserves(l.queue, replies);
    if Tidy(l.queue) {
      DrainTidies(l.queue, replies);
    }
    var d := Drain(l.queue, replies);
    assert l.taken + d.taken + Unwritten(d.queue) == l.taken + (d.taken + Unwritten(d.queue));
  }

  lemma {:induction false} EnqueueConserves(l: Line, data: string)
    requires Written(l.queue) && l.phase == Connected
    ensures var r := Enqueue(l, data);
      && Written(r.queue) && r.taken + Unwritten(r.queue) == l.taken + Unwritten(l.queue) + data
      && (Tidy(l.queue) ==> Tidy(r.queue))
  {
    UnwrittenAppend(l.queue, [Packet(data, 0)]);
    UnwrittenOne(Packet(data, 0), []);
    assert [Packet(data, 0)] + [] == [Packet(data, 0)];
    assert data[0..] + Unwritten([]) == data;
    assert l.taken + (Unwritten(l.queue) + data) == l.taken + Unwritten(l.queue) + data;
  }

  lemma {:induction false} StepConserves(l: Line, e: Happening)
    requires Written(l.queue) && Proper(e)
    ensures var r, asked := Step(l, e), if l.phase == Connected && Request(e).Some? then Request(e).value else "";
      && l.taken <= r.taken
      && r.taken + Unwritten(r.queue) == l.taken + Unwritten(l.queue) + asked
      && (Tidy(l.queue) ==> Tidy(r.queue))
  {
    hide Request, Flush, Unwritten, Tidy;
    assert l.taken + Unwritten(l.queue) + "" == l.taken + Unwritten(l.queue);
    match e {
      case Flushed(pendingFails, replies) =>
        NoRequest(e);
        FlushConserves(l, pendingFails, replies);
      case Raw(_) => SendConserves(l, e);
      case Formatted(_, _) => SendConserves(l, e);
      case Sent(_) => SendConserves(l, e);
      case _ => NoRequest(e);
    }
  }

  lemma {:induction false} NoRequest(e: Happening)
    requires !e.Raw? && !e.Formatted? && !e.Sent?
    ensures Request(e) == None
  {
  }

  lemma {:induction false} SendConserves(l: Line, e: Happening)
    requires Written(l.queue) && Proper(e) && (e.Raw? || e.Formatted? || e.Sent?)
    ensures var r, asked := Step(l, e), if l.phase == Connected && Request(e).Some? then Request(e).value else "";
      && l.taken <= r.taken
      && r.taken + Unwritten(r.queue) == l.taken + Unwritten(l.queue) + asked
      && (Tidy(l.queue) ==> Tidy(r.queue))
  {
    hide Request, Unwritten, Tidy;
    assert l.taken + Unwritten(l.queue) + "" == l.taken + Unwritten(l.queue);
    if l.phase == Connected && Request(e).Some? {
      EnqueueConserves(l, Request(e).value);
    }
  }

  /** Over any interleaving of sends, failed, partial and complete writes, and however the
      connection goes, the bytes the transport took followed by the bytes still queued
      are, in order, all that was asked to be sent while connected. */
  lemma {:induction false} RunConserves(l: Line, events: seq<Happening>)
    requires Written(l.queue) && AllProper(events)
    ensures var r := Run(l, events);
      && l.taken <= r.taken
      && r.taken + Unwritten(r.queue) == l.taken + Unwritten(l.queue) + Asked(l, events)
      && (Tidy(l.queue) ==> Tidy(r.queue))
    decreases events
  {
    hide Step, Unwritten, Tidy, Request, Proper;
    if events == [] {
      assert l.taken + Unwritten(l.queue) + "" == l.taken + Unwritten(l.queue);
    } else {
      var e := events[0];
      var s := Step(l, e);
      StepConserves(l, e);
      RunConserves(s, events[1..]);
      var asked := if l.phase == Connected && Request(e).Some? then Request(e).value else "";
      var so := l.taken + Unwritten(l.queue);
      assert so + asked + Asked(s, events[1..]) == so + (asked + Asked(s, events[1..]));
    }
  }

  /** From a new connection on, the server has received a prefix of what was asked for. */
  lemma {:induction false} NothingLostOrReordered(events: seq<Happening>)
    requires AllProper(events)
    ensures var r := Run(Fresh, events);
      && Tidy(r.queue) && r.taken <= Asked(Fresh, events)
      && Unwritten(r.queue) == Asked(Fresh, events)[|r.taken|..]
  {
    hide Run, Asked, Proper;
    RunConserves(Fresh, events);
    assert Fresh.taken + Unwritten(Fresh.queue) + Asked(Fresh, events) == Asked(Fresh, events);
  }

  /** A connection that is down stays as it is: nothing is queued and nothing written. */
  lemma {:induction false} DownForGood(l: Line, events: seq<Happening>)
    requires Written(l.queue) && AllProper(events) && l.phase == Disconnected && !l.tls
    ensures Run(l, events) == l && Asked(l, events) == ""
    decreases events
  {
    if events != [] {
      DownForGood(Step(l, events[0]), events[1..]);
    }
  }

  // ------------------------------------------------------------------ progress

  /** A pass over the queue on which the transport always takes at least one byte. */
  predicate Generous(l: Line, e: Happening) {
    && e.Flushed? && !e.pendingFails && |l.queue| <= |e.replies|
    && forall i :: 0 <= i < |e.replies| ==> e.replies[i].Took? && e.replies[i].count > 0
  }

  lemma {:induction false} DrainProgress(queue: seq<Packet>, replies: seq<Reply>)
    requires Written(queue) && |queue| <= |replies|
    requires forall i :: 0 <= i < |replies| ==> replies[i].Took? && replies[i].count > 0
    ensures var d := Drain(queue, replies);
      && !d.failed && Written(d.queue) && (d.queue == [] || d.taken != "") && |d.queue| <= |queue|
    decreases queue
  {
    DrainKeeps(queue, replies);
    if queue != [] {
      DrainProgress(queue[1..], replies[1..]);
    }
  }

  predicate AllGenerous(l: Line, events: seq<Happening>)
    requires Written(l.queue) && AllProper(events)
    decreases events
  {
    events == [] || (Generous(l, events[0]) && AllGenerous(Step(l, events[0]), events[1..]))
  }

  /** If every pass takes at least one byte, as many passes as there are bytes, and one
      more, empty the queue: everything asked for is delivered. */
  lemma {:induction false} Delivered(l: Line, events: seq<Happening>)
    requires Written(l.queue) && AllProper(events) && l.phase == Connected && !l.error
    requires AllGenerous(l, events) && |events| > |Unwritten(l.queue)|
    ensures var r := Run(l, events); r.queue == [] && r.phase == Connected && r.taken == l.taken + Unwritten(l.queue)
    decreases events
  {
    hide Drain, Generous, Proper;
    RunConserves(l, events);
    NothingAsked(l, events);
    assert l.taken + Unwritten(l.queue) + "" == l.taken + Unwritten(l.queue);
    GenerousRun(l, events);
    var r := Run(l, events);
    assert Unwritten([]) == "" && r.taken + "" == r.taken;
  }

  lemma {:induction false} NothingAsked(l: Line, events: seq<Happening>)
    requires Written(l.queue) && AllProper(events) && AllGenerous(l, events)
    ensures Asked(l, events) == ""
    decreases events
  {
    if events != [] {
      NothingAsked(Step(l, events[0]), events[1..]);
    }
  }

  lemma {:induction false} GenerousStep(l: Line, e: Happening)
    requires Written(l.queue) && Proper(e) && l.phase == Connected && !l.error && Generous(l, e)
    ensures var r := Step(l, e);
      && r.phase == Connected && !r.error && (r.queue == [] || |Unwritten(r.queue)| < |Unwritten(l.queue)|)
  {
    hide Drain, Unwritten;
    DrainProgress(l.queue, e.replies);
    DrainConserves(l.queue, e.replies);
    var d := Drain(l.queue, e.replies);
    assert |d.taken + Unwritten(d.queue)| == |d.taken| + |Unwritten(d.queue)|;
  }

  lemma {:induction false} GenerousRun(l: Line, events: seq<Happening>)
    requires Written(l.queue) && AllProper(events) && l.phase == Connected && !l.error
    requires AllGenerous(l, events) && (l.queue == [] || |events| > |Unwritten(l.queue)|)
    ensures var r := Run(l, events); r.queue == [] && r.phase == Connected
    decreases events
  {
    hide Step, Generous, Proper;
    if events != [] {
      GenerousStep(l, events[0]);
      var s := Step(l, events[0]);
      assert s.queue == [] || |Unwritten(s.queue)| < |Unwritten(l.queue)|;
      StaysEmpty(l, events[0]);
      GenerousRun(s, events[1..]);
    }
  }

  lemma {:induction false} StaysEmpty(l: Line, e: Happening)
    requires Written(l.queue) && Proper(e) && Generous(l, e)
    ensures l.queue == [] ==> Step(l, e).queue == []
  {
  }
}
