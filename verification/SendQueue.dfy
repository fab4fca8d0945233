/** The send queue of a connection as linked items (src/conn.c), the loop of
    `xmpp_run_once` that writes it out (src/event.c), and the calls that fill it. */
module SendQueues {
  import opened Common
  import opened Formats
  import opened Printers
  import opened Stanzas
  import opened Sending
  import Renderers

  class Item {
    const data: string
    var written: nat
    var next: Item?

    constructor (data: string)
      ensures this.data == data && written == 0 && next == null
    {
      this.data, written, next := data, 0, null;
    }
  }

  /** What the socket, or TLS on top of it, has accepted. */
  class Transport {
    var taken: string

    constructor ()
      ensures taken == ""
    {
      taken := "";
    }

    /** One call to write data[from..from + count]. */
    method Write(data: string, from: nat, count: nat, reply: Reply) returns (ret: int)
      requires from + count <= |data|
      modifies this
      ensures ret == Returned(reply, count)
      ensures taken == old(taken) + data[from..from + Accepted(reply, count)]
    {
      ret := Returned(reply, count);
      taken := taken + data[from..from + Accepted(reply, count)];
    }
  }

  ghost function After(items: seq<Item>, j: nat): Item? {
    if j + 1 < |items| then items[j + 1] else null
  }

  /** `next` links lead from head through the items to NULL, no item twice. */
  ghost predicate Linked(head: Item?, items: seq<Item>)
    reads items
  {
    && head == (if items == [] then null else items[0])
    && (forall j :: 0 <= j < |items| ==> items[j].next == After(items, j))
    && forall i, j :: 0 <= i < j < |items| ==> items[i] != items[j]
  }

  ghost function Packets(items: seq<Item>): (r: seq<Packet>)
    reads items
    ensures |r| == |items|
    ensures forall j {:trigger r[j]} :: 0 <= j < |items| ==> r[j] == Packet(items[j].data, items[j].written)
  {
    seq(|items|, j requires 0 <= j < |items| reads items => Packet(items[j].data, items[j].written))
  }

  lemma {:induction false} RawStep(l: Line, data: string)
    requires Written(l.queue)
    ensures Step(l, Raw(data)) == if l.phase != Connected then l
      else Line(l.phase, l.tls, l.error, l.queue + [Packet(data, 0)], l.count + 1, l.taken)
  {
  }

  lemma {:induction false} FormattedStep(l: Line, format: string, args: seq<Arg>)
    requires Written(l.queue) && Proper(Formatted(format, args))
    ensures Expand(format, 0, args).Printed?
    ensures Step(l, Formatted(format, args)) == Step(l, Raw(Expand(format, 0, args).text))
  {
    hide Expand;
  }

  lemma {:induction false} FlushStep(l: Line, pendingFails: bool, replies: seq<Reply>)
    requires Written(l.queue)
    ensures Step(l, Flushed(pendingFails, replies)) == if l.phase != Connected then l
      else
        var cut := l.tls && pendingFails;
        var d := Drain(l.queue, replies);
        var error := l.error || cut || d.failed;
        Line(if error then Disconnected else Connected, l.tls && !error, error, d.queue, l.count, l.taken + d.taken)
  {
    hide Drain;
  }

  lemma {:induction false} AllPrinted(start: seq<char>, count: nat, text: string)
    requires |text| < count == |start|
    ensures AfterPrint(start, 0, count, text)[..|text|] == text
  {
  }

  lemma {:induction false} SentStep(l: Line, st: Stanza)
    requires Written(l.queue)
    ensures Step(l, Sent(st)) == if Render(st).Pieces? then Step(l, Raw(Concat(Render(st).pieces))) else l
  {
    hide Render, Concat;
  }

  lemma {:induction false} Codes()
    ensures Renderers.XMPP_EOK == 0 && Renderers.XMPP_EINVOP == -2
  {
  }

  lemma {:induction false} DownSends(l: Line, st: Stanza)
    requires Written(l.queue) && l.phase != Connected
    ensures Step(l, Sent(st)) == l
  {
    hide Render, Concat;
  }

  lemma {:induction false} AheadIs(text: string, d: Drained)
    ensures Ahead(text, d) == Drained(d.queue, text + d.taken, d.failed)
    ensures Ahead("", d) == d
  {
  }

  lemma {:induction false} AheadTwice(a: string, b: string, d: Drained)
    ensures Ahead(a, Ahead(b, d)) == Ahead(a + b, d)
  {
    assert a + (b + d.taken) == a + b + d.taken;
  }

  lemma {:induction false} Associates(a: string, b: string, c: string)
    ensures a + b + c == a + (b + c) && a + "" == a && b + "" == b
  {
  }

  ghost predicate Within(some: seq<Item>, all: seq<Item>) {
    forall item :: item in some ==> item in all
  }

  lemma {:induction false} WithinAll(all: seq<Item>)
    ensures Within(all, all)
  {
  }

  lemma {:induction false} EachWithin(some: seq<Item>, all: seq<Item>)
    requires Within(some, all)
    ensures forall item {:trigger item in some} {:trigger item in all} :: item in some ==> item in all
    ensures forall j :: 0 <= j < |some| ==> some[j] in all
  {
  }

  lemma {:induction false} WithinMore(a: seq<Item>, b: seq<Item>, c: seq<Item>)
    requires Within(a, b) && Within(b, c)
    ensures Within(a, c)
  {
  }

  lemma {:induction false} NothingToDrain(text: string, replies: seq<Reply>)
    ensures Ahead(text, Drain([], replies)) == Drained([], text, false)
  {
  }

  /** How a pass goes on with the first packet, by what the call that writes it returns. */
  lemma {:induction false} DrainStops(queue: seq<Packet>, replies: seq<Reply>)
    requires Written(queue) && queue != []
    ensures var p, reply := queue[0], First(replies);
      var towrite := |p.data| - p.written;
      var ret, n := Returned(reply, towrite), Accepted(reply, towrite);
      && n == (if ret >= 0 then ret else 0) && (Fatal(reply) ==> ret < 0)
      && (ret == towrite ==> p.data[p.written..p.written + n] == p.data[p.written..])
      && (ret < 0 ==> p.data[p.written..p.written + n] == "" && [Further(p, n)] + queue[1..] == queue)
      && (Fatal(reply) ==> Drain(queue, replies) == Drained(queue, "", true))
      && (!Fatal(reply) && ret < towrite ==>
        Drain(queue, replies) == Drained([Further(p, n)] + queue[1..], p.data[p.written..p.written + n], false))
      && (!Fatal(reply) && ret == towrite ==>
        Drain(queue, replies) == Ahead(p.data[p.written..], Drain(queue[1..], Others(replies))))
  {
  }

  /** The fields of a connection that have to do with sending. */
  class Outbox {
    const transport: Transport
    var state: Phase
    var tls: bool
    var error: bool
    var head: Item?
    var tail: Item?
    var length: nat
    /** The items of the queue, from the head on. */
    ghost var items: seq<Item>

    /** The tail is the last item, and NULL exactly when the head is. */
    ghost predicate Valid()
      reads `head, `tail, `items, items
    {
      && Linked(head, items) && Written(Packets(items))
      && tail == (if items == [] then null else items[|items| - 1])
    }

    ghost function View(): Line
      reads this, items, transport
    {
      Line(state, tls, error, Packets(items), length, transport.taken)
    }

    constructor ()
      ensures Valid() && fresh(transport) && View() == Sending.Fresh
    {
      transport := new Transport();
      state, tls, error, head, tail, length, items := Connecting, false, false, null, null, 0, [];
    }

    /** `xmpp_send_raw`. */
    method SendRaw(data: array<char>, len: nat)
      requires Valid() && len <= data.Length
      modifies this, items
      ensures Valid() && old(items) <= items && fresh(items[|old(items)|..])
      ensures View() == Step(old(View()), Raw(data[..len]))
    {
      hide *;
      ViewFields();
      RawStep(View(), data[..len]);
      if state != Connected {
        return;
      }
      var item := new Item(data[..len]);
      Append(item);
      length := length + 1;
      ViewFields();
    }

    lemma {:induction false} ViewFields()
      ensures View() == Line(state, tls, error, Packets(items), length, transport.taken)
      ensures Valid() ==> Written(View().queue) && Written(Packets(items))
    {
    }

    method Append(item: Item)
      requires Valid() && item !in items && item.next == null && item.written == 0
      modifies this`head, this`tail, this`items, items`next
      ensures Valid() && items == old(items) + [item]
      ensures Packets(items) == old(Packets(items)) + [Packet(item.data, 0)]
    {
      if tail == null {
        head := item;
        tail := item;
      } else {
        tail.next := item;
        tail := item;
      }
      items := items + [item];
      assert Packets(items) == old(Packets(items)) + [Packet(item.data, 0)];
      assert forall j :: 0 <= j < |items| ==> Packets(items)[j].written <= |Packets(items)[j].data|;
    }

    /** `xmpp_send_raw_string`: what 1024 bytes cannot hold is printed again into a buffer
        of its length. */
    method SendRawString(format: string, args: seq<Arg>)
      requires Valid() && Proper(Formatted(format, args))
      modifies this, items
      ensures Valid() && old(items) <= items && fresh(items[|old(items)|..])
      ensures View() == Step(old(View()), Formatted(format, args))
    {
      hide *;
      ViewFields();
      FormattedStep(View(), format, args);
      ghost var text := Expand(format, 0, args).text;
      var buf := new char[1024];
      ghost var start := buf[..];
      var len := Vsnprintf(buf, 0, false, 1024, format, args);
      if len >= 1024 {
        len := len + 1;
        var bigbuf := new char[len];
        start := bigbuf[..];
        var _ := Vsnprintf(bigbuf, 0, false, len, format, args);
        AllPrinted(start, len, text);
        assert bigbuf[..len - 1] == bigbuf[..][..len - 1];
        SendRaw(bigbuf, len - 1);
      } else {
        AllPrinted(start, 1024, text);
        assert buf[..len] == buf[..][..len];
        SendRaw(buf, len);
      }
    }

    /** `xmpp_send`: what cannot be rendered is not sent. */
    method Send(st: Stanza, beyond: char)
      requires Valid() && Renderers.Printable(st)
      modifies this, items
      ensures Valid() && old(items) <= items && fresh(items[|old(items)|..])
      ensures View() == Step(old(View()), Sent(st))
    {
      hide *;
      ViewFields();
      SentStep(View(), st);
      Codes();
      if state == Connected {
        var ret, buf, len, _ := Renderers.ToText(st, beyond);
        if ret == Renderers.XMPP_EOK {
          SendRaw(buf, len);
        }
      } else {
        DownSends(View(), st);
      }
    }

    lemma {:induction false} HeadItem()
      requires Valid()
      ensures head == null <==> items == []
      ensures head == null ==> Packets(items) == []
      ensures head != null ==>
        && head == items[0] && head in items && head.next == (if |items| > 1 then items[1] else null)
        && head.written <= |head.data| && Packets(items) != []
        && Packets(items)[0] == Packet(head.data, head.written) && Written(Packets(items))
    {
      if head != null {
        assert Packets(items)[0] == Packet(items[0].data, items[0].written);
      }
    }

    /** Some of the first item was written. */
    method Progress(n: nat)
      requires Valid() && head != null && head.written + n <= |head.data|
      modifies head`written
      ensures Valid() && Packets(items) == [Further(old(Packets(items)[0]), n)] + old(Packets(items))[1..]
    {
      ghost var before := Packets(items);
      head.written := head.written + n;
      assert Packets(items) == [Further(before[0], n)] + before[1..];
      assert forall j :: 0 <= j < |items| ==> Packets(items)[j].written <= |Packets(items)[j].data|;
    }

    /** The first item is freed, and the next one becomes the head. */
    method Pop()
      requires Valid() && head != null
      modifies this`head, this`tail, this`items
      ensures Valid() && head == old(head.next) && items == old(items)[1..] && Within(items, old(items))
      ensures Packets(items) == old(Packets(items))[1..]
    {
      ghost var before := Packets(items);
      head := head.next;
      if head == null {
        tail := null;
      }
      items := items[1..];
      assert Packets(items) == before[1..];
      assert forall j :: 0 <= j < |items| ==> Packets(items)[j] == before[j + 1];
    }

    /** One round of the loop that writes the queue out, at its first item; more if the
        loop goes on. The branches of the source for TLS and for the plain socket differ
        only in the call that writes. */
    method WriteItem(replies: seq<Reply>) returns (more: bool, ghost data: string)
      requires Valid() && head != null
      modifies this`error, this`head, this`tail, this`items, items, transport
      ensures Valid() && Within(items, old(items)) && (more ==> |items| < |old(items)|)
      ensures transport.taken == old(transport.taken) + data
      ensures var d := Drain(old(Packets(items)), replies);
        if more then d == Ahead(data, Drain(Packets(items), Others(replies))) && error == old(error)
        else d == Drained(Packets(items), data, d.failed) && error == (old(error) || d.failed)
    {
      hide *;
      ViewFields();
      HeadItem();
      WithinAll(items);
      DrainStops(Packets(items), replies);
      var sq := head;
      var towrite := |sq.data| - sq.written;
      var reply := First(replies);
      var ret := transport.Write(sq.data, sq.written, towrite, reply);
      data := sq.data[sq.written..sq.written + Accepted(reply, towrite)];
      if ret < 0 && Fatal(reply) {
        error := true;
        return false, "";
      } else if ret < towrite {
        if ret >= 0 {
          Progress(ret);
        }
        return false, data;
      }
      Pop();
      more := true;
    }

    /** The loop over the send queue. */
    method WriteQueue(replies: seq<Reply>)
      requires Valid()
      modifies this`error, this`head, this`tail, this`items, items, transport
      ensures Valid() && Within(items, old(items))
      ensures var d := Drain(old(Packets(items)), replies);
        && Packets(items) == d.queue && transport.taken == old(transport.taken) + d.taken
        && error == (old(error) || d.failed)
    {
      hide *;
      ViewFields();
      HeadItem();
      ghost var all, soFar, before := items, "", transport.taken;
      ghost var d := Drain(Packets(items), replies);
      var left := replies;
      AheadIs("", d);
      WithinAll(all);
      Associates(before, "", "");
      while head != null
        invariant Valid() && Within(items, all) && Written(Packets(items))
        invariant head == null ==> Packets(items) == []
        invariant d == Ahead(soFar, Drain(Packets(items), left))
        invariant transport.taken == before + soFar && error == old(error)
        decreases |items|
      {
        ghost var prior := items;
        EachWithin(items, all);
        AheadIs(soFar, Drain(Packets(items), left));
        var more, data := WriteItem(left);
        Associates(before, soFar, data);
        WithinMore(items, prior, all);
        ViewFields();
        if !more {
          break;
        }
        HeadItem();
        left := Others(left);
        AheadTwice(soFar, data, Drain(Packets(items), left));
        soFar := soFar + data;
      }
      NothingToDrain(soFar, left);
    }

    /** `conn_disconnect`; the queue is left as it is. */
    method Disconnect()
      requires Valid()
      modifies this`state, this`tls
      ensures View() == Step(old(View()), Closed)
      ensures state == Disconnected && !tls
    {
      state := Disconnected;
      if tls {
        tls := false;
      }
    }

    /** The connection is made, in the second half of `xmpp_run_once`. */
    method Open()
      requires Valid()
      modifies this`state
      ensures Valid() && items == old(items) && View() == Step(old(View()), Opened)
    {
      if state == Connecting {
        state := Connected;
      }
    }

    /** The handshake of `_handle_proceedtls_default`: `tls` is set if it succeeds and NULL
        again if not. */
    method StartTls(ok: bool)
      requires Valid() && state == Connected
      modifies this`tls
      ensures Valid() && items == old(items) && View() == Step(old(View()), Secured(ok))
    {
      tls := ok;
    }

    /** The first part of `xmpp_run_once`. When TLS cannot push out what it still holds the
        connection is closed, but the queue is tried all the same. */
    method Flush(pendingFails: bool, replies: seq<Reply>)
      requires Valid()
      modifies this`state, this`tls, this`error, this`head, this`tail, this`items, items, transport
      ensures Valid() && Within(items, old(items))
      ensures View() == Step(old(View()), Flushed(pendingFails, replies))
    {
      hide *;
      ViewFields();
      FlushStep(View(), pendingFails, replies);
      WithinAll(items);
      if state != Connected {
        return;
      }
      if tls {
        if pendingFails {
          error := true;
          Disconnect();
        }
      }
      WriteQueue(replies);
      if error {
        error := true;
        Disconnect();
      }
      ViewFields();
    }
  }
}
