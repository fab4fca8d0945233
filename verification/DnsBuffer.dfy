/** The cursor routines of src/sock.c that write and read a DNS message in a byte buffer:
    domain names, numbers, the header and a question. */
module DnsBuffers {
  import opened Common
  import opened DnsNames

  // -------------------------------------------------------------- writing at a place

  function Stored(start: Bytes, offset: nat, text: Bytes): (r: Bytes)
    requires offset + |text| <= |start|
    ensures |r| == |start|
  {
    start[..offset] + text + start[offset + |text|..]
  }

  lemma {:induction false} StoredNothing(start: Bytes, offset: nat)
    requires offset <= |start|
    ensures Stored(start, offset, []) == start
  {
  }

  lemma {:induction false} StoreOne(start: Bytes, offset: nat, text: Bytes, b: bv8)
    requires offset + |text| < |start|
    ensures Stored(start, offset, text)[offset + |text| := b] == Stored(start, offset, text + [b])
  {
  }

  lemma {:induction false} StoreMore(start: Bytes, offset: nat, a: Bytes, b: Bytes)
    requires offset + |a| + |b| <= |start|
    ensures Stored(Stored(start, offset, a), offset + |a|, b) == Stored(start, offset, a + b)
  {
  }

  // --------------------------------------------------------------- domain names

  lemma {:induction false} WordGoesOn(name: Bytes, i: nat)
    requires i < |name|
    ensures WordEnd(name[i..]) == if name[i] == DOT then 0 else 1 + WordEnd(name[i + 1..])
  {
    assert name[i..][1..] == name[i + 1..];
  }

  lemma {:induction false} NextWord(name: Bytes, wordstart: nat, wordend: nat)
    requires wordstart < |name| && wordend == wordstart + WordEnd(name[wordstart..])
    ensures var w := name[wordstart..wordend];
      && wordend <= |name| && (wordend < |name| ==> name[wordend] == DOT)
      && Printed(name[wordstart..])
        == [LengthByte(|w|)] + w + Printed(name[if wordend < |name| then wordend + 1 else wordend..])
  {
    hide *;
    var rest := name[wordstart..];
    var n := WordEnd(rest);
    PrintedUnfolds(rest);
    AfterIs(rest);
    assert rest[..n] == name[wordstart..wordend];
    if n < |rest| {
      assert rest[n + 1..] == name[wordend + 1..];
    } else {
      assert name[wordend..] == [];
    }
    WordText(name[wordstart..wordend]);
  }

  lemma {:induction false} AfterIs(name: Bytes)
    ensures AfterWord(name) == if WordEnd(name) < |name| then name[WordEnd(name) + 1..] else []
    ensures WordEnd(name) <= |name| && (WordEnd(name) < |name| ==> name[WordEnd(name)] == DOT)
  {
    hide WordEnd;
  }

  lemma {:induction false} WordText(w: Bytes)
    ensures PrintedWord(w) == [LengthByte(|w|)] + w
  {
  }

  lemma {:induction false} PrintedNothing(name: Bytes)
    ensures Printed(name[|name|..]) == [0]
  {
  }

  lemma {:induction false} Regroup(a: Bytes, b: Bytes, c: Bytes, d: Bytes)
    ensures a + (b + c + d) == a + b + c + d && |a + b + c| == |a| + |b| + |c|
  {
  }

  lemma {:induction false} OneFurther(text: Bytes, name: Bytes, from: nat, at: nat)
    requires from <= at < |name|
    ensures text + name[from..at] + [name[at]] == text + name[from..at + 1]
  {
  }

  /** `netbuf_add_domain_name`. */
  method AddDomainName(memory: array<bv8>, offset: nat, name: Bytes) returns (after: nat)
    requires offset + |Printed(name)| <= memory.Length
    modifies memory
    ensures after == offset + |Printed(name)|
    ensures memory[..] == Stored(old(memory[..]), offset, Printed(name))
  {
    hide *;
    ghost var start, done: Bytes := memory[..], [];
    var p, wordstart := offset, 0;
    StoredNothing(start, offset);
    assert name[0..] == name && [] + Printed(name) == Printed(name);
    while wordstart < |name|
      invariant wordstart <= |name| && p == offset + |done|
      invariant done + Printed(name[wordstart..]) == Printed(name)
      invariant memory[..] == Stored(start, offset, done)
    {
      var wordend := FindWordEnd(name, wordstart);
      NextWord(name, wordstart, wordend);
      ghost var w := name[wordstart..wordend];
      ghost var text := done + [LengthByte(|w|)];
      Regroup(done, [LengthByte(|w|)], w, Printed(name[if wordend < |name| then wordend + 1 else wordend..]));
      p := AddLength(memory, p, wordend - wordstart, start, offset, done);
      p := CopyWord(memory, p, name, wordstart, wordend, start, offset, text);
      wordstart := wordend;
      done := text + w;
      if wordstart < |name| && name[wordstart] == DOT {
        wordstart := wordstart + 1;
      }
    }
    PrintedNothing(name);
    StoreOne(start, offset, done, 0);
    memory[p] := 0;
    after := p + 1;
  }

  method FindWordEnd(name: Bytes, wordstart: nat) returns (wordend: nat)
    requires wordstart <= |name|
    ensures wordend == wordstart + WordEnd(name[wordstart..]) <= |name|
  {
    wordend := wordstart;
    while wordend < |name| && name[wordend] != DOT
      invariant wordstart <= wordend <= |name|
      invariant wordend + WordEnd(name[wordend..]) == wordstart + WordEnd(name[wordstart..])
    {
      WordGoesOn(name, wordend);
      wordend := wordend + 1;
    }
  }

  method AddLength(memory: array<bv8>, p: nat, n: nat, ghost start: Bytes, ghost offset: nat, ghost done: Bytes)
    returns (next: nat)
    requires p == offset + |done| < memory.Length == |start| && memory[..] == Stored(start, offset, done)
    modifies memory
    ensures next == p + 1 && memory[..] == Stored(start, offset, done + [LengthByte(n)])
  {
    var len := n;
    if len > 0x3F {
      len := 0x3F;
    }
    StoreOne(start, offset, done, LengthByte(n));
    memory[p] := len as bv8;
    next := p + 1;
  }

  method CopyWord(memory: array<bv8>, from: nat, name: Bytes, wordstart: nat, wordend: nat, ghost start: Bytes,
                  ghost offset: nat, ghost text: Bytes) returns (p: nat)
    requires wordstart <= wordend <= |name| && from == offset + |text|
    requires from + wordend - wordstart <= memory.Length == |start| && memory[..] == Stored(start, offset, text)
    modifies memory
    ensures p == from + (wordend - wordstart)
    ensures memory[..] == Stored(start, offset, text + name[wordstart..wordend])
  {
    hide *;
    p := from;
    var i := wordstart;
    assert text + name[i..i] == text;
    while i != wordend
      invariant wordstart <= i <= wordend && p == from + (i - wordstart)
      invariant memory[..] == Stored(start, offset, text + name[wordstart..i])
    {
      StoreOne(start, offset, text + name[wordstart..i], name[i]);
      OneFurther(text, name, wordstart, i);
      memory[p] := name[i];
      p, i := p + 1, i + 1;
    }
  }

  // ----------------------------------------------------------- reading a name

  lemma {:induction false} MeasureAppend(a: seq<Bytes>, b: seq<Bytes>)
    ensures Measure(a + b) == Measure(a) + Measure(b)
  {
    if a == [] {
      assert a + b == b;
    } else {
      assert (a + b)[1..] == a[1..] + b;
      MeasureAppend(a[1..], b);
    }
  }

  lemma {:induction false} JoinedSnoc(labels: seq<Bytes>, w: Bytes)
    ensures Joined(labels + [w]) == if labels == [] then w else Joined(labels) + [DOT] + w
  {
    if labels == [] {
      JoinedFirst(w, []);
      assert labels + [w] == [w] + [];
    } else {
      var first, rest := labels[0], labels[1..];
      assert labels == [first] + rest && labels + [w] == [first] + (rest + [w]);
      hide *;
      JoinedSnoc(rest, w);
      JoinedFirst(first, rest);
      JoinedFirst(first, rest + [w]);
      if rest != [] {
        Seam(first, Joined(rest), w);
      }
    }
  }

  lemma {:induction false} Seam(a: Bytes, b: Bytes, w: Bytes)
    ensures a + [DOT] + (b + [DOT] + w) == a + [DOT] + b + [DOT] + w
  {
  }

  lemma {:induction false} RunTogetherSnoc(labels: seq<Bytes>, w: Bytes)
    ensures RunTogether(labels + [w]) == RunTogether(labels) + w
  {
    if labels == [] {
      assert [w][1..] == [] && labels + [w] == [w];
      assert w + [] == w;
    } else {
      assert (labels + [w])[1..] == labels[1..] + [w];
      RunTogetherSnoc(labels[1..], w);
      assert labels[0] + (RunTogether(labels[1..]) + w) == labels[0] + RunTogether(labels[1..]) + w;
    }
  }

  /** Whether a dot goes before the next label: the copy has begun, and not with a zero. */
  predicate Begun(labels: seq<Bytes>) {
    labels != [] && Copied(labels) != [] && Copied(labels)[0] != 0
  }

  lemma {:induction false} CopiedSnoc(labels: seq<Bytes>, w: Bytes)
    requires w != [] && (labels != [] ==> labels[0] != [])
    ensures Copied(labels + [w]) == if Begun(labels) then Copied(labels) + [DOT] + w else Copied(labels) + w
  {
    hide Joined, RunTogether;
    JoinedSnoc(labels, w);
    RunTogetherSnoc(labels, w);
    FirstOfCopied(labels);
    if labels == [] {
      NothingJoined();
      assert labels + [w] == [w] && [] + w == w;
    } else {
      assert (labels + [w])[0] == labels[0];
    }
  }

  lemma {:induction false} NothingJoined()
    ensures Joined([]) == [] && RunTogether([]) == [] && Copied([]) == [] && Measure([]) == 0
  {
  }

  lemma {:induction false} FirstOfCopied(labels: seq<Bytes>)
    requires labels != [] ==> labels[0] != []
    ensures labels != [] ==> Copied(labels) != [] && Copied(labels)[0] == labels[0][0]
  {
  }

  /** What is left of a name from a place on: its labels and its bytes in line. */
  ghost predicate Left(buf: Bytes, at: nat, steps: nat, labels: seq<Bytes>, inline: nat) {
    Labels(buf, at, steps) == Some(labels) && Inline(buf, at, steps) == inline
  }

  lemma {:induction false} LeftStep(buf: Bytes, at: nat, steps: nat, labels: seq<Bytes>, inline: nat)
    requires Left(buf, at, steps, labels, inline)
    ensures at < |buf|
    ensures buf[at] == 0 ==> labels == [] && inline == 1
    ensures buf[at] != 0 && IsPointer(buf[at]) ==> steps > 0 && at + 1 < |buf| && inline == 2
    ensures buf[at] != 0 && IsPointer(buf[at]) ==> var next := Target(buf[at], buf[at + 1]);
      && Labels(buf, next, steps - 1).Some?
      && Left(buf, next, steps - 1, labels, Inline(buf, next, steps - 1))
    ensures buf[at] != 0 && !IsPointer(buf[at]) ==> steps > 0 && Size(buf[at]) > 0
    ensures buf[at] != 0 && !IsPointer(buf[at]) ==> var next := at + 1 + Size(buf[at]);
      && next <= |buf| && labels != [] && labels[0] == buf[at + 1..next] && inline > next - at
      && Left(buf, next, steps - 1, labels[1..], inline - (next - at))
  {
    hide IsPointer, Target;
    if buf[at] != 0 && IsPointer(buf[at]) {
      var rest := Labels(buf, Next(buf, at).value, steps - 1).value;
      assert [] + rest == rest;
    }
  }

  lemma {:induction false} NameLeft(buf: Bytes, at: nat)
    requires Name(buf, at).Some?
    ensures Labels(buf, at, |buf|).Some? && Left(buf, at, |buf|, Name(buf, at).value, Inline(buf, at, |buf|))
  {
    hide Labels, Inline;
  }

  /** The loop that measures a name. */
  method MeasureName(memory: array<bv8>, start: nat) returns (len: int)
    requires Name(memory[..], start).Some?
    ensures len == Measure(Name(memory[..], start).value)
  {
    hide *;
    ghost var buf := memory[..];
    NameLeft(buf, start);
    len := 0;
    var p: nat := start;
    ghost var steps: nat, labels: seq<Bytes>, inline: nat := |buf|, Name(buf, start).value, Inline(buf, start, |buf|);
    LeftStep(buf, p, steps, labels, inline);
    while memory[p] != 0
      invariant p < memory.Length && Left(buf, p, steps, labels, inline)
      invariant len + Measure(labels) == Measure(Name(buf, start).value)
      decreases steps
    {
      LeftStep(buf, p, steps, labels, inline);
      if IsPointer(memory[p]) {
        p := Target(memory[p], memory[p + 1]);
        inline := Inline(buf, p, steps - 1);
      } else {
        MeasureAppend([labels[0]], labels[1..]);
        MeasureOne(labels[0]);
        assert [labels[0]] + labels[1..] == labels;
        len := len + Size(memory[p]);
        inline := inline - (1 + Size(memory[p]));
        p := p + 1 + Size(memory[p]);
        labels := labels[1..];
      }
      steps := steps - 1;
      LeftStep(buf, p, steps, labels, inline);
    }
    LeftStep(buf, p, steps, labels, inline);
    NothingJoined();
  }

  lemma {:induction false} MeasureOne(w: Bytes)
    ensures Measure([w]) == |w|
  {
    assert [w][1..] == [];
  }

  method CopyLabel(memory: array<bv8>, from: nat, partlen: nat, namebuf: array<bv8>, to: nat) returns (p: nat, p2: nat)
    requires from + partlen <= memory.Length && to + partlen <= namebuf.Length && memory != namebuf
    modifies namebuf
    ensures p == from + partlen && p2 == to + partlen
    ensures namebuf[..] == Stored(old(namebuf[..]), to, memory[from..from + partlen])
  {
    hide *;
    ghost var start := namebuf[..];
    p, p2 := from, to;
    StoredNothing(start, to);
    assert memory[from..from] == [];
    var i := 0;
    while i < partlen
      invariant i <= partlen && p == from + i && p2 == to + i
      invariant namebuf[..] == Stored(start, to, memory[from..from + i])
    {
      StoreOne(start, to, memory[from..from + i], memory[p]);
      assert memory[from..from + i] + [memory[p]] == memory[from..from + i + 1];
      namebuf[p2] := memory[p];
      p, p2 := p + 1, p2 + 1;
      i := i + 1;
    }
  }

  lemma {:induction false} CopiedSmall(done: seq<Bytes>, labels: seq<Bytes>)
    requires done != [] ==> done[0] != []
    requires forall i :: 0 <= i < |labels| ==> labels[i] != []
    ensures |Copied(done)| <= |Copied(done + labels)|
    decreases labels
  {
    hide Copied, Joined, RunTogether, Begun;
    if labels == [] {
      assert done + labels == done;
    } else {
      CopiedSnoc(done, labels[0]);
      assert done + labels == (done + [labels[0]]) + labels[1..];
      CopiedSmall(done + [labels[0]], labels[1..]);
    }
  }

  lemma {:induction false} LabelsNotEmpty(buf: Bytes, at: nat, steps: nat)
    requires Ends(buf, at, steps)
    ensures forall i :: 0 <= i < |Labels(buf, at, steps).value| ==> Labels(buf, at, steps).value[i] != []
    decreases steps
  {
    hide IsPointer, Target;
    if buf[at] != 0 {
      LabelsNotEmpty(buf, Next(buf, at).value, steps - 1);
    }
  }

  lemma {:induction false} NameNotEmpty(buf: Bytes, at: nat)
    requires Name(buf, at).Some?
    ensures forall i :: 0 <= i < |Name(buf, at).value| ==> Name(buf, at).value[i] != []
  {
    hide Labels;
    LabelsNotEmpty(buf, at, |buf|);
  }

  lemma {:induction false} Taken(done: seq<Bytes>, labels: seq<Bytes>)
    requires labels != [] && (done != [] ==> done[0] != [])
    requires forall i :: 0 <= i < |labels| ==> labels[i] != []
    ensures done + labels == (done + [labels[0]]) + labels[1..] && (done + [labels[0]])[0] != []
    ensures |Copied(done + [labels[0]])| <= |Copied(done + labels)|
    ensures forall i :: 0 <= i < |labels[1..]| ==> labels[1..][i] != []
  {
    hide Copied;
    assert done + labels == (done + [labels[0]]) + labels[1..];
    CopiedSmall(done + [labels[0]], labels[1..]);
  }

  /** The first cell tells whether the copy has begun. */
  lemma {:induction false} FirstCell(cleared: Bytes, done: seq<Bytes>)
    requires |Copied(done)| <= |cleared| && cleared != [] && cleared[0] == 0
    ensures Stored(cleared, 0, Copied(done))[0] != 0 <==> Begun(done)
  {
    hide Joined, RunTogether;
    NothingJoined();
  }

  /** One label is copied out, with a dot before it or not. */
  method AddLabel(memory: array<bv8>, from: nat, partlen: nat, namebuf: array<bv8>, to: nat, ghost cleared: Bytes,
                  ghost done: seq<Bytes>) returns (p: nat, p2: nat)
    requires from + partlen <= memory.Length && partlen > 0 && memory != namebuf
    requires to == |Copied(done)| && (done != [] ==> done[0] != [])
    requires |Copied(done + [memory[from..from + partlen]])| < namebuf.Length == |cleared| && cleared[0] == 0
    requires to <= |cleared| && namebuf[..] == Stored(cleared, 0, Copied(done))
    modifies namebuf
    ensures p == from + partlen && p2 == |Copied(done + [memory[from..from + partlen]])|
    ensures namebuf[..] == Stored(cleared, 0, Copied(done + [memory[from..from + partlen]]))
  {
    hide *;
    ghost var w, text := memory[from..from + partlen], Copied(done);
    CopiedSnoc(done, w);
    FirstCell(cleared, done);
    assert namebuf[0] == namebuf[..][0];
    p2 := to;
    if namebuf[0] != 0 {
      StoreOne(cleared, 0, text, DOT);
      namebuf[p2] := DOT;
      p2 := p2 + 1;
      text := text + [DOT];
    }
    p, p2 := CopyLabel(memory, from, partlen, namebuf, p2);
    StoreMore(cleared, 0, text, w);
  }

  /** The loop that copies a name out, and moves the offset past its part in line. */
  method CopyName(memory: array<bv8>, offset: nat, namebuf: array<bv8>, ghost cleared: Bytes)
    returns (p2: nat, after: nat)
    requires Name(memory[..], offset).Some? && memory != namebuf
    requires |Copied(Name(memory[..], offset).value)| < namebuf.Length == |cleared| && cleared[0] == 0
    requires namebuf[..] == cleared
    modifies namebuf
    ensures p2 == |Copied(Name(memory[..], offset).value)|
    ensures namebuf[..] == Stored(cleared, 0, Copied(Name(memory[..], offset).value))
    ensures after == offset + Inline(memory[..], offset, memory.Length)
  {
    hide *;
    ghost var buf := memory[..];
    NameLeft(buf, offset);
    NameNotEmpty(buf, offset);
    ghost var all, total := Name(buf, offset).value, Inline(buf, offset, |buf|);
    ghost var steps: nat, labels: seq<Bytes>, done: seq<Bytes>, inline: nat := |buf|, all, [], total;
    var p: nat, current := offset, true;
    p2, after := 0, offset;
    NothingJoined();
    StoredNothing(cleared, 0);
    assert [] + labels == all;
    LeftStep(buf, p, steps, labels, inline);
    while memory[p] != 0
      invariant p < memory.Length && Left(buf, p, steps, labels, inline)
      invariant done + labels == all && (done != [] ==> done[0] != [])
      invariant forall i :: 0 <= i < |labels| ==> labels[i] != []
      invariant p2 == |Copied(done)| <= |Copied(all)| && namebuf[..] == Stored(cleared, 0, Copied(done))
      invariant if current then after == offset <= p && p - offset + inline == total else after == offset + total
      decreases steps
    {
      LeftStep(buf, p, steps, labels, inline);
      if IsPointer(memory[p]) {
        var newoffset := Target(memory[p], memory[p + 1]);
        if current {
          after := after + (p + 2 - offset);
          current := false;
        }
        p := newoffset;
        inline := Inline(buf, p, steps - 1);
      } else {
        Taken(done, labels);
        var partlen := Size(memory[p]);
        assert memory[p + 1..p + 1 + partlen] == labels[0];
        p, p2 := AddLabel(memory, p + 1, partlen, namebuf, p2, cleared, done);
        done, labels, inline := done + [labels[0]], labels[1..], inline - (1 + partlen);
      }
      steps := steps - 1;
      LeftStep(buf, p, steps, labels, inline);
    }
    LeftStep(buf, p, steps, labels, inline);
    assert done + [] == done;
    if current {
      after := after + (p + 1 - offset);
    }
  }

  lemma {:induction false} ClearedToo(was: Bytes, text: Bytes)
    requires |text| < |was|
    ensures Stored(Stored(was, 0, [0]), 0, text + [0]) == Stored(was, 0, text + [0])
  {
  }

  /** `netbuf_get_domain_name`: the name has `namebuflen` cells of the memory it is copied
      to. The test of the room is made without the dots and the final zero, so the copy may
      go on behind them: see CopyStaysInsideIff. */
  method GetDomainName(memory: array<bv8>, offset: nat, namebuf: array<bv8>, namebuflen: int)
    returns (ret: int, after: nat)
    requires Name(memory[..], offset).Some? && memory != namebuf && namebuf.Length > 0
    requires var labels := Name(memory[..], offset).value;
      Measure(labels) <= namebuflen ==> |Copied(labels)| < namebuf.Length
    modifies namebuf
    ensures var labels := Name(memory[..], offset).value;
      if namebuflen < Measure(labels) then
        ret == Measure(labels) && after == offset && namebuf[..] == Stored(old(namebuf[..]), 0, [0])
      else
        && ret == 0 && after == offset + Inline(memory[..], offset, memory.Length)
        && namebuf[..] == Stored(old(namebuf[..]), 0, Copied(labels) + [0])
  {
    hide *;
    ghost var buf, was := memory[..], namebuf[..];
    ghost var all := Name(buf, offset).value;
    StoredNothing(was, 0);
    StoreOne(was, 0, [], 0);
    namebuf[0] := 0;
    assert [] + [0 as bv8] == [0];
    var len := MeasureName(memory, offset);
    after := offset;
    if namebuflen < len {
      return len, after;
    }
    var p2 := 0;
    p2, after := CopyName(memory, offset, namebuf, namebuf[..]);
    StoreOne(Stored(was, 0, [0]), 0, Copied(all), 0);
    ClearedToo(was, Copied(all));
    namebuf[p2] := 0;
    ret := 0;
  }

  // ------------------------------------------------- the room, and the test for it

  /** The dots that are copied with the labels. */
  function Dots(labels: seq<Bytes>): nat {
    if labels == [] || (labels[0] != [] && labels[0][0] == 0) then 0 else |labels| - 1
  }

  lemma {:induction false} JoinedLength(labels: seq<Bytes>)
    requires labels != []
    ensures |Joined(labels)| == Measure(labels) + (|labels| - 1)
    decreases labels
  {
    if |labels| > 1 {
      JoinedLength(labels[1..]);
    }
  }

  lemma {:induction false} TogetherLength(labels: seq<Bytes>)
    ensures |RunTogether(labels)| == Measure(labels)
    decreases labels
  {
    if labels != [] {
      TogetherLength(labels[1..]);
    }
  }

  lemma {:induction false} CopiedLength(labels: seq<Bytes>)
    ensures |Copied(labels)| == Measure(labels) + Dots(labels)
  {
    TogetherLength(labels);
    if labels != [] {
      JoinedLength(labels);
    }
  }

  /** Nothing behind the first n cells is changed, whatever they and the others hold. */
  ghost predicate LeavesRest(text: Bytes, n: nat) {
    forall was: Bytes :: |text| <= |was| && n <= |was| ==> Stored(was, 0, text)[n..] == was[n..]
  }

  lemma {:induction false} LeavesRestIff(text: Bytes, n: nat)
    ensures LeavesRest(text + [0], n) <==> |text| < n
  {
    var all := text + [0];
    if |text| < n {
      forall was: Bytes | |all| <= |was| && n <= |was| ensures Stored(was, 0, all)[n..] == was[n..] {
        assert Stored(was, 0, all)[n..] == was[n..];
      }
    } else {
      var was := Repeated(1, |all|);
      assert Stored(was, 0, all)[n..][|text| - n] == 0 && was[n..][|text| - n] == 1;
    }
  }

  /** The test of the code adds up the labels only. When it lets a copy into n cells happen,
      the copy stays inside them if and only if the dots and the final zero fit as well. */
  lemma {:induction false} CopyStaysInsideIff(labels: seq<Bytes>, n: nat)
    requires Measure(labels) <= n
    ensures LeavesRest(Copied(labels) + [0], n) <==> Measure(labels) + Dots(labels) < n
  {
    hide *;
    CopiedLength(labels);
    LeavesRestIff(Copied(labels), n);
  }

  function Repeated(b: bv8, n: nat): (r: Bytes)
    ensures |r| == n && forall i :: 0 <= i < n ==> r[i] == b
  {
    if n == 0 then [] else [b] + Repeated(b, n - 1)
  }

  function Word32(): (w: Bytes)
    ensures |w| == 32 && w[0] == 97
  {
    Repeated(97, 32)
  }

  /** k words of 32 bytes, and how they are printed. */
  function Long(k: nat): seq<Bytes> {
    if k == 0 then [] else [Word32()] + Long(k - 1)
  }

  function LongText(k: nat): Bytes {
    if k == 0 then [0] else PrintedWord(Word32()) + LongText(k - 1)
  }

  lemma {:induction false} LongIsRead(buf: Bytes, at: nat, k: nat)
    requires Holds(buf, at, LongText(k))
    ensures Labels(buf, at, k) == Some(Long(k))
    decreases k
  {
    if k == 0 {
      AtEnd(buf, at, 0);
    } else {
      hide *;
      var next := at + |PrintedWord(Word32())|;
      LongMore(k);
      HoldsParts(buf, at, PrintedWord(Word32()), LongText(k - 1));
      LongIsRead(buf, next, k - 1);
      EndsIs(buf, next, k - 1);
      LabelsAtWord(buf, at, Word32(), k);
    }
  }

  lemma {:induction false} LongMore(k: nat)
    requires k > 0
    ensures LongText(k) == PrintedWord(Word32()) + LongText(k - 1) && Long(k) == [Word32()] + Long(k - 1)
    ensures Short(Word32())
  {
    hide PrintedWord;
  }

  lemma {:induction false} LongMeasure(k: nat)
    ensures Measure(Long(k)) == 32 * k && |Long(k)| == k
    ensures k > 0 ==> Dots(Long(k)) == k - 1
    decreases k
  {
    if k > 0 {
      assert Long(k)[1..] == Long(k - 1) && Long(k)[0][0] == 97;
      LongMeasure(k - 1);
    }
  }

  /** A question whose name has 32 words of 32 bytes: the test against the 1024 cells of
      the name lets the copy happen, and it takes 1056. */
  lemma {:induction false} TestIsTooWeak()
    ensures var buf := LongText(32);
      && Name(buf, 0) == Some(Long(32)) && Measure(Long(32)) <= 1024
      && |Copied(Long(32)) + [0]| == 1056 && !LeavesRest(Copied(Long(32)) + [0], 1024)
  {
    var buf := LongText(32);
    assert buf[0..|buf|] == buf;
    assert Holds(buf, 0, buf) by { hide LongText; }
    hide *;
    LongIsRead(buf, 0, 32);
    EndsIs(buf, 0, 32);
    EndsSoon(buf, 0, 32);
    LongMeasure(32);
    CopiedLength(Long(32));
    CopyStaysInsideIff(Long(32), 1024);
  }

  // ------------------------------------------------------------------- numbers

  function Half(num: bv16, high: bool): bv8 {
    if high then ((num >> 8) & 0xFF) as bv8 else (num & 0xFF) as bv8
  }

  function NumText(num: bv16): Bytes {
    [Half(num, true), Half(num, false)]
  }

  function NumRead(high: bv8, low: bv8): bv16 {
    ((high as bv16) << 8) | (low as bv16)
  }

  lemma {:induction false} NumReadsBack(num: bv16)
    ensures NumRead(Half(num, true), Half(num, false)) == num
  {
  }

  lemma {:induction false} NumPrintsBack(high: bv8, low: bv8)
    ensures NumText(NumRead(high, low)) == [high, low]
  {
    HalvesOfRead(high, low);
  }

  lemma {:induction false} HalvesOfRead(high: bv8, low: bv8)
    ensures Half(NumRead(high, low), true) == high && Half(NumRead(high, low), false) == low
  {
  }

  /** The high byte first. */
  lemma {:induction false} NumIsTwoBytes(num: bv16)
    ensures |NumText(num)| == 2 && num == 0x100 * (NumText(num)[0] as bv16) + (NumText(num)[1] as bv16)
  {
  }

  /** `netbuf_add_16bitnum`. */
  method AddNum(memory: array<bv8>, offset: nat, num: bv16) returns (after: nat)
    requires offset + 2 <= memory.Length
    modifies memory
    ensures after == offset + 2 && memory[..] == Stored(old(memory[..]), offset, NumText(num))
  {
    hide Half;
    memory[offset] := Half(num, true);
    memory[offset + 1] := Half(num, false);
    after := offset + 2;
  }

  /** `netbuf_get_16bitnum`. */
  method GetNum(memory: array<bv8>, offset: nat) returns (num: bv16, after: nat)
    requires offset + 2 <= memory.Length
    ensures after == offset + 2 && NumText(num) == memory[offset..offset + 2]
  {
    num := NumRead(memory[offset], memory[offset + 1]);
    after := offset + 2;
    NumPrintsBack(memory[offset], memory[offset + 1]);
  }

  // -------------------------------------------------------------------- header

  datatype Header = Header(id: bv16, qr: bv8, opcode: bv8, aa: bv8, tc: bv8, rd: bv8, ra: bv8, z: bv8, rcode: bv8,
                           qdcount: bv16, ancount: bv16, nscount: bv16, arcount: bv16)

  function FirstFlags(h: Header): bv8 {
    ((h.qr & 0x01) << 7) | ((h.opcode & 0x0F) << 3) | ((h.aa & 0x01) << 2) | ((h.tc & 0x01) << 1) | (h.rd & 0x01)
  }

  function LastFlags(h: Header): bv8 {
    ((h.ra & 0x01) << 7) | ((h.z & 0x07) << 4) | (h.rcode & 0x0F)
  }

  function HeaderText(h: Header): Bytes {
    NumText(h.id) + [FirstFlags(h)] + [LastFlags(h)] + NumText(h.qdcount) + NumText(h.ancount)
    + NumText(h.nscount) + NumText(h.arcount)
  }

  /** Each field fits the bits that section 4.1.1 of RFC 1035 has for it. */
  predicate InRange(h: Header) {
    && h.qr <= 1 && h.opcode <= 15 && h.aa <= 1 && h.tc <= 1 && h.rd <= 1
    && h.ra <= 1 && h.z <= 7 && h.rcode <= 15
  }

  function WithFlags(h: Header, a: bv8, b: bv8): Header {
    h.(qr := (a >> 7) & 0x01, opcode := (a >> 3) & 0x0F, aa := (a >> 2) & 0x01, tc := (a >> 1) & 0x01,
      rd := a & 0x01, ra := (b >> 7) & 0x01, z := (b >> 4) & 0x07, rcode := b & 0x0F)
  }

  lemma {:induction false} FlagsReadBack(h: Header)
    ensures InRange(WithFlags(h, FirstFlags(h), LastFlags(h)))
    ensures WithFlags(h, FirstFlags(h), LastFlags(h)) == h <==> InRange(h)
  {
  }

  lemma {:induction false} FlagsPrintBack(h: Header, a: bv8, b: bv8)
    ensures FirstFlags(WithFlags(h, a, b)) == a && LastFlags(WithFlags(h, a, b)) == b
  {
  }

  /** Where section 4.1.1 of RFC 1035 puts the fields: QR is the highest bit, then come OPCODE,
      AA, TC and RD, and in the other byte RA, Z and RCODE. */
  lemma {:induction false} FlagsAreWeighed(h: Header)
    requires InRange(h)
    ensures FirstFlags(h) == 128 * h.qr + 8 * h.opcode + 4 * h.aa + 2 * h.tc + h.rd
    ensures LastFlags(h) == 128 * h.ra + 16 * h.z + h.rcode
  {
  }

  lemma {:induction false} NumTextInjective(a: bv16, b: bv16)
    requires NumText(a) == NumText(b)
    ensures a == b
  {
    hide Half;
    NumReadsBack(a);
    NumReadsBack(b);
    assert NumText(a)[0] == NumText(b)[0] && NumText(a)[1] == NumText(b)[1];
  }

  lemma {:induction false} HeaderParts(h: Header)
    ensures HeaderText(h) == NumText(h.id) + [FirstFlags(h)] + [LastFlags(h)] + NumText(h.qdcount)
      + NumText(h.ancount) + NumText(h.nscount) + NumText(h.arcount)
    ensures forall n: bv16 :: |NumText(n)| == 2
  {
    hide Half, FirstFlags, LastFlags;
  }

  lemma {:induction false} SameEnds(a: Bytes, b: Bytes, c: Bytes, d: Bytes)
    requires a + b == c + d && |b| == |d|
    ensures a == c && b == d
  {
    assert a == (a + b)[..|a|] && c == (c + d)[..|c|] && b == (a + b)[|a|..] && d == (c + d)[|c|..];
  }

  /** A header is read back as it was printed if and only if its fields are in range: of
      the headers in range, no other one has the same text. */
  lemma {:induction false} HeaderReadsBackIff(h: Header, g: Header)
    requires HeaderText(g) == HeaderText(h) && InRange(g)
    ensures g == h <==> InRange(h)
  {
    SameParts(h, g);
    hide *;
    FlagsReadBack(h);
    FlagsReadBack(g);
    SameFlags(g, h, FirstFlags(h), LastFlags(h));
  }

  lemma {:induction false} SameParts(h: Header, g: Header)
    requires HeaderText(g) == HeaderText(h)
    ensures g.id == h.id && FirstFlags(g) == FirstFlags(h) && LastFlags(g) == LastFlags(h)
    ensures g.qdcount == h.qdcount && g.ancount == h.ancount && g.nscount == h.nscount && g.arcount == h.arcount
  {
    hide *;
    HeaderParts(h);
    HeaderParts(g);
    var h0, g0 := NumText(h.id), NumText(g.id);
    var h1, g1 := h0 + [FirstFlags(h)], g0 + [FirstFlags(g)];
    var h2, g2 := h1 + [LastFlags(h)], g1 + [LastFlags(g)];
    var h3, g3 := h2 + NumText(h.qdcount), g2 + NumText(g.qdcount);
    var h4, g4 := h3 + NumText(h.ancount), g3 + NumText(g.ancount);
    var h5, g5 := h4 + NumText(h.nscount), g4 + NumText(g.nscount);
    SameEnds(h5, NumText(h.arcount), g5, NumText(g.arcount));
    SameEnds(h4, NumText(h.nscount), g4, NumText(g.nscount));
    SameEnds(h3, NumText(h.ancount), g3, NumText(g.ancount));
    SameEnds(h2, NumText(h.qdcount), g2, NumText(g.qdcount));
    SameEnds(h1, [LastFlags(h)], g1, [LastFlags(g)]);
    SameEnds(h0, [FirstFlags(h)], g0, [FirstFlags(g)]);
    SameNums(h, g);
  }

  lemma {:induction false} SameNums(h: Header, g: Header)
    requires NumText(g.id) == NumText(h.id) && NumText(g.qdcount) == NumText(h.qdcount)
    requires NumText(g.ancount) == NumText(h.ancount) && NumText(g.nscount) == NumText(h.nscount)
    requires NumText(g.arcount) == NumText(h.arcount)
    ensures g.id == h.id
    ensures g.qdcount == h.qdcount && g.ancount == h.ancount && g.nscount == h.nscount && g.arcount == h.arcount
  {
    hide *;
    NumTextInjective(g.id, h.id);
    NumTextInjective(g.qdcount, h.qdcount);
    NumTextInjective(g.ancount, h.ancount);
    NumTextInjective(g.nscount, h.nscount);
    NumTextInjective(g.arcount, h.arcount);
  }

  lemma {:induction false} SameFlags(g: Header, h: Header, a: bv8, b: bv8)
    requires g.id == h.id && g.qdcount == h.qdcount && g.ancount == h.ancount
    requires g.nscount == h.nscount && g.arcount == h.arcount
    ensures WithFlags(g, a, b) == WithFlags(h, a, b)
  {
  }

  /** `netbuf_add_dnsquery_header`. */
  method AddHeader(memory: array<bv8>, offset: nat, header: Header) returns (after: nat)
    requires offset + 12 <= memory.Length
    modifies memory
    ensures after == offset + 12 && memory[..] == Stored(old(memory[..]), offset, HeaderText(header))
  {
    hide *;
    ghost var start, text := memory[..], NumText(header.id);
    HeaderParts(header);
    var p := AddNum(memory, offset, header.id);
    StoreOne(start, offset, text, FirstFlags(header));
    memory[p] := FirstFlags(header);
    text := text + [FirstFlags(header)];
    StoreOne(start, offset, text, LastFlags(header));
    memory[p + 1] := LastFlags(header);
    text := text + [LastFlags(header)];
    p := p + 2;
    StoreMore(start, offset, text, NumText(header.qdcount));
    p := AddNum(memory, p, header.qdcount);
    text := text + NumText(header.qdcount);
    StoreMore(start, offset, text, NumText(header.ancount));
    p := AddNum(memory, p, header.ancount);
    text := text + NumText(header.ancount);
    StoreMore(start, offset, text, NumText(header.nscount));
    p := AddNum(memory, p, header.nscount);
    text := text + NumText(header.nscount);
    StoreMore(start, offset, text, NumText(header.arcount));
    after := AddNum(memory, p, header.arcount);
  }

  lemma {:induction false} Onward(buf: Bytes, from: nat, p: nat, to: nat)
    requires from <= p <= to <= |buf|
    ensures buf[from..p] + buf[p..to] == buf[from..to]
    ensures to == p + 1 ==> buf[p..to] == [buf[p]]
  {
  }

  /** `netbuf_get_dnsquery_header`: the header in range whose text is there. */
  method GetHeader(memory: array<bv8>, offset: nat) returns (header: Header, after: nat)
    requires offset + 12 <= memory.Length
    ensures after == offset + 12 && InRange(header) && HeaderText(header) == memory[offset..offset + 12]
  {
    hide *;
    var id, qdcount, ancount, nscount, arcount, p;
    id, p := GetNum(memory, offset);
    var first, last := memory[p], memory[p + 1];
    p := p + 2;
    qdcount, p := GetNum(memory, p);
    ancount, p := GetNum(memory, p);
    nscount, p := GetNum(memory, p);
    arcount, p := GetNum(memory, p);
    after := p;
    var h := Header(id, 0, 0, 0, 0, 0, 0, 0, 0, qdcount, ancount, nscount, arcount);
    header := WithFlags(h, first, last);
    FlagsPrintBack(h, first, last);
    CountsKept(h, first, last);
    RangeOfFlags(h, first, last);
    HeaderParts(header);
    TwelveBytes(memory[..], offset);
  }

  lemma {:induction false} TwelveBytes(buf: Bytes, o: nat)
    requires o + 12 <= |buf|
    ensures buf[o..o + 2] + [buf[o + 2]] + [buf[o + 3]] + buf[o + 4..o + 6] + buf[o + 6..o + 8] + buf[o + 8..o + 10]
      + buf[o + 10..o + 12] == buf[o..o + 12]
  {
    Onward(buf, o, o + 2, o + 3);
    Onward(buf, o, o + 3, o + 4);
    Onward(buf, o, o + 4, o + 6);
    Onward(buf, o, o + 6, o + 8);
    Onward(buf, o, o + 8, o + 10);
    Onward(buf, o, o + 10, o + 12);
  }

  lemma {:induction false} CountsKept(h: Header, a: bv8, b: bv8)
    ensures var g := WithFlags(h, a, b);
      && g.id == h.id && g.qdcount == h.qdcount && g.ancount == h.ancount
      && g.nscount == h.nscount && g.arcount == h.arcount
  {
  }

  lemma {:induction false} RangeOfFlags(h: Header, a: bv8, b: bv8)
    ensures InRange(WithFlags(h, a, b))
  {
  }

  // ------------------------------------------------------------------ question

  function QuestionText(name: Bytes, qtype: bv16, qclass: bv16): Bytes {
    Printed(name) + NumText(qtype) + NumText(qclass)
  }

  /** `netbuf_add_dnsquery_question`. */
  method AddQuestion(memory: array<bv8>, offset: nat, name: Bytes, qtype: bv16, qclass: bv16) returns (after: nat)
    requires offset + |QuestionText(name, qtype, qclass)| <= memory.Length
    modifies memory
    ensures after == offset + |QuestionText(name, qtype, qclass)|
    ensures memory[..] == Stored(old(memory[..]), offset, QuestionText(name, qtype, qclass))
  {
    hide *;
    ghost var start := memory[..];
    QuestionLength(name, qtype, qclass);
    var p := AddDomainName(memory, offset, name);
    p := AddNum(memory, p, qtype);
    StoreMore(start, offset, Printed(name), NumText(qtype));
    after := AddNum(memory, p, qclass);
    StoreMore(start, offset, Printed(name) + NumText(qtype), NumText(qclass));
  }

  lemma {:induction false} QuestionLength(name: Bytes, qtype: bv16, qclass: bv16)
    ensures QuestionText(name, qtype, qclass) == Printed(name) + NumText(qtype) + NumText(qclass)
    ensures |NumText(qtype)| == 2 && |NumText(qclass)| == 2
  {
    hide Half;
  }

  /** Where `netbuf_get_domain_name` leaves the offset. */
  function PastName(buf: Bytes, at: nat, namebuflen: int): nat
    requires Name(buf, at).Some?
  {
    if namebuflen < Measure(Name(buf, at).value) then at else at + Inline(buf, at, |buf|)
  }

  /** `netbuf_get_dnsquery_question`; a name that is too long is not moved past. The name has
      1024 cells of the memory it is copied to; see CopyStaysInsideIff for when it needs more. */
  method GetQuestion(memory: array<bv8>, offset: nat, qname: array<bv8>) returns (qtype: bv16, qclass: bv16, after: nat)
    requires Name(memory[..], offset).Some? && memory != qname && 1024 <= qname.Length
    requires var labels := Name(memory[..], offset).value; Measure(labels) <= 1024 ==> |Copied(labels)| < qname.Length
    requires PastName(memory[..], offset, 1024) + 4 <= memory.Length
    modifies qname
    ensures var labels, p := Name(memory[..], offset).value, PastName(memory[..], offset, 1024);
      && qname[..] == Stored(old(qname[..]), 0, (if 1024 < Measure(labels) then [] else Copied(labels)) + [0])
      && after == p + 4 && NumText(qtype) == memory[p..p + 2] && NumText(qclass) == memory[p + 2..p + 4]
  {
    hide Labels, Copied, Measure, Inline, NumText, Name, Stored;
    var _, p := GetDomainName(memory, offset, qname, 1024);
    assert [] + [0 as bv8] == [0];
    qtype, p := GetNum(memory, p);
    qclass, after := GetNum(memory, p);
  }

  /** What reading a printed question comes to: the name, the type and the class again, if
      the name is plain. */
  lemma {:induction false} QuestionReadsBack(buf: Bytes, at: nat, name: Bytes, qtype: bv16, qclass: bv16, t: bv16, c: bv16)
    requires Holds(buf, at, QuestionText(name, qtype, qclass)) && Plain(name) && 0 !in name && |name| < 1024
    requires Name(buf, at).Some? ==> var p := PastName(buf, at, 1024);
      p + 4 <= |buf| && NumText(t) == buf[p..p + 2] && NumText(c) == buf[p + 2..p + 4]
    ensures Name(buf, at).Some? && Copied(Name(buf, at).value) == name && t == qtype && c == qclass
    ensures PastName(buf, at, 1024) + 4 == at + |QuestionText(name, qtype, qclass)|
  {
    var p := at + |Printed(name)|;
    hide *;
    QuestionLength(name, qtype, qclass);
    HoldsParts(buf, at, Printed(name) + NumText(qtype), NumText(qclass));
    HoldsParts(buf, at, Printed(name), NumText(qtype));
    PrintedIsReadIff(buf, at, name);
    PastPlain(buf, at, name);
    HoldsHere(buf, p, NumText(qtype));
    HoldsHere(buf, p + 2, NumText(qclass));
    NumTextInjective(t, qtype);
    NumTextInjective(c, qclass);
  }

  lemma {:induction false} PastPlain(buf: Bytes, at: nat, name: Bytes)
    requires Name(buf, at) == Some(Words(name)) && Plain(name) && |name| < 1024
    requires Inline(buf, at, |buf|) == |Printed(name)|
    ensures PastName(buf, at, 1024) == at + |Printed(name)|
  {
    hide Words, Plain, Printed;
    WordsMeasure(name);
  }

  lemma {:induction false} WordsMeasure(name: Bytes)
    ensures Measure(Words(name)) <= |name|
    decreases |name|
  {
    hide WordEnd;
    if name != [] {
      WordsMeasure(AfterWord(name));
      assert Words(name)[1..] == Words(AfterWord(name));
    }
  }

  lemma {:induction false} HoldsHere(buf: Bytes, at: nat, text: Bytes)
    requires Holds(buf, at, text)
    ensures at + |text| <= |buf| && buf[at..at + |text|] == text
  {
  }
}
