/** Domain names as src/sock.c prints them into a DNS message, and as section 4.1.4 of
    RFC 1035 reads them there: labels, and pointers to the rest of a name. */
module DnsNames {
  import opened Common

  type Bytes = seq<bv8>

  const DOT: bv8 := 0x2E

  // ------------------------------------------------------------------ printing

  /** Length of the first word: what comes before a dot. */
  function WordEnd(name: Bytes): (n: nat)
    ensures n <= |name| && (n < |name| ==> name[n] == DOT)
    ensures forall i :: 0 <= i < n ==> name[i] != DOT
  {
    if name == [] || name[0] == DOT then 0 else 1 + WordEnd(name[1..])
  }

  function AfterWord(name: Bytes): (r: Bytes)
    ensures name != [] ==> |r| < |name|
  {
    var n := WordEnd(name);
    if n < |name| then name[n + 1..] else []
  }

  function Words(name: Bytes): seq<Bytes>
    decreases |name|
  {
    if name == [] then [] else [name[..WordEnd(name)]] + Words(AfterWord(name))
  }

  /** The length byte, which says at most 63 of whatever length. */
  function LengthByte(n: nat): bv8 {
    (if n > 0x3F then 0x3F else n) as bv8
  }

  function PrintedWord(w: Bytes): Bytes {
    [LengthByte(|w|)] + w
  }

  function PrintedWords(words: seq<Bytes>): Bytes {
    if words == [] then [] else PrintedWord(words[0]) + PrintedWords(words[1..])
  }

  function Printed(name: Bytes): Bytes {
    PrintedWords(Words(name)) + [0]
  }

  // ------------------------------------------------------------------- parsing

  predicate IsPointer(b: bv8) {
    (b & 0xC0) == 0xC0
  }

  /** The offset a pointer of two bytes holds. */
  function Target(b: bv8, c: bv8): nat {
    ((((b & 0x3F) as bv16) << 8) | (c as bv16)) as int
  }

  function Size(b: bv8): nat {
    b as int
  }

  /** Where the name goes on after the label or the pointer at a place; None if that is
      cut off by the end of the message. */
  function Next(buf: Bytes, at: nat): Option<nat>
    requires at < |buf|
  {
    if IsPointer(buf[at]) then if at + 1 < |buf| then Some(Target(buf[at], buf[at + 1])) else None
    else if at + 1 + Size(buf[at]) <= |buf| then Some(at + 1 + Size(buf[at]))
    else None
  }

  function Piece(buf: Bytes, at: nat): seq<Bytes>
    requires at < |buf| && Next(buf, at).Some?
  {
    if IsPointer(buf[at]) then [] else [buf[at + 1..at + 1 + Size(buf[at])]]
  }

  /** The labels of the name that starts at a place, if it ends within so many steps and
      inside the message. */
  function Labels(buf: Bytes, at: nat, steps: nat): Option<seq<Bytes>>
    decreases steps
  {
    if at >= |buf| then None
    else if buf[at] == 0 then Some([])
    else if steps == 0 || Next(buf, at).None? then None
    else
      var rest := Labels(buf, Next(buf, at).value, steps - 1);
      if rest.None? then None else Some(Piece(buf, at) + rest.value)
  }

  /** The labels of the name at a place; None if it has no end in the message. See
      NameEndsIff for why the length of the message is steps enough. */
  function Name(buf: Bytes, at: nat): Option<seq<Bytes>> {
    Labels(buf, at, |buf|)
  }

  /** How many bytes of the message the name takes where it starts: up to its final zero
      or to its first pointer. */
  function Inline(buf: Bytes, at: nat, steps: nat): (n: nat)
    requires Labels(buf, at, steps).Some?
    ensures n >= 1
    decreases steps
  {
    if buf[at] == 0 then 1
    else if IsPointer(buf[at]) then 2
    else 1 + Size(buf[at]) + Inline(buf, Next(buf, at).value, steps - 1)
  }

  function Joined(labels: seq<Bytes>): Bytes {
    if labels == [] then []
    else if |labels| == 1 then labels[0]
    else labels[0] + [DOT] + Joined(labels[1..])
  }

  function RunTogether(labels: seq<Bytes>): Bytes {
    if labels == [] then [] else labels[0] + RunTogether(labels[1..])
  }

  /** What is copied out: dots go in between only if the copy does not begin with a zero
      byte, which the code takes for an empty copy. */
  function Copied(labels: seq<Bytes>): Bytes {
    if labels != [] && labels[0] != [] && labels[0][0] == 0 then RunTogether(labels) else Joined(labels)
  }

  function Measure(labels: seq<Bytes>): nat {
    if labels == [] then 0 else |labels[0]| + Measure(labels[1..])
  }

  // ---------------------------------------------- a name ends soon, or it never ends

  ghost predicate Ends(buf: Bytes, at: nat, steps: nat) {
    Labels(buf, at, steps).Some?
  }

  function Steps(buf: Bytes, at: nat, fuel: nat): nat
    requires Ends(buf, at, fuel)
    decreases fuel
  {
    if buf[at] == 0 then 0 else 1 + Steps(buf, Next(buf, at).value, fuel - 1)
  }

  function Visited(buf: Bytes, at: nat, fuel: nat): set<nat>
    requires Ends(buf, at, fuel)
    decreases fuel
  {
    {at} + if buf[at] == 0 then {} else Visited(buf, Next(buf, at).value, fuel - 1)
  }

  lemma {:induction false} StepsSuffice(buf: Bytes, at: nat, fuel: nat, more: nat)
    requires Ends(buf, at, fuel) && Steps(buf, at, fuel) <= more
    ensures Labels(buf, at, more) == Labels(buf, at, fuel) && Steps(buf, at, more) == Steps(buf, at, fuel)
    ensures Inline(buf, at, more) == Inline(buf, at, fuel)
    decreases fuel
  {
    hide Next, Piece, IsPointer;
    if buf[at] != 0 {
      StepsSuffice(buf, Next(buf, at).value, fuel - 1, more - 1);
    }
  }

  /** From every place visited on the way the end is no further. */
  lemma {:induction false} VisitedEnd(buf: Bytes, at: nat, fuel: nat, p: nat)
    requires Ends(buf, at, fuel) && p in Visited(buf, at, fuel)
    ensures p < |buf| && Ends(buf, p, fuel) && Steps(buf, p, fuel) <= Steps(buf, at, fuel) <= fuel
    decreases fuel
  {
    hide Next, Piece, IsPointer;
    if buf[at] != 0 {
      var next := Next(buf, at).value;
      StepsBounded(buf, next, fuel - 1);
      if p != at {
        VisitedEnd(buf, next, fuel - 1, p);
        StepsSuffice(buf, p, fuel - 1, fuel);
      }
    }
  }

  lemma {:induction false} StepsBounded(buf: Bytes, at: nat, fuel: nat)
    requires Ends(buf, at, fuel)
    ensures Steps(buf, at, fuel) <= fuel
    decreases fuel
  {
    hide Next, Piece;
    if buf[at] != 0 {
      StepsBounded(buf, Next(buf, at).value, fuel - 1);
    }
  }

  /** No place is visited twice on the way to an end. */
  lemma {:induction false} VisitedOnce(buf: Bytes, at: nat, fuel: nat)
    requires Ends(buf, at, fuel)
    ensures |Visited(buf, at, fuel)| == Steps(buf, at, fuel) + 1
    decreases fuel
  {
    hide Next, Piece, IsPointer;
    if buf[at] != 0 {
      var next := Next(buf, at).value;
      VisitedOnce(buf, next, fuel - 1);
      if at in Visited(buf, next, fuel - 1) {
        VisitedEnd(buf, next, fuel - 1, at);
        StepsSuffice(buf, at, fuel - 1, fuel);
        assert false;
      }
    }
  }

  lemma {:induction false} FewBelow(s: set<nat>, m: nat)
    requires forall p :: p in s ==> p < m
    ensures |s| <= m
  {
    if m == 0 {
      assert s == {};
    } else {
      FewBelow(s - {m - 1}, m - 1);
      assert |s| <= |s - {m - 1}| + 1;
    }
  }

  lemma {:induction false} EndsSoon(buf: Bytes, at: nat, fuel: nat)
    requires Ends(buf, at, fuel)
    ensures Steps(buf, at, fuel) < |buf| && Name(buf, at) == Labels(buf, at, fuel)
    ensures Inline(buf, at, |buf|) == Inline(buf, at, fuel)
  {
    hide Labels, Visited, Inline, Steps;
    forall p | p in Visited(buf, at, fuel) ensures p < |buf| {
      VisitedEnd(buf, at, fuel, p);
    }
    FewBelow(Visited(buf, at, fuel), |buf|);
    VisitedOnce(buf, at, fuel);
    StepsSuffice(buf, at, fuel, |buf|);
  }

  /** Following a name either comes to its end within as many steps as the message has
      bytes, or goes on for ever or leaves the message. */
  lemma {:induction false} NameEndsIff(buf: Bytes, at: nat)
    ensures Name(buf, at).Some? <==> exists fuel: nat :: Ends(buf, at, fuel)
  {
    hide Labels;
    if fuel: nat :| Ends(buf, at, fuel) {
      EndsSoon(buf, at, fuel);
    } else {
      assert !Ends(buf, at, |buf|);
    }
  }

  /** Each pointer goes to a place before the run of labels it ends, as section 4.1.4 of
      RFC 1035 has it: to a prior occurrence. */
  predicate Backward(buf: Bytes, run: nat, at: nat)
    decreases run, |buf| - at
  {
    && at < |buf|
    && (buf[at] != 0 ==>
      && Next(buf, at).Some?
      && var next := Next(buf, at).value;
        if IsPointer(buf[at]) then next < run && Backward(buf, next, next) else Backward(buf, run, next))
  }

  /** Such a name has an end. */
  lemma {:induction false} BackwardEnds(buf: Bytes, run: nat, at: nat) returns (fuel: nat)
    requires Backward(buf, run, at)
    ensures Ends(buf, at, fuel)
    decreases run, |buf| - at
  {
    hide Piece;
    if buf[at] == 0 {
      fuel := 0;
    } else {
      var next := Next(buf, at).value;
      fuel := BackwardEnds(buf, if IsPointer(buf[at]) then next else run, next);
      fuel := fuel + 1;
    }
  }

  lemma {:induction false} BackwardIsParsed(buf: Bytes, at: nat)
    requires Backward(buf, at, at)
    ensures Name(buf, at).Some?
  {
    hide Labels, Backward;
    var fuel := BackwardEnds(buf, at, at);
    EndsSoon(buf, at, fuel);
  }

  // --------------------------------------------------- parsing what was printed

  /** A name as it should be: words of 1 to 63 bytes, with single dots between them. */
  predicate Plain(name: Bytes) {
    && (forall i :: 0 <= i < |Words(name)| ==> Short(Words(name)[i]))
    && (name != [] ==> name[|name| - 1] != DOT)
  }

  predicate Holds(buf: Bytes, at: nat, text: Bytes) {
    at + |text| <= |buf| && buf[at..at + |text|] == text
  }

  predicate Short(w: Bytes) {
    1 <= |w| <= 63
  }

  lemma {:induction false} PlainUnfolds(name: Bytes)
    requires name != []
    ensures Plain(name) <==>
      var n, rest := WordEnd(name), AfterWord(name);
      1 <= n <= 63 && (n < |name| ==> rest != [] && Plain(rest))
  {
    var n, rest := WordEnd(name), AfterWord(name);
    hide WordEnd;
    AllShort(name[..n], Words(rest));
    assert Words(name) == [name[..n]] + Words(rest) && |name[..n]| == n;
    if rest != [] {
      assert rest[|rest| - 1] == name[|name| - 1];
    } else if n < |name| {
      assert name[|name| - 1] == DOT;
    } else {
      assert name[n - 1] != DOT;
    }
  }

  lemma {:induction false} AllShort(w: Bytes, words: seq<Bytes>)
    ensures (forall i :: 0 <= i < |[w] + words| ==> Short(([w] + words)[i])) <==>
      Short(w) && forall i :: 0 <= i < |words| ==> Short(words[i])
  {
    hide Short;
    var all := [w] + words;
    assert forall i :: 0 <= i < |words| ==> words[i] == all[i + 1];
    assert all[0] == w;
  }

  lemma {:induction false} LengthByteReads(n: nat)
    ensures var b := LengthByte(n);
      !IsPointer(b) && Size(b) == (if n > 0x3F then 0x3F else n) && (b == 0 <==> n == 0)
  {
    SmallIsNoPointer(LengthByte(n));
  }

  lemma {:induction false} SmallIsNoPointer(b: bv8)
    requires b <= 0x3F
    ensures !IsPointer(b)
  {
  }

  lemma {:induction false} HoldsParts(buf: Bytes, at: nat, a: Bytes, b: Bytes)
    requires Holds(buf, at, a + b)
    ensures Holds(buf, at, a) && Holds(buf, at + |a|, b)
  {
    var all := buf[at..at + |a + b|];
    assert all[..|a|] == a && all[|a|..] == b;
    assert buf[at..at + |a|] == all[..|a|] && buf[at + |a|..at + |a| + |b|] == all[|a|..];
  }

  lemma {:induction false} PrintedUnfolds(name: Bytes)
    requires name != []
    ensures Printed(name) == PrintedWord(name[..WordEnd(name)]) + Printed(AfterWord(name))
  {
    hide WordEnd;
  }

  /** At a printed word of 1 to 63 bytes. */
  lemma {:induction false} AtWord(buf: Bytes, at: nat, w: Bytes)
    requires Holds(buf, at, PrintedWord(w)) && 1 <= |w| <= 63
    ensures at < |buf| && buf[at] != 0 && !IsPointer(buf[at]) && Size(buf[at]) == |w|
    ensures Next(buf, at) == Some(at + |PrintedWord(w)|) && Piece(buf, at) == [w]
  {
    hide IsPointer, LengthByte, Size;
    var text := PrintedWord(w);
    assert buf[at] == buf[at..at + |text|][0] && text[0] == LengthByte(|w|);
    LengthByteReads(|w|);
    assert buf[at + 1..at + 1 + |w|] == buf[at..at + |text|][1..];
  }

  lemma {:induction false} LabelsAtWord(buf: Bytes, at: nat, w: Bytes, steps: nat)
    requires Holds(buf, at, PrintedWord(w)) && Short(w)
    ensures var next := at + |PrintedWord(w)|;
      && (Ends(buf, at, steps) ==> steps > 0 && Ends(buf, next, steps - 1))
      && (steps > 0 && Ends(buf, next, steps - 1) ==>
        && Labels(buf, at, steps) == Some([w] + Labels(buf, next, steps - 1).value)
        && Inline(buf, at, steps) == |PrintedWord(w)| + Inline(buf, next, steps - 1))
  {
    AtWord(buf, at, w);
    hide IsPointer, Next, Piece, LengthByte, Size, Holds;
  }

  lemma {:induction false} AtEnd(buf: Bytes, at: nat, steps: nat)
    requires Holds(buf, at, Printed([]))
    ensures Labels(buf, at, steps) == Some([]) && Inline(buf, at, steps) == 1 && |Printed([])| == 1
  {
    assert buf[at] == buf[at..at + |Printed([])|][0];
  }

  /** A plain name is read back word by word, and the offset moves past it. */
  lemma {:induction false} PlainIsRead(buf: Bytes, at: nat, name: Bytes)
    requires Holds(buf, at, Printed(name)) && Plain(name)
    ensures Labels(buf, at, |Words(name)|) == Some(Words(name))
    ensures Inline(buf, at, |Words(name)|) == |Printed(name)|
    ensures Joined(Words(name)) == name
    decreases |name|
  {
    hide IsPointer, Next, Piece, Plain, WordEnd, Labels, Inline, Holds, Printed, Joined, PrintedWord, Size;
    PlainNothing();
    if name == [] {
      AtEnd(buf, at, 0);
      JoinedNothing();
    } else {
      var w, rest := name[..WordEnd(name)], AfterWord(name);
      PlainUnfolds(name);
      PrintedUnfolds(name);
      FirstWord(name);
      hide *;
      HoldsParts(buf, at, PrintedWord(w), Printed(rest));
      PlainIsRead(buf, at + |PrintedWord(w)|, rest);
      EndsIs(buf, at + |PrintedWord(w)|, |Words(rest)|);
      LabelsAtWord(buf, at, w, |Words(name)|);
      JoinedFirst(w, Words(rest));
    }
  }

  lemma {:induction false} EndsIs(buf: Bytes, at: nat, steps: nat)
    ensures Ends(buf, at, steps) <==> Labels(buf, at, steps).Some?
  {
    hide Labels;
  }

  /** The first word, what follows it, and how they make up the name. */
  lemma {:induction false} FirstWord(name: Bytes)
    requires name != [] && Plain(name)
    ensures var w, rest := name[..WordEnd(name)], AfterWord(name);
      && Short(w) && Words(name) == [w] + Words(rest) && Plain(rest) && |rest| < |name|
      && name == (if Words(rest) == [] then w else w + [DOT] + rest)
  {
    PlainUnfolds(name);
    PlainNothing();
    WordsFirst(name);
    NameParts(name);
    hide *;
  }

  lemma {:induction false} WordsFirst(name: Bytes)
    requires name != []
    ensures Words(name) == [name[..WordEnd(name)]] + Words(AfterWord(name))
    ensures Words(AfterWord(name)) == [] <==> AfterWord(name) == []
    ensures |AfterWord(name)| < |name| && |name[..WordEnd(name)]| == WordEnd(name)
    ensures Short(name[..WordEnd(name)]) <==> 1 <= WordEnd(name) <= 63
  {
    hide WordEnd, AfterWord;
  }

  lemma {:induction false} NameParts(name: Bytes)
    ensures var n := WordEnd(name);
      name == if n < |name| then name[..n] + [DOT] + AfterWord(name) else name[..n]
    ensures WordEnd(name) == |name| ==> AfterWord(name) == []
  {
    hide WordEnd;
  }

  lemma {:induction false} JoinedNothing()
    ensures Joined([]) == []
  {
  }

  lemma {:induction false} PlainNothing()
    ensures Plain([])
  {
  }

  lemma {:induction false} JoinedFirst(w: Bytes, labels: seq<Bytes>)
    ensures Joined([w] + labels) == if labels == [] then w else w + [DOT] + Joined(labels)
  {
    assert ([w] + labels)[1..] == labels;
  }

  /** Any other name is not: an empty word ends it early, and of a word that is too long
      63 bytes are read as a label and the next byte as what follows it. */
  lemma {:induction false} OtherIsNotRead(buf: Bytes, at: nat, name: Bytes, steps: nat)
    requires Holds(buf, at, Printed(name)) && !Plain(name) && Ends(buf, at, steps)
    ensures Joined(Labels(buf, at, steps).value) != name
    decreases |name|
  {
    hide IsPointer, Next, Piece, Plain, WordEnd, Labels, Inline, Holds, Printed, Joined, PrintedWord, Size, Words;
    PlainNothing();
    var n := WordEnd(name);
    var w, rest := name[..n], AfterWord(name);
    PlainUnfolds(name);
    PrintedUnfolds(name);
    HoldsParts(buf, at, PrintedWord(w), Printed(rest));
    if n == 0 {
      EmptyWord(buf, at, name, steps);
    } else if n > 63 {
      LongWord(buf, at, name, steps);
    } else {
      LabelsAtWord(buf, at, w, steps);
      var next := at + |PrintedWord(w)|;
      var labels := Labels(buf, next, steps - 1).value;
      JoinedFirst(w, labels);
      SameAfterDot(name, n, Joined(labels));
      if rest == [] {
        AtEnd(buf, next, steps - 1);
      } else {
        OtherIsNotRead(buf, next, rest, steps - 1);
      }
    }
  }

  lemma {:induction false} EmptyWord(buf: Bytes, at: nat, name: Bytes, steps: nat)
    requires name != [] && WordEnd(name) == 0
    requires Holds(buf, at, PrintedWord(name[..0])) && Ends(buf, at, steps)
    ensures Joined(Labels(buf, at, steps).value) != name
  {
    hide WordEnd, IsPointer, Next, Piece;
    assert buf[at] == buf[at..at + |PrintedWord(name[..0])|][0];
    LengthByteReads(0);
  }

  lemma {:induction false} LongWord(buf: Bytes, at: nat, name: Bytes, steps: nat)
    requires WordEnd(name) > 63
    requires Holds(buf, at, PrintedWord(name[..WordEnd(name)])) && Ends(buf, at, steps)
    ensures Joined(Labels(buf, at, steps).value) != name
  {
    hide IsPointer, LengthByte, Size, Joined;
    var n := WordEnd(name);
    hide WordEnd;
    var text := PrintedWord(name[..n]);
    assert buf[at] == buf[at..at + |text|][0] && text[0] == LengthByte(n);
    LengthByteReads(n);
    InText(buf, at, text, name[..n]);
    assert name[..n][..63] == name[..63];
    assert Piece(buf, at) == [name[..63]];
    var labels := Labels(buf, Next(buf, at).value, steps - 1).value;
    JoinedFirst(name[..63], labels);
    assert (name[..63] + [DOT] + Joined(labels))[63] == DOT;
  }

  /** The first 63 bytes of a word that is printed. */
  lemma {:induction false} InText(buf: Bytes, at: nat, text: Bytes, w: Bytes)
    requires at + |text| <= |buf| && buf[at..at + |text|] == text
    requires |w| > 63 && |text| == |w| + 1 && text[1..] == w
    ensures buf[at + 1..at + 64] == w[..63]
  {
    forall i | 0 <= i < 63 ensures buf[at + 1 + i] == w[i] {
      assert buf[at..at + |text|][1 + i] == text[1..][i];
    }
  }

  /** Printing and parsing undo each other exactly for plain names: whatever else is in the
      message, what is read where a name was printed is that name if and only if all its
      words have 1 to 63 bytes and it does not end in a dot. The offset then moves as far
      as it did for printing. */
  lemma {:induction false} PrintedIsReadIff(buf: Bytes, at: nat, name: Bytes)
    requires Holds(buf, at, Printed(name)) && 0 !in name
    ensures (Name(buf, at).Some? && Copied(Name(buf, at).value) == name) <==> Plain(name)
    ensures Plain(name) ==> Name(buf, at) == Some(Words(name)) && Inline(buf, at, |buf|) == |Printed(name)|
  {
    hide Labels, Inline, Plain, Printed, Holds;
    if Plain(name) {
      PlainIsRead(buf, at, name);
      EndsSoon(buf, at, |Words(name)|);
      CopiedWords(name);
    } else if Name(buf, at).Some? {
      OtherIsNotRead(buf, at, name, |buf|);
      var labels := Name(buf, at).value;
      if Copied(labels) == name {
        NoZeroFirst(labels, name);
      }
    }
  }

  lemma {:induction false} NoZeroFirst(labels: seq<Bytes>, name: Bytes)
    requires Copied(labels) == name && 0 !in name
    ensures Joined(labels) == name
  {
    if labels != [] && labels[0] != [] {
      assert RunTogether(labels)[0] == labels[0][0];
      assert RunTogether(labels)[0] in RunTogether(labels);
    }
  }

  lemma {:induction false} CopiedWords(name: Bytes)
    requires 0 !in name && Joined(Words(name)) == name
    ensures Copied(Words(name)) == name
  {
    var words := Words(name);
    if words != [] && words[0] != [] {
      assert name[0] == words[0][0] && name[0] in name;
    }
  }

  lemma {:induction false} SameAfterDot(name: Bytes, n: nat, joined: Bytes)
    requires n < |name|
    ensures name[..n] != name
    ensures name == name[..n] + [DOT] + joined ==> joined == name[n + 1..]
  {
    assert (name[..n] + [DOT] + joined)[n + 1..] == joined;
  }

  // ----------------------------------------------------------- compressed names

  /** A pointer has the two highest bits set, and the other fourteen are the offset. */
  lemma {:induction false} TargetIs(b: bv8, c: bv8)
    ensures IsPointer(b) <==> b as int >= 0xC0
    ensures IsPointer(b) ==> Target(b, c) == (b as int - 0xC0) * 0x100 + c as int
    ensures Size(b) == b as int
  {
  }

  /** The two bytes of a pointer to a place below 0x4000. */
  predicate PointsTo(buf: Bytes, at: nat, p: nat) {
    at + 2 <= |buf| && p < 0x4000 && buf[at] as int == 0xC0 + p / 0x100 && buf[at + 1] as int == p % 0x100
  }

  lemma {:induction false} AtPointer(buf: Bytes, at: nat, p: nat)
    requires PointsTo(buf, at, p)
    ensures buf[at] != 0 && IsPointer(buf[at]) && Next(buf, at) == Some(p) && Piece(buf, at) == []
  {
    TargetIs(buf[at], buf[at + 1]);
    hide IsPointer, Target;
    assert (p / 0x100) * 0x100 + p % 0x100 == p;
  }

  /** Labels, and then a pointer to a name that can be read: section 4.1.4 of RFC 1035. What
      is read is the labels and the labels of that name, and the offset moves past the
      pointer and no further. */
  lemma {:induction false} CompressedIsRead(buf: Bytes, at: nat, words: seq<Bytes>, p: nat)
    requires Holds(buf, at, PrintedWords(words)) && forall i :: 0 <= i < |words| ==> Short(words[i])
    requires PointsTo(buf, at + |PrintedWords(words)|, p) && Name(buf, p).Some?
    ensures Name(buf, at) == Some(words + Name(buf, p).value)
    ensures Inline(buf, at, |buf|) == |PrintedWords(words)| + 2
  {
    hide *;
    LabelsThenPointer(buf, at, words, p);
    EndsIs(buf, at, |words| + 1 + |buf|);
    EndsSoon(buf, at, |words| + 1 + |buf|);
  }

  lemma {:induction false} LabelsThenPointer(buf: Bytes, at: nat, words: seq<Bytes>, p: nat)
    requires Holds(buf, at, PrintedWords(words)) && forall i :: 0 <= i < |words| ==> Short(words[i])
    requires PointsTo(buf, at + |PrintedWords(words)|, p) && Name(buf, p).Some?
    ensures Labels(buf, at, |words| + 1 + |buf|) == Some(words + Name(buf, p).value)
    ensures Inline(buf, at, |words| + 1 + |buf|) == |PrintedWords(words)| + 2
    decreases |words|
  {
    hide *;
    if words == [] {
      NoWords();
      PointerThenName(buf, at, p);
    } else {
      var w, rest := words[0], words[1..];
      FirstPrinted(words);
      HoldsParts(buf, at, PrintedWord(w), PrintedWords(rest));
      var next := at + |PrintedWord(w)|;
      assert Short(w);
      LabelsThenPointer(buf, next, rest, p);
      EndsIs(buf, next, |words| + |buf|);
      LabelsAtWord(buf, at, w, |words| + 1 + |buf|);
      assert [w] + (rest + Name(buf, p).value) == words + Name(buf, p).value;
    }
  }

  lemma {:induction false} NoWords()
    ensures PrintedWords([]) == []
  {
  }

  lemma {:induction false} FirstPrinted(words: seq<Bytes>)
    requires words != []
    ensures PrintedWords(words) == PrintedWord(words[0]) + PrintedWords(words[1..])
  {
    hide PrintedWord;
  }

  lemma {:induction false} PointerThenName(buf: Bytes, at: nat, p: nat)
    requires PointsTo(buf, at, p) && Name(buf, p).Some?
    ensures Labels(buf, at, 1 + |buf|) == Some([] + Name(buf, p).value)
    ensures Inline(buf, at, 1 + |buf|) == 2
  {
    AtPointer(buf, at, p);
    hide Next, Piece, IsPointer;
  }

  /** A name that was printed once and is pointed to elsewhere is read there, two bytes on. */
  lemma {:induction false} PointedIsRead(buf: Bytes, at: nat, p: nat, name: Bytes)
    requires Holds(buf, p, Printed(name)) && Plain(name) && 0 !in name && PointsTo(buf, at, p)
    ensures Name(buf, at) == Name(buf, p) && Name(buf, at).Some? && Copied(Name(buf, at).value) == name
    ensures Inline(buf, at, |buf|) == 2
  {
    hide *;
    PrintedIsReadIff(buf, p, name);
    NoWords();
    HoldsNothing(buf, at, p);
    CompressedIsRead(buf, at, [], p);
    assert [] + Name(buf, p).value == Name(buf, p).value;
  }

  lemma {:induction false} HoldsNothing(buf: Bytes, at: nat, p: nat)
    requires PointsTo(buf, at, p)
    ensures Holds(buf, at, [])
  {
  }

  /** A name is printed word by word: a byte that is the length, at most 63, and the word, for
      what comes before each dot and for what comes last; and a zero. */
  lemma {:induction false} WordsArePrinted(w: Bytes, rest: Bytes, n: bv8)
    requires 0x2E !in w && n as int == if |w| > 63 then 63 else |w|
    ensures Printed(w + [0x2E] + rest) == [n] + w + Printed(rest)
    ensures w != [] ==> Printed(w) == [n] + w + [0]
    ensures Printed([]) == [0]
  {
    var name := w + [0x2E] + rest;
    LengthIs(|w|, n);
    EndOfWord(name, |w|);
    assert name[..|w|] == w && name[|w| + 1..] == rest;
    PrintedUnfolds(name);
    if w != [] {
      EndOfWord(w, |w|);
      assert w[..|w|] == w;
      PrintedUnfolds(w);
    }
    hide WordEnd, AfterWord, Words, LengthByte;
    EmptyIsPrinted();
  }

  lemma {:induction false} LengthIs(n: nat, b: bv8)
    requires b as int == if n > 63 then 63 else n
    ensures LengthByte(n) == b
  {
  }

  lemma {:induction false} EmptyIsPrinted()
    ensures Printed([]) == [0]
  {
  }

  lemma {:induction false} EndOfWord(name: Bytes, n: nat)
    requires n <= |name| && (forall i :: 0 <= i < n ==> name[i] != 0x2E) && (n < |name| ==> name[n] == 0x2E)
    ensures WordEnd(name) == n
    ensures AfterWord(name) == if n < |name| then name[n + 1..] else []
  {
    var e := WordEnd(name);
  }
}
