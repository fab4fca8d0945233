/** The bounded formatter of src/snprintf.c, writing through a buffer that may be too
    small for what it is asked to print. */
module Printers {
  import opened Common
  import opened Formats

  const NUL: char := '\0'

  /** How many characters of a text of length n a buffer of maxlen cells takes. */
  function Kept(n: nat, maxlen: nat): nat {
    if maxlen == 0 then 0 else if n < maxlen then n else maxlen - 1
  }

  /** Memory `start` after a bounded print of text at cell base: what fits, then a NUL. */
  function AfterPrint(start: seq<char>, base: nat, maxlen: nat, text: string): (r: seq<char>)
    requires base + Kept(|text|, maxlen) < |start|
    ensures |r| == |start|
  {
    var n := Kept(|text|, maxlen);
    start[..base] + text[..n] + [NUL] + start[base + n + 1..]
  }

  /** As much of the text as fits before the last cell stands there, a zero follows it even if
      there is no cell, and nothing else is changed. */
  lemma {:induction false} AfterPrintIs(start: seq<char>, base: nat, maxlen: nat, text: string, i: nat)
    requires base + Kept(|text|, maxlen) < |start| && i < |start|
    ensures var n := if |text| < maxlen then |text| else if maxlen == 0 then 0 else maxlen - 1;
      AfterPrint(start, base, maxlen, text)[i]
        == if base <= i < base + n then text[i - base] else if i == base + n then '\0' else start[i]
  {
  }

  /** A destination: `buffer`, `currlen` and `maxlen` of the source's helpers, which they
      pass along together. The C pointer is memory[base..], or NULL. */
  class Sink {
    const memory: array<char>
    const base: nat
    const isNull: bool
    const maxlen: nat
    var currlen: nat
    /** The memory at the start and the whole text that was asked for. */
    ghost const start: seq<char>
    ghost var text: string

    ghost predicate Valid()
      reads this, memory
    {
      && (if isNull then maxlen == 0 && base == 0 else base < memory.Length && base + maxlen <= memory.Length)
      && |start| == memory.Length
      && currlen == Kept(|text|, maxlen)
      && forall i :: 0 <= i < memory.Length ==>
        memory[i] == if base <= i < base + currlen then text[i - base] else start[i]
    }

    constructor (memory: array<char>, base: nat, isNull: bool, maxlen: nat)
      requires if isNull then maxlen == 0 && base == 0 else base < memory.Length && base + maxlen <= memory.Length
      ensures Valid() && this.memory == memory && this.base == base && this.isNull == isNull
      ensures this.maxlen == maxlen && text == "" && start == memory[..]
    {
      this.memory, this.base, this.isNull, this.maxlen, this.currlen := memory, base, isNull, maxlen, 0;
      start, text := memory[..], "";
    }

    /** `dopr_outch`. */
    method Outch(c: char) returns (n: int)
      requires Valid()
      modifies this, memory
      ensures Valid() && text == old(text) + [c] && n == 1
    {
      if currlen + 1 < maxlen {
        memory[base + currlen] := c;
        currlen := currlen + 1;
      }
      text := text + [c];
      return 1;
    }

    /** The padding loops of the source, counting n down to zero. */
    method Pad(c: char, n: int) returns (total: int)
      requires Valid()
      modifies this, memory
      ensures Valid() && text == old(text) + Times(c, Max(n, 0)) && total == Max(n, 0)
    {
      var left := n;
      total := 0;
      while left > 0
        invariant Valid() && total + Max(left, 0) == Max(n, 0)
        invariant text == old(text) + Times(c, Max(n, 0) - Max(left, 0))
        decreases left
      {
        ghost var done := Max(n, 0) - left;
        var k := Outch(c);
        assert Times(c, done) + [c] == Times(c, done + 1);
        total := total + k;
        left := left - 1;
      }
    }

    /** The end of `dopr`: the terminator. */
    method Terminate()
      requires Valid()
      modifies memory
      ensures if isNull then memory[..] == start else memory[..] == AfterPrint(start, base, maxlen, text)
    {
      if !isNull {
        // maxlen - 1 is unsigned: for maxlen 0 it is larger than any length
        if maxlen == 0 || currlen < maxlen - 1 {
          memory[base + currlen] := NUL;
        } else {
          memory[base + maxlen - 1] := NUL;
        }
      }
    }
  }

  lemma {:induction false} Joined(a: string, b: string, c: string, d: string, e: string)
    ensures a + b + c + d + e == a + (b + c + d + e)
    ensures a + b + c + d == a + (b + c + d)
  {
  }

  /** The loop of `fmtstr` over the characters of the value. */
  method PutString(sink: Sink, v: string, max: int) returns (total: int)
    requires sink.Valid()
    modifies sink, sink.memory
    ensures sink.Valid() && sink.text == old(sink.text) + Cut(v, max) && total == |Cut(v, max)|
  {
    var cnt := 0;
    total := 0;
    while cnt < |v| && (max < 0 || cnt < max)
      invariant sink.Valid() && 0 <= cnt <= |v| && (0 <= max ==> cnt <= max)
      invariant sink.text == old(sink.text) + v[..cnt] && total == cnt
    {
      var k := sink.Outch(v[cnt]);
      total := total + k;
      assert v[..cnt + 1] == v[..cnt] + [v[cnt]];
      cnt := cnt + 1;
    }
    assert v[..|v|] == v;
  }

  /** A signed count of spaces to print before, or if negative after, a text. */
  lemma {:induction false} Framed(t: string, s: string, spaces: int, minus: bool, padlen: int)
    requires spaces >= 0 && padlen == if minus then -spaces else spaces
    ensures t + Times(' ', Max(padlen, 0)) + s + Times(' ', Max(-padlen, 0)) == t + InField(s, spaces, minus)
    ensures |InField(s, spaces, minus)| == Max(padlen, 0) + |s| + Max(-padlen, 0)
  {
    if minus {
      assert Max(padlen, 0) == 0 && Max(-padlen, 0) == spaces;
    } else {
      assert Max(padlen, 0) == spaces && Max(-padlen, 0) == 0;
    }
    Joined(t, Times(' ', Max(padlen, 0)), s, Times(' ', Max(-padlen, 0)), "");
  }

  /** `fmtstr`. */
  method FmtStr(sink: Sink, value: Option<string>, flags: Flags, min: int, max: int) returns (total: int)
    requires sink.Valid()
    modifies sink, sink.memory
    ensures sink.Valid() && sink.text == old(sink.text) + Str(value, flags, min, max)
    ensures total == |Str(value, flags, min, max)|
  {
    var v := CString(value);
    var strln := |v|;
    if max >= 0 && max < strln {
      strln := max;
    }
    var padlen := min - strln;
    if padlen < 0 {
      padlen := 0;
    }
    if flags.minus {
      padlen := -padlen;
    }
    var n1 := sink.Pad(' ', padlen);
    var n2 := PutString(sink, v, max);
    var n3 := sink.Pad(' ', -padlen);
    total := n1 + n2 + n3;
    ghost var shown := Cut(v, max);
    Framed(old(sink.text), shown, Max(min - |shown|, 0), flags.minus, padlen);
  }

  /** The last of the digits that are left, and what is left then. */
  lemma {:induction false} TakeDigit(all: string, place: nat, u: nat, base: nat, upper: bool)
    requires 2 <= base <= 16 && place < |all| && all[..|all| - place] == AllDigits(u, base, upper)
    ensures all[|all| - 1 - place] == DigitChar(u % base, upper)
    ensures if u / base == 0 then |all| == place + 1
      else place + 1 < |all| && all[..|all| - place - 1] == AllDigits(u / base, base, upper)
  {
    var s := all[..|all| - place];
    assert s[|s| - 1] == DigitChar(u % base, upper);
    if u / base != 0 {
      assert s[..|s| - 1] == AllDigits(u / base, base, upper);
      assert s[..|s| - 1] == all[..|all| - place - 1];
    }
  }

  /** The digit loop of `fmtint`: digits are collected from the last one on, 20 at most,
      and the 20th is dropped. */
  method Convert(number: nat, base: nat, upper: bool) returns (convert: array<char>, place: int, ghost digits: string)
    requires 2 <= base <= 16
    ensures fresh(convert) && convert.Length == 20
    ensures digits == Digits(number, base, upper) && 0 <= place == |digits| <= 20
    ensures forall k :: 0 <= k < place ==> convert[k] == digits[place - 1 - k]
  {
    hide AllDigits;
    ghost var all := AllDigits(number, base, upper);
    var uvalue := number;
    convert := new char[20](_ => NUL);
    convert[0] := DigitChar(uvalue % base, upper);
    assert all[..|all|] == all;
    TakeDigit(all, 0, uvalue, base, upper);
    place := 1;
    uvalue := uvalue / base;
    while uvalue != 0 && place < 20
      invariant 1 <= place <= 20 && uvalue >= 0
      invariant if uvalue == 0 then |all| == place
        else place < |all| && all[..|all| - place] == AllDigits(uvalue, base, upper)
      invariant forall k :: 0 <= k < place ==> convert[k] == all[|all| - 1 - k]
      decreases 20 - place
    {
      convert[place] := DigitChar(uvalue % base, upper);
      TakeDigit(all, place, uvalue, base, upper);
      place := place + 1;
      uvalue := uvalue / base;
    }
    if place == 20 {
      place := place - 1;
    }
    digits := Digits(number, base, upper);
  }

  /** `fmtint`. */
  method FmtInt(sink: Sink, value: int, base: nat, min: int, max: int, flags: Flags, unsigned: bool, upper: bool)
    returns (total: int)
    requires sink.Valid() && 2 <= base <= 16
    modifies sink, sink.memory
    ensures sink.Valid() && sink.text == old(sink.text) + Int(value, base, flags, unsigned, upper, min, max)
    ensures total == |Int(value, base, flags, unsigned, upper, min, max)|
  {
    var max' := if max < 0 then 0 else max;
    var uvalue := Unsigned(value);
    var sign := Sign(value, flags, unsigned);
    if !unsigned && value < 0 {
      uvalue := Unsigned(-value);
    }
    var convert, place, digits := Convert(uvalue, base, upper);
    total := Layout(sink, convert, place, digits, sign, min, max', flags);
    assert Max(max', 0) == Max(max, 0);
  }

  /** The rest of `fmtint`: padding, sign and digits. */
  method Layout(sink: Sink, convert: array<char>, place: int, ghost digits: string, sign: string,
                min: int, max': int, flags: Flags)
    returns (total: int)
    requires sink.Valid() && convert != sink.memory && 0 <= place == |digits| <= convert.Length && max' >= 0
    requires forall k :: 0 <= k < place ==> convert[k] == digits[place - 1 - k]
    modifies sink, sink.memory
    ensures sink.Valid() && sink.text == old(sink.text) + Number(digits, sign, flags, min, max')
    ensures total == |Number(digits, sign, flags, min, max')|
  {
    ghost var spaces := Max(min - Max(max', place) - |sign|, 0);
    var zpadlen := max' - place;
    var spadlen := min - Max(max', place) - |sign|;
    if zpadlen < 0 {
      zpadlen := 0;
    }
    if spadlen < 0 {
      spadlen := 0;
    }
    if flags.zero {
      zpadlen := Max(zpadlen, spadlen);
      spadlen := 0;
    }
    if flags.minus {
      spadlen := -spadlen;
    }
    var n1 := sink.Pad(' ', spadlen);
    var n2 := PutString(sink, sign, -1);
    var n3 := sink.Pad('0', zpadlen);
    var n4 := PutDigits(sink, convert, place, digits);
    var n5 := sink.Pad(' ', -spadlen);
    total := n1 + n2 + n3 + n4 + n5;
    ghost var before := old(sink.text) + Times(' ', Max(spadlen, 0));
    ghost var body := sign + Times('0', Max(zpadlen, 0)) + digits;
    NumberLaidOut(digits, sign, flags, min, max', zpadlen, spadlen);
    hide *;
    Joined(before, sign, Times('0', Max(zpadlen, 0)), digits, "");
    Framed(old(sink.text), body, if flags.zero then 0 else spaces, flags.minus, spadlen);
    TimesLength('0', Max(zpadlen, 0));
  }

  lemma {:induction false} TimesLength(c: char, n: nat)
    ensures |Times(c, n)| == n
  {
  }

  /** The paddings `fmtint` computes, and the number they lay out. */
  lemma {:induction false} NumberLaidOut(digits: string, sign: string, flags: Flags, min: int, max: int, zpadlen: int, spadlen: int)
    requires max >= 0
    requires var spaces, zeros := Max(min - Max(max, |digits|) - |sign|, 0), Max(max - |digits|, 0);
      && zpadlen == (if flags.zero then Max(zeros, spaces) else zeros)
      && spadlen == (if flags.zero then 0 else if flags.minus then -spaces else spaces)
    ensures var spaces := Max(min - Max(max, |digits|) - |sign|, 0);
      && Max(zpadlen, 0) == zpadlen && Max(max, 0) == max && spaces >= 0
      && Number(digits, sign, flags, min, max)
        == InField(sign + Times('0', Max(zpadlen, 0)) + digits, if flags.zero then 0 else spaces, flags.minus)
      && spadlen == (if flags.minus then -(if flags.zero then 0 else spaces) else if flags.zero then 0 else spaces)
  {
    hide InField, Times;
  }

  /** The digit loop at the end of `fmtint`. */
  method PutDigits(sink: Sink, convert: array<char>, place: int, ghost digits: string) returns (total: int)
    requires sink.Valid() && convert != sink.memory && 0 <= place == |digits| <= convert.Length
    requires forall k :: 0 <= k < place ==> convert[k] == digits[place - 1 - k]
    modifies sink, sink.memory
    ensures sink.Valid() && sink.text == old(sink.text) + digits && total == |digits|
  {
    var left := place;
    total := 0;
    while left > 0
      invariant sink.Valid() && 0 <= left <= |digits| && total == |digits| - left
      invariant sink.text == old(sink.text) + digits[..|digits| - left]
      invariant forall k :: 0 <= k < place ==> convert[k] == digits[place - 1 - k]
      decreases left
    {
      left := left - 1;
      var k := sink.Outch(convert[left]);
      total := total + k;
      assert digits[..|digits| - left] == digits[..|digits| - left - 1] + [digits[|digits| - left - 1]];
    }
    assert digits[..|digits|] == digits;
  }

  /** The states of `dopr`, DP_S_DEFAULT to DP_S_DONE. */
  datatype Reading = Default | InFlags | InMin | InDot | InMax | InMod | InConv | Done

  function Stage(state: Reading): nat {
    match state
    case Default => 0
    case InFlags => 1
    case InMin => 2
    case InDot => 3
    case InMax => 4
    case InMod => 5
    case InConv => 6
    case Done => 7
  }

  /** What is still to be printed when `dopr` is in a state, at character i of the format. */
  function Rest(state: Reading, f: string, i: nat, flags: Flags, size: Size, min: int, max: int, args: seq<Arg>): Output
    requires i <= |f|
  {
    match state
    case Default => Expand(f, i, args)
    case InFlags => Directive(f, i, flags, args)
    case InMin => Width(f, i, flags, min, args)
    case InDot => Point(f, i, flags, min, args)
    case InMax => Precision(f, i, flags, min, max, args)
    case InMod => Modifier(f, i, flags, min, max, args)
    case InConv => Conversion(f, i, flags, min, max, size, args)
    case Done => Output.Printed("")
  }

  /** Each state has only read what it says it has. */
  predicate Fresh(state: Reading, flags: Flags, size: Size, min: int, max: int) {
    && (state == Default ==> flags == NoFlags)
    && (state in {Default, InFlags} ==> min == 0)
    && (state in {Default, InFlags, InMin, InDot} ==> max == -1)
    && (state in {Default, InFlags, InMin, InDot, InMax, InMod} ==> size == NoSize)
    && (state == InMax ==> max >= -1)
  }

  /** At the end of the format nothing more is printed, whatever the state. */
  lemma {:induction false} NothingLeft(state: Reading, f: string, flags: Flags, size: Size, min: int, max: int, args: seq<Arg>)
    ensures Rest(state, f, |f|, flags, size, min, max, args) == Output.Printed("")
  {
    assert f[|f|..|f|] == "";
    assert Modifier(f, |f|, flags, min, max, args) == Output.Printed("");
    PointAtEnd(f, flags, min, args);
    assert Width(f, |f|, flags, min, args) == Output.Printed("");
    PointAtEnd(f, flags, 0, args);
    assert Width(f, |f|, flags, 0, args) == Output.Printed("");
  }

  lemma {:induction false} PointAtEnd(f: string, flags: Flags, min: int, args: seq<Arg>)
    ensures Point(f, |f|, flags, min, args) == Output.Printed("")
  {
    assert Modifier(f, |f|, flags, min, -1, args) == Output.Printed("");
  }

  lemma {:induction false} DefaultStep(f: string, i: nat, args: seq<Arg>)
    requires i < |f|
    ensures Expand(f, i, args)
      == if f[i] == '%' then Directive(f, i + 1, NoFlags, args) else Prepend([f[i]], Expand(f, i + 1, args))
  {
  }

  lemma {:induction false} PointStep(f: string, i: nat, flags: Flags, min: int, args: seq<Arg>)
    requires i < |f|
    ensures Point(f, i, flags, min, args)
      == if f[i] == '.' then Precision(f, i + 1, flags, min, -1, args) else Modifier(f, i, flags, min, -1, args)
  {
  }

  lemma {:induction false} ModifierStep(f: string, i: nat, flags: Flags, min: int, max: int, args: seq<Arg>)
    requires i < |f|
    ensures Modifier(f, i, flags, min, max, args)
      == var size := SizeOf(f[i]);
         Conversion(f, if size != NoSize then i + 1 else i, flags, min, max, size, args)
  {
  }

  lemma {:induction false} ConversionStep(f: string, i: nat, flags: Flags, min: int, max: int, size: Size, args: seq<Arg>)
    requires i < |f| && Conversion(f, i, flags, min, max, size, args).Printed?
    ensures var t := Converted(f[i], flags, min, max, size, args);
      && t.Printed? && Uses(f[i]) <= |args|
      && Conversion(f, i, flags, min, max, size, args) == Prepend(t.text, Expand(f, i + 1, args[Uses(f[i])..]))
  {
  }

  lemma {:induction false} FlagStep(f: string, i: nat, flags: Flags, args: seq<Arg>)
    requires i < |f|
    ensures Directive(f, i, flags, args)
      == if IsFlag(f[i]) then Directive(f, i + 1, WithFlag(flags, f[i]), args) else Width(f, i, flags, 0, args)
  {
    if IsFlag(f[i]) {
      var j := FlagRun(f, i);
      assert f[i..j][0] == f[i] && f[i..j][1..] == f[i + 1..j];
    } else {
      assert f[i..i] == "";
    }
  }

  lemma {:induction false} WidthStep(f: string, i: nat, flags: Flags, min: int, args: seq<Arg>)
    requires i < |f|
    ensures Width(f, i, flags, min, args)
      == if IsDigit(f[i]) then Width(f, i + 1, flags, 10 * min + (f[i] as int - '0' as int), args)
         else if f[i] == '*' then
           if args == [] || !args[0].IntArg? then Undefined else Point(f, i + 1, flags, args[0].v, args[1..])
         else Point(f, i, flags, min, args)
  {
    if IsDigit(f[i]) {
      var j := DigitRun(f, i);
      assert f[i..j][0] == f[i] && f[i..j][1..] == f[i + 1..j];
    } else {
      assert f[i..i] == "";
    }
  }

  lemma {:induction false} PrecisionStep(f: string, i: nat, flags: Flags, min: int, max: int, args: seq<Arg>)
    requires i < |f| && max >= -1
    ensures Precision(f, i, flags, min, max, args)
      == if IsDigit(f[i]) then
           Precision(f, i + 1, flags, min, 10 * Max(max, 0) + (f[i] as int - '0' as int), args)
         else if f[i] == '*' then
           if args == [] || !args[0].IntArg? then Undefined else Modifier(f, i + 1, flags, min, args[0].v, args[1..])
         else Modifier(f, i, flags, min, max, args)
  {
    if IsDigit(f[i]) {
      var j := DigitRun(f, i);
      assert f[i..j][0] == f[i] && f[i..j][1..] == f[i + 1..j];
      var d := f[i] as int - '0' as int;
      var max' := 10 * Max(max, 0) + d;
      assert Max(max', 0) == max' && FlagRun(f, |f|) == |f|;
      assert DigitRun(f, i + 1) == j;
      assert Decimal(Max(max, 0), f[i..j]) == Decimal(max', f[i + 1..j]);
      if i + 1 == j {
        assert f[i + 1..j] == "";
      }
    } else {
      assert f[i..i] == "";
    }
  }

  lemma {:induction false} PrependTwice(s: string, t: string, o: Output)
    ensures Prepend(s, Prepend(t, o)) == Prepend(s + t, o)
  {
    if o.Printed? {
      assert s + (t + o.text) == s + t + o.text;
    }
  }

  /** The conversions of `dopr`. */
  method Convert1(sink: Sink, c: char, flags: Flags, min: int, max: int, size: Size, args: seq<Arg>) returns (total: int)
    requires sink.Valid() && Converted(c, flags, min, max, size, args).Printed?
    modifies sink, sink.memory
    ensures sink.Valid()
    ensures var t := Converted(c, flags, min, max, size, args).text;
      sink.text == old(sink.text) + t && total == |t|
  {
    hide Int, Str;
    total := 0;
    if c == 'd' || c == 'i' {
      total := FmtInt(sink, IntValue(args[0].v, false, size), 10, min, max, flags, false, false);
    } else if c == 'o' {
      total := FmtInt(sink, IntValue(args[0].v, true, size), 8, min, max, flags, true, false);
    } else if c == 'u' {
      total := FmtInt(sink, IntValue(args[0].v, true, size), 10, min, max, flags, true, false);
    } else if c == 'X' || c == 'x' {
      total := FmtInt(sink, IntValue(args[0].v, true, size), 16, min, max, flags, true, c == 'X');
    } else if c == 'c' {
      total := sink.Outch((args[0].v % 256) as char);
    } else if c == 's' {
      total := FmtStr(sink, args[0].s, flags, min, max);
    } else if c == 'p' {
      total := FmtInt(sink, args[0].v, 16, min, max, flags, false, false);
    } else if c == '%' {
      total := sink.Outch(c);
    }
  }

  /** `dopr`: one character of the format or one change of state at a time. */
  method Dopr(sink: Sink, format: string, args: seq<Arg>) returns (total: int)
    requires sink.Valid() && sink.text == "" && Expand(format, 0, args).Printed?
    modifies sink, sink.memory
    ensures total == |Expand(format, 0, args).text|
    ensures if sink.isNull then sink.memory[..] == sink.start
      else sink.memory[..] == AfterPrint(sink.start, sink.base, sink.maxlen, Expand(format, 0, args).text)
  {
    hide Expand, Directive, Width, Point, Precision, Modifier, Conversion, Converted, Sink.Valid, AfterPrint, WithFlag;
    hide Uses, SizeOf, IsFlag;
    var state, flags, cflags, min, max := Default, NoFlags, NoSize, 0, -1;
    var at, next := 0, 0;
    ghost var whole := Expand(format, 0, args);
    total := 0;
    while state != Done
      invariant sink.Valid() && 0 <= at <= |format| && 0 <= next <= |args|
      invariant total == |sink.text| && Fresh(state, flags, cflags, min, max)
      invariant whole == Prepend(sink.text, Rest(state, format, at, flags, cflags, min, max, args[next..]))
      decreases |format| - at, 7 - Stage(state)
    {
      if at == |format| {
        NothingLeft(state, format, flags, cflags, min, max, args[next..]);
        state := Done;
      } else {
        var ch := format[at];
        match state
        case Default =>
          DefaultStep(format, at, args[next..]);
          if ch == '%' {
            state := InFlags;
          } else {
            PrependTwice(sink.text, [ch], Expand(format, at + 1, args[next..]));
            var n := sink.Outch(ch);
            total := total + n;
          }
          at := at + 1;
        case InFlags =>
          FlagStep(format, at, flags, args[next..]);
          if IsFlag(ch) {
            flags := WithFlag(flags, ch);
            at := at + 1;
          } else {
            state := InMin;
          }
        case InMin =>
          assert next < |args| ==> args[next..][1..] == args[next + 1..];
          WidthStep(format, at, flags, min, args[next..]);
          if IsDigit(ch) {
            min := 10 * min + (ch as int - '0' as int);
            at := at + 1;
          } else if ch == '*' {
            min, next := args[next].v, next + 1;
            at := at + 1;
            state := InDot;
          } else {
            state := InDot;
          }
        case InDot =>
          PointStep(format, at, flags, min, args[next..]);
          if ch == '.' {
            state := InMax;
            at := at + 1;
          } else {
            state := InMod;
          }
        case InMax =>
          assert next < |args| ==> args[next..][1..] == args[next + 1..];
          PrecisionStep(format, at, flags, min, max, args[next..]);
          if IsDigit(ch) {
            if max < 0 {
              max := 0;
            }
            max := 10 * max + (ch as int - '0' as int);
            at := at + 1;
          } else if ch == '*' {
            max, next := args[next].v, next + 1;
            at := at + 1;
            state := InMod;
          } else {
            state := InMod;
          }
        case InMod =>
          ModifierStep(format, at, flags, min, max, args[next..]);
          cflags := SizeOf(ch);
          if cflags != NoSize {
            at := at + 1;
          }
          state := InConv;
        case InConv =>
          ConversionStep(format, at, flags, min, max, cflags, args[next..]);
          PrependTwice(sink.text, Converted(ch, flags, min, max, cflags, args[next..]).text,
            Expand(format, at + 1, args[next..][Uses(ch)..]));
          assert args[next..][Uses(ch)..] == args[next + Uses(ch)..];
          var n := Convert1(sink, ch, flags, min, max, cflags, args[next..]);
          total := total + n;
          next := next + Uses(ch);
          at := at + 1;
          state, flags, cflags, min, max := Default, NoFlags, NoSize, 0, -1;
      }
    }
    assert sink.text + "" == sink.text;
    assert whole == Output.Printed(sink.text);
    sink.Terminate();
  }

  /** `xmpp_vsnprintf`: the number of characters of the whole text is returned, and as
      many of them as fit are stored, followed by a NUL. Even with count 0 one cell, at
      the pointer, is set to NUL. */
  method Vsnprintf(memory: array<char>, str: nat, isNull: bool, count: nat, format: string, args: seq<Arg>)
    returns (total: int)
    requires if isNull then count == 0 && str == 0 else str < memory.Length && str + count <= memory.Length
    requires Expand(format, 0, args).Printed?
    modifies memory
    ensures total == |Expand(format, 0, args).text|
    ensures memory[..] == if isNull then old(memory[..])
      else AfterPrint(old(memory[..]), str, count, Expand(format, 0, args).text)
  {
    hide Expand;
    if !isNull {
      memory[str] := NUL;
    }
    var sink := new Sink(memory, str, isNull, count);
    total := Dopr(sink, format, args);
  }
}
