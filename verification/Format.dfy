/** What src/snprintf.c prints, as a function of the format and the arguments,
    with no buffer and no bound. */
module Formats {
  import opened Common

  /** An argument as the caller passes it; a pointer is taken as the `long` it is cast to. */
  datatype Arg = IntArg(v: int) | StrArg(s: Option<string>) | PtrArg(v: int)

  /** What a format does with its arguments: print a text, or read an argument that is
      missing or of another kind, or use a conversion outside this model (%f %e %g %n %w). */
  datatype Output = Undefined | Printed(text: string)

  datatype Flags = Flags(minus: bool, plus: bool, space: bool, num: bool, zero: bool)
  const NoFlags := Flags(false, false, false, false, false)

  /** DP_C_SHORT, DP_C_LONG, DP_C_LDOUBLE or none of them. */
  datatype Size = NoSize | Short | Long | LongDouble

  function Prepend(s: string, o: Output): (r: Output)
    ensures r.Printed? <==> o.Printed?
  {
    match o
    case Undefined => Undefined
    case Printed(t) => Printed(s + t)
  }

  function Times(c: char, n: nat): (s: string)
    ensures |s| == n && forall i :: 0 <= i < n ==> s[i] == c
  {
    seq(n, _ => c)
  }

  // -------------------------------------------------------------- conversions

  function Max(a: int, b: int): int {
    if a >= b then a else b
  }

  /** A text with so many spaces before it, or after it if it is left-justified. */
  function InField(s: string, spaces: nat, left: bool): string {
    Times(' ', if left then 0 else spaces) + s + Times(' ', if left then spaces else 0)
  }

  /** %s: at most max characters of the string (if max is not negative), in a field at
      least min wide. */
  function Str(value: Option<string>, flags: Flags, min: int, max: int): string {
    var s := Cut(CString(value), max);
    InField(s, Max(min - |s|, 0), flags.minus)
  }

  function CString(value: Option<string>): string {
    if value.Some? then value.value else "<NULL>"
  }

  function Cut(v: string, max: int): string {
    if 0 <= max < |v| then v[..max] else v
  }

  const LowerDigits := "0123456789abcdef"
  const UpperDigits := "0123456789ABCDEF"

  function DigitChar(d: nat, upper: bool): char
    requires d < 16
  {
    (if upper then UpperDigits else LowerDigits)[d]
  }

  /** The digits of u in the base, most significant first, all of them. */
  function AllDigits(u: nat, base: nat, upper: bool): (s: string)
    requires 2 <= base <= 16
    ensures |s| > 0
  {
    var d := [DigitChar(u % base, upper)];
    if u / base == 0 then d else AllDigits(u / base, base, upper) + d
  }

  /** The digits that are kept: when there are 20 or more, the last 19. */
  function Digits(u: nat, base: nat, upper: bool): string
    requires 2 <= base <= 16
  {
    var s := AllDigits(u, base, upper);
    if |s| < 20 then s else s[|s| - 19..]
  }

  /** `(unsigned long)value`. */
  function Unsigned(value: int): nat {
    value % 0x1_0000_0000_0000_0000
  }

  function Sign(value: int, flags: Flags, unsigned: bool): string {
    if unsigned then ""
    else if value < 0 then "-"
    else if flags.plus then "+"
    else if flags.space then " "
    else ""
  }

  /** Sign and digits, with zeros between them up to the precision, or up to the width. */
  function Number(digits: string, sign: string, flags: Flags, min: int, max: int): string {
    var precision := Max(max, 0);
    var spaces := Max(min - Max(precision, |digits|) - |sign|, 0);
    var zeros := Max(precision - |digits|, 0);
    if flags.zero then InField(sign + Times('0', Max(zeros, spaces)) + digits, 0, flags.minus)
    else InField(sign + Times('0', zeros) + digits, spaces, flags.minus)
  }

  function Int(value: int, base: nat, flags: Flags, unsigned: bool, upper: bool, min: int, max: int): string
    requires 2 <= base <= 16
  {
    var u := Unsigned(if !unsigned && value < 0 then -value else value);
    Number(Digits(u, base, upper), Sign(value, flags, unsigned), flags, min, max)
  }

  // ----------------------------------------------------------------- directives

  predicate IsDigit(c: char) {
    '0' <= c <= '9'
  }

  predicate IsFlag(c: char) {
    c in "-+ #0"
  }

  function WithFlag(flags: Flags, c: char): Flags {
    if c == '-' then flags.(minus := true)
    else if c == '+' then flags.(plus := true)
    else if c == ' ' then flags.(space := true)
    else if c == '#' then flags.(num := true)
    else flags.(zero := true)
  }

  /** End of the run of flag characters that starts at i. */
  function FlagRun(f: string, i: nat): (j: nat)
    requires i <= |f|
    ensures i <= j <= |f| && (j < |f| ==> !IsFlag(f[j]))
    ensures forall k :: i <= k < j ==> IsFlag(f[k])
    decreases |f| - i
  {
    if i < |f| && IsFlag(f[i]) then FlagRun(f, i + 1) else i
  }

  function FlagsIn(flags: Flags, s: string): Flags
    decreases s
  {
    if s == "" then flags else FlagsIn(WithFlag(flags, s[0]), s[1..])
  }

  function DigitRun(f: string, i: nat): (j: nat)
    requires i <= |f|
    ensures i <= j <= |f| && (j < |f| ==> !IsDigit(f[j]))
    ensures forall k :: i <= k < j ==> IsDigit(f[k])
    decreases |f| - i
  {
    if i < |f| && IsDigit(f[i]) then DigitRun(f, i + 1) else i
  }

  /** The decimal number made of n's digits followed by those of s. */
  function Decimal(n: int, s: string): int
    decreases s
  {
    if s == "" then n else Decimal(10 * n + (s[0] as int - '0' as int), s[1..])
  }

  /** What format f prints from position i on. */
  function Expand(f: string, i: nat, args: seq<Arg>): Output
    requires i <= |f|
    decreases |f| - i, 10
  {
    if i == |f| then Printed("")
    else if f[i] == '%' then Directive(f, i + 1, NoFlags, args)
    else Prepend([f[i]], Expand(f, i + 1, args))
  }

  /** A directive: flags, then a width, a precision, a size and a conversion. The
      functions for its parts take what has been read of the part already. */
  function Directive(f: string, i: nat, flags: Flags, args: seq<Arg>): Output
    requires i <= |f|
    decreases |f| - i, 8
  {
    var j := FlagRun(f, i);
    Width(f, j, FlagsIn(flags, f[i..j]), 0, args)
  }

  /** Digits, or digits and `*`, which takes the width from the arguments instead. */
  function Width(f: string, i: nat, flags: Flags, min: int, args: seq<Arg>): Output
    requires i <= |f|
    decreases |f| - i, 7
  {
    var j := DigitRun(f, i);
    if j < |f| && f[j] == '*' then
      if args == [] || !args[0].IntArg? then Undefined
      else Point(f, j + 1, flags, args[0].v, args[1..])
    else Point(f, j, flags, Decimal(min, f[i..j]), args)
  }

  function Point(f: string, i: nat, flags: Flags, min: int, args: seq<Arg>): Output
    requires i <= |f|
    decreases |f| - i, 6
  {
    if i < |f| && f[i] == '.' then Precision(f, i + 1, flags, min, -1, args)
    else Modifier(f, i, flags, min, -1, args)
  }

  function Precision(f: string, i: nat, flags: Flags, min: int, max: int, args: seq<Arg>): Output
    requires i <= |f|
    decreases |f| - i, 5
  {
    var j := DigitRun(f, i);
    var n := if i < j then Decimal(Max(max, 0), f[i..j]) else max;
    if j < |f| && f[j] == '*' then
      if args == [] || !args[0].IntArg? then Undefined
      else Modifier(f, j + 1, flags, min, args[0].v, args[1..])
    else Modifier(f, j, flags, min, n, args)
  }

  function SizeOf(c: char): Size {
    if c == 'h' then Short else if c == 'l' then Long else if c == 'L' then LongDouble else NoSize
  }

  function Modifier(f: string, i: nat, flags: Flags, min: int, max: int, args: seq<Arg>): Output
    requires i <= |f|
    decreases |f| - i, 4
  {
    if i < |f| && SizeOf(f[i]) != NoSize then Conversion(f, i + 1, flags, min, max, SizeOf(f[i]), args)
    else Conversion(f, i, flags, min, max, NoSize, args)
  }

  /** The argument of an integer conversion as `dopr` reads it into a `long`. */
  function IntValue(v: int, unsigned: bool, size: Size): int {
    if !unsigned || size == Short then v
    else if size == Long then v % 0x1_0000_0000_0000_0000
    else v % 0x1_0000_0000
  }

  /** What one conversion prints; None if it uses no argument and prints nothing. */
  function Converted(c: char, flags: Flags, min: int, max: int, size: Size, args: seq<Arg>): Output {
    if c == '%' then Printed("%")
    else if c in "diouxX" then
      if args == [] || !args[0].IntArg? then Undefined
      else
        var unsigned := c in "ouxX";
        var base := if c == 'o' then 8 else if c in "xX" then 16 else 10;
        Printed(Int(IntValue(args[0].v, unsigned, size), base, flags, unsigned, c == 'X', min, max))
    else if c == 'c' then
      if args == [] || !args[0].IntArg? then Undefined
      else Printed([(args[0].v % 256) as char])
    else if c == 's' then
      if args == [] || !args[0].StrArg? then Undefined
      else Printed(Str(args[0].s, flags, min, max))
    else if c == 'p' then
      if args == [] || !args[0].PtrArg? then Undefined
      else Printed(Int(args[0].v, 16, flags, false, false, min, max))
    else if c in "fEeGgnw" then Undefined
    else Printed("")
  }

  function Uses(c: char): nat {
    if c in "diouxXcsp" then 1 else 0
  }

  /** A format that ends inside a directive prints nothing for it. */
  function Conversion(f: string, i: nat, flags: Flags, min: int, max: int, size: Size, args: seq<Arg>): Output
    requires i <= |f|
    decreases |f| - i, 3
  {
    if i == |f| then Printed("")
    else
      match Converted(f[i], flags, min, max, size, args)
      case Undefined => Undefined
      case Printed(t) =>
        if |args| < Uses(f[i]) then Undefined
        else Prepend(t, Expand(f, i + 1, args[Uses(f[i])..]))
  }

  // ----------------------------------------------------------- facts about it

  function DigitValue(c: char): nat {
    if '0' <= c <= '9' then c as int - '0' as int
    else if 'a' <= c <= 'f' then c as int - 'a' as int + 10
    else if 'A' <= c <= 'F' then c as int - 'A' as int + 10
    else 0
  }

  /** The number a digit string denotes. */
  function Denoted(s: string, base: nat): nat {
    if s == "" then 0 else Denoted(s[..|s| - 1], base) * base + DigitValue(s[|s| - 1])
  }

  lemma {:induction false} DigitCharValue(d: nat, upper: bool)
    requires d < 16
    ensures DigitValue(DigitChar(d, upper)) == d
  {
  }

  lemma {:induction false} DenotedAppend(s: string, c: char, base: nat)
    ensures Denoted(s + [c], base) == Denoted(s, base) * base + DigitValue(c)
  {
    assert (s + [c])[..|s|] == s;
  }

  lemma {:induction false} Doubled(q: nat, n: nat)
    requires n >= 2
    ensures q * n >= q * 2
  {
  }

  lemma {:induction false} DivMod(u: nat, n: nat)
    requires n > 0
    ensures u / n * n + u % n == u
    ensures n >= 2 && u > 0 ==> u / n < u
  {
    var q := u / n;
    assert u == q * n + u % n;
    if n >= 2 {
      Doubled(q, n);
    }
  }

  lemma {:induction false} AllDigitsDenote(u: nat, base: nat, upper: bool)
    requires 2 <= base <= 16
    ensures Denoted(AllDigits(u, base, upper), base) == u
  {
    var q, d := u / base, u % base;
    DivMod(u, base);
    DigitCharValue(d, upper);
    if q == 0 {
      DenotedAppend("", DigitChar(d, upper), base);
      assert "" + [DigitChar(d, upper)] == AllDigits(u, base, upper);
    } else {
      AllDigitsDenote(q, base, upper);
      DenotedAppend(AllDigits(q, base, upper), DigitChar(d, upper), base);
    }
  }

  lemma {:induction false} ZeroDigits(base: nat, upper: bool)
    requires 2 <= base <= 16
    ensures |AllDigits(0, base, upper)| == 1
  {
  }

  lemma {:induction false} LeadingDigit(u: nat, base: nat, upper: bool)
    requires 2 <= base <= 16 && u > 0
    ensures DigitValue(AllDigits(u, base, upper)[0]) > 0
  {
    var q, d := u / base, u % base;
    DivMod(u, base);
    if q == 0 {
      DigitCharValue(d, upper);
    } else {
      LeadingDigit(q, base, upper);
    }
  }

  lemma {:induction false} PositivePrefix(s: string, base: nat)
    requires s != "" && base > 0 && DigitValue(s[0]) > 0
    ensures Denoted(s, base) > 0
  {
    if |s| > 1 {
      PositivePrefix(s[..|s| - 1], base);
      assert Denoted(s[..|s| - 1], base) * base > 0;
    }
  }

  lemma {:induction false} CuttingLoses(s: string, t: string, base: nat)
    requires base > 0 && Denoted(s, base) > 0
    ensures Denoted(s + t, base) > Denoted(t, base)
  {
    if t == "" {
      assert s + t == s;
    } else {
      var t' := t[..|t| - 1];
      CuttingLoses(s, t', base);
      assert (s + t)[..|s + t| - 1] == s + t';
      Scaled(Denoted(t', base), Denoted(s + t', base), base);
    }
  }

  lemma {:induction false} Scaled(a: nat, b: nat, n: nat)
    requires a < b && n > 0
    ensures a * n < b * n
  {
    var k := b - a - 1;
    assert b == a + 1 + k;
    assert b * n == a * n + n + k * n;
  }

  /** The printed digits denote the number exactly when it has fewer than 20 digits. */
  lemma {:induction false} DigitsDenote(u: nat, base: nat, upper: bool)
    requires 2 <= base <= 16
    ensures Denoted(Digits(u, base, upper), base) == u <==> |AllDigits(u, base, upper)| < 20
  {
    hide AllDigits, Denoted;
    AllDigitsDenote(u, base, upper);
    ZeroDigits(base, upper);
    var s := AllDigits(u, base, upper);
    if |s| >= 20 {
      var cut := s[..|s| - 19];
      LeadingDigit(u, base, upper);
      PositivePrefix(cut, base);
      CuttingLoses(cut, s[|s| - 19..], base);
      assert s == cut + s[|s| - 19..];
    }
  }
}
