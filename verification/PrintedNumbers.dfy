/** What the formatter of src/snprintf.c makes of a directive, in terms of what is printed:
    a sign, digits that denote the number, zeros and spaces; or the characters of a string. */
module PrintedNumbers {
  import opened Common
  import opened Formats
  import Printers

  predicate All(s: string, c: char) {
    forall i :: 0 <= i < |s| ==> s[i] == c
  }

  function Power(base: nat, n: nat): nat {
    if n == 0 then 1 else base * Power(base, n - 1)
  }

  function Larger(a: int, b: int): int {
    if a < b then b else a
  }

  // --------------------------------------------------------------- how many digits

  lemma {:induction false} QuotientBelow(u: nat, b: nat, p: nat)
    requires b > 0
    ensures u / b < p <==> u < b * p
  {
    var q, r := u / b, u % b;
    assert u == b * q + r && r < b;
    if q < p {
      var k := p - q - 1;
      assert p == q + 1 + k;
      assert b * p == b * q + b + b * k;
    } else {
      var k := q - p;
      assert q == p + k;
      assert b * q == b * p + b * k;
    }
  }

  lemma {:induction false} PowerIs(base: nat, n: nat)
    requires n >= 1
    ensures Power(base, n) == base * Power(base, n - 1) && Power(base, 0) == 1
  {
  }

  lemma {:induction false} OneDigitMore(u: nat, base: nat, upper: bool)
    requires 2 <= base <= 16
    ensures |AllDigits(u, base, upper)| == if u / base == 0 then 1 else |AllDigits(u / base, base, upper)| + 1
    ensures |AllDigits(u / base, base, upper)| >= 1
    ensures u / base != 0 ==> u / base < u
  {
    DivMod(u, base);
    hide DigitChar;
  }

  lemma {:induction false} BelowPower(u: nat, base: nat, n: nat, q: nat)
    requires base >= 2 && n >= 1 && q == u / base
    ensures q < Power(base, n - 1) <==> u < Power(base, n)
    ensures Power(base, 0) == 1
  {
    PowerIs(base, n);
    QuotientBelow(u, base, Power(base, n - 1));
    hide Power;
  }

  lemma {:induction false} HowManyDigits(u: nat, base: nat, upper: bool, n: nat)
    requires 2 <= base <= 16 && n >= 1
    ensures |AllDigits(u, base, upper)| <= n <==> u < Power(base, n)
    decreases n
  {
    var q := u / base;
    OneDigitMore(u, base, upper);
    BelowPower(u, base, n, q);
    hide *;
    if n > 1 {
      HowManyDigits(q, base, upper, n - 1);
      PowerIsPositive(base, n - 1);
    }
  }

  lemma {:induction false} PowerIsPositive(base: nat, n: nat)
    requires base >= 1
    ensures Power(base, n) >= 1
  {
    if n > 0 {
      PowerIsPositive(base, n - 1);
    }
  }

  /** Digits of the base, in the letters that were asked for. */
  predicate DigitsOnly(s: string, base: nat, upper: bool) {
    forall i :: 0 <= i < |s| ==>
      && ('0' <= s[i] <= '9' || (if upper then 'A' <= s[i] <= 'F' else 'a' <= s[i] <= 'f')) && DigitValue(s[i]) < base
  }

  lemma {:induction false} DigitIs(d: nat, upper: bool)
    requires d < 16
    ensures var c := DigitChar(d, upper);
      (if d < 10 then c as int == '0' as int + d else c as int == (if upper then 'A' else 'a') as int + d - 10)
  {
  }

  lemma {:induction false} LastDigit(u: nat, base: nat, upper: bool)
    requires 2 <= base <= 16
    ensures u % base < 16 && (u / base != 0 ==> 0 < u / base < u)
    ensures var d := [DigitChar(u % base, upper)];
      AllDigits(u, base, upper) == if u / base == 0 then d else AllDigits(u / base, base, upper) + d
    ensures DigitsOnly([DigitChar(u % base, upper)], base, upper)
  {
    DivMod(u, base);
    DigitIs(u % base, upper);
    DigitCharValue(u % base, upper);
    hide DigitChar, DigitValue;
  }

  lemma {:induction false} OnlyBoth(s: string, t: string, base: nat, upper: bool)
    ensures DigitsOnly(s, base, upper) && DigitsOnly(t, base, upper) <==> DigitsOnly(s + t, base, upper)
  {
    hide DigitValue;
    if DigitsOnly(s + t, base, upper) {
      forall i | 0 <= i < |s| ensures s[i] == (s + t)[i] {
      }
      forall i | 0 <= i < |t| ensures t[i] == (s + t)[|s| + i] {
      }
    }
  }

  lemma {:induction false} DigitsAreDigits(u: nat, base: nat, upper: bool)
    requires 2 <= base <= 16
    ensures DigitsOnly(AllDigits(u, base, upper), base, upper)
    ensures |AllDigits(u, base, upper)| > 1 ==> AllDigits(u, base, upper)[0] != '0'
    decreases u
  {
    LastDigit(u, base, upper);
    ZeroIsZero();
    hide *;
    if u / base != 0 {
      DigitsAreDigits(u / base, base, upper);
      LeadingDigit(u / base, base, upper);
      OnlyBoth(AllDigits(u / base, base, upper), [DigitChar(u % base, upper)], base, upper);
    }
  }

  lemma {:induction false} ZeroIsZero()
    ensures DigitValue('0') == 0
  {
  }

  // ------------------------------------------------------------------- a number

  /** The parts of a printed number, from left to right. */
  datatype Parts = Parts(left: string, sign: string, zeros: string, digits: string, right: string)

  function Whole(p: Parts): string {
    p.left + p.sign + p.zeros + p.digits + p.right
  }

  /** How long the parts are. There are spaces on the right if `-` was given and on the left
      otherwise, none if `0` was given, and only up to the width; zeros up to the precision,
      or if `0` was given to the width. The whole is as wide as was asked for, except that with
      `0` the code takes the zeros of the precision out of those of the width: it may be
      narrower then. */
  predicate Fits(left: nat, sign: nat, zeros: nat, digits: nat, right: nat, minus: bool, zero: bool, min: int, max: int) {
    var whole := left + sign + zeros + digits + right;
    && (left != 0 ==> !minus && !zero && whole == min)
    && (right != 0 ==> minus && !zero && whole == min)
    && zeros + digits >= max
    && (!zero && zeros != 0 ==> zeros + digits == max)
    && (zero && max <= digits && zeros != 0 ==> whole == min)
    && (zero && digits < max ==> zeros == Larger(max - digits, min - max - sign))
    && (whole < min <==> zero && digits < max && sign + max < min)
  }

  /** What each part is made of. The sign is there for a negative number, or as asked for. */
  predicate Proper(p: Parts, negative: bool, base: nat, flags: Flags, unsigned: bool, upper: bool, min: int, max: int) {
    && All(p.left, ' ') && All(p.right, ' ') && All(p.zeros, '0')
    && DigitsOnly(p.digits, base, upper) && p.digits != ""
    && p.sign == (if unsigned then "" else if negative then "-" else if flags.plus then "+" else if flags.space then " " else "")
    && Fits(|p.left|, |p.sign|, |p.zeros|, |p.digits|, |p.right|, flags.minus, flags.zero, min, max)
  }

  /** The numbers that a `long` holds: `!unsigned`, or the bits of an `unsigned long`. */
  predicate IsLong(value: int) {
    -0x8000_0000_0000_0000 <= value < 0x8000_0000_0000_0000
  }

  function Amount(value: int, unsigned: bool): nat {
    if unsigned then value % 0x1_0000_0000_0000_0000 else if value < 0 then -value else value
  }

  lemma {:induction false} AmountIs(value: int, unsigned: bool)
    requires !unsigned ==> IsLong(value)
    ensures Unsigned(if !unsigned && value < 0 then -value else value) == Amount(value, unsigned)
  {
  }

  lemma {:induction false} DigitsAre(u: nat, base: nat, upper: bool)
    requires 2 <= base <= 16
    ensures var s := AllDigits(u, base, upper); |s| > 0 && Digits(u, base, upper) == if |s| < 20 then s else s[|s| - 19..]
  {
    hide AllDigits;
  }

  lemma {:induction false} KeptDigits(u: nat, base: nat, upper: bool)
    requires 2 <= base <= 16
    ensures var d := Digits(u, base, upper);
      && d != "" && DigitsOnly(d, base, upper) && (Denoted(d, base) == u <==> u < Power(base, 19))
      && (u < Power(base, 19) && |d| > 1 ==> d[0] != '0')
  {
    hide *;
    var s := AllDigits(u, base, upper);
    DigitsAre(u, base, upper);
    DigitsAreDigits(u, base, upper);
    DigitsDenote(u, base, upper);
    HowManyDigits(u, base, upper, 19);
    if |s| >= 20 {
      assert s == s[..|s| - 19] + s[|s| - 19..];
      OnlyBoth(s[..|s| - 19], s[|s| - 19..], base, upper);
    }
  }

  function PartsOf(digits: string, sign: string, flags: Flags, min: int, max: int): Parts {
    var precision := Larger(max, 0);
    var spaces := Larger(min - Larger(precision, |digits|) - |sign|, 0);
    var zeros := Larger(precision - |digits|, 0);
    if flags.zero then Parts("", sign, Times('0', Larger(zeros, spaces)), digits, "")
    else if flags.minus then Parts("", sign, Times('0', zeros), digits, Times(' ', spaces))
    else Parts(Times(' ', spaces), sign, Times('0', zeros), digits, "")
  }

  lemma {:induction false} Reassociated(l: string, a: string, b: string, c: string, r: string)
    ensures l + (a + b + c) + r == l + a + b + c + r
  {
  }

  lemma {:induction false} Framing(s: string, n: nat, left: bool)
    ensures InField(s, n, left) == if left then "" + s + Times(' ', n) else Times(' ', n) + s + ""
    ensures InField(s, 0, left) == "" + s + ""
  {
    assert Times(' ', 0) == "";
  }

  lemma {:induction false} NumberIs(digits: string, sign: string, flags: Flags, min: int, max: int)
    ensures var precision := Larger(max, 0);
      var spaces, zeros := Larger(min - Larger(precision, |digits|) - |sign|, 0), Larger(precision - |digits|, 0);
      Number(digits, sign, flags, min, max)
        == if flags.zero then InField(sign + Times('0', Larger(zeros, spaces)) + digits, 0, flags.minus)
           else InField(sign + Times('0', zeros) + digits, spaces, flags.minus)
  {
    hide InField, Times;
  }

  lemma {:induction false} Assembled(digits: string, sign: string, flags: Flags, min: int, max: int)
    ensures Number(digits, sign, flags, min, max) == Whole(PartsOf(digits, sign, flags, min, max))
  {
    var p := PartsOf(digits, sign, flags, min, max);
    NumberIs(digits, sign, flags, min, max);
    Framing(p.sign + p.zeros + p.digits, if flags.minus then |p.right| else |p.left|, flags.minus);
    Reassociated(p.left, p.sign, p.zeros, p.digits, p.right);
    hide Number, InField, Larger;
  }

  lemma {:induction false} TimesAll(c: char, n: nat)
    ensures All(Times(c, n), c) && |Times(c, n)| == n && All("", c)
  {
  }

  /** The lengths of the parts. */
  lemma {:induction false} PartsFit(digits: string, sign: string, flags: Flags, min: int, max: int)
    ensures var p := PartsOf(digits, sign, flags, min, max);
      && p.digits == digits && p.sign == sign && All(p.left, ' ') && All(p.right, ' ') && All(p.zeros, '0')
      && Fits(|p.left|, |sign|, |p.zeros|, |digits|, |p.right|, flags.minus, flags.zero, min, max)
  {
    var precision := Larger(max, 0);
    var spaces := Larger(min - Larger(precision, |digits|) - |sign|, 0);
    var zeros := Larger(precision - |digits|, 0);
    TimesAll('0', Larger(zeros, spaces));
    TimesAll('0', zeros);
    TimesAll(' ', spaces);
    hide Times, All;
  }

  /** What `fmtint` prints, for every number: the digits are those of its amount, and denote
      it exactly if it has fewer than 20 digits in the base. */
  lemma {:induction false} IntIs(value: int, base: nat, flags: Flags, unsigned: bool, upper: bool, min: int, max: int)
    returns (p: Parts)
    requires 2 <= base <= 16 && (!unsigned ==> IsLong(value))
    ensures Int(value, base, flags, unsigned, upper, min, max) == Whole(p)
    ensures Proper(p, value < 0, base, flags, unsigned, upper, min, max)
    ensures Denoted(p.digits, base) == Amount(value, unsigned) <==> Amount(value, unsigned) < Power(base, 19)
    ensures Amount(value, unsigned) < Power(base, 19) && |p.digits| > 1 ==> p.digits[0] != '0'
  {
    var u := Amount(value, unsigned);
    var digits, sign := Digits(u, base, upper), Sign(value, flags, unsigned);
    p := PartsOf(digits, sign, flags, min, max);
    AmountIs(value, unsigned);
    KeptDigits(u, base, upper);
    Assembled(digits, sign, flags, min, max);
    PartsFit(digits, sign, flags, min, max);
    hide Digits, Denoted, Power, Amount, Number, DigitsOnly, Unsigned, Whole, PartsOf, Fits, All;
  }

  // -------------------------------------------------------------------- a string

  /** What `fmtstr` prints: the string, or "<NULL>" for none, as far as the precision allows,
      and spaces up to the width, on the right if `-` was given and on the left otherwise. */
  lemma {:induction false} StrIs(value: Option<string>, flags: Flags, min: int, max: int) returns (left: string, shown: string, right: string)
    ensures Str(value, flags, min, max) == left + shown + right && All(left, ' ') && All(right, ' ')
    ensures var v := if value.Some? then value.value else "<NULL>";
      shown <= v && |shown| == if 0 <= max < |v| then max else |v|
    ensures |left + shown + right| == if |shown| < min then min else |shown|
    ensures if flags.minus then left == "" else right == ""
  {
    shown := Cut(CString(value), max);
    var n := Larger(min - |shown|, 0);
    left, right := if flags.minus then "" else Times(' ', n), if flags.minus then Times(' ', n) else "";
    Framing(shown, n, flags.minus);
    TimesAll(' ', n);
    hide InField, Times, All;
  }

  // ------------------------------------------------------------------ a directive

  predicate AllFlags(s: string) {
    forall i :: 0 <= i < |s| ==> s[i] == '-' || s[i] == '+' || s[i] == ' ' || s[i] == '#' || s[i] == '0'
  }

  predicate AllDecimal(s: string) {
    forall i :: 0 <= i < |s| ==> '0' <= s[i] <= '9'
  }

  lemma {:induction false} OneFlag(flags: Flags, c: char)
    requires c == '-' || c == '+' || c == ' ' || c == '#' || c == '0'
    ensures WithFlag(flags, c)
      == Flags(flags.minus || c == '-', flags.plus || c == '+', flags.space || c == ' ', flags.num || c == '#', flags.zero || c == '0')
  {
  }

  /** Each flag is set if and only if its character is there. */
  lemma {:induction false} FlagsAre(s: string, flags: Flags)
    requires AllFlags(s)
    ensures FlagsIn(flags, s)
      == Flags(flags.minus || '-' in s, flags.plus || '+' in s, flags.space || ' ' in s, flags.num || '#' in s, flags.zero || '0' in s)
  {
    if s != "" {
      var r := WithFlag(flags, s[0]);
      OneFlag(flags, s[0]);
      hide WithFlag;
      FlagsAre(s[1..], r);
      assert FlagsIn(flags, s) == FlagsIn(r, s[1..]);
      hide *;
      assert s == [s[0]] + s[1..];
    }
  }

  lemma {:induction false} FlagsSet(s: string)
    requires AllFlags(s)
    ensures FlagsIn(NoFlags, s) == Flags('-' in s, '+' in s, ' ' in s, '#' in s, '0' in s)
  {
    FlagsAre(s, NoFlags);
    hide FlagsIn;
  }

  /** Digits read from left to right denote what they denote. */
  lemma {:induction false} DecimalDenotes(n: nat, s: string, t: string)
    requires AllDecimal(t) && Denoted(s, 10) == n
    ensures Decimal(n, t) == Denoted(s + t, 10)
    decreases |t|
  {
    if t == "" {
      assert s + t == s;
    } else {
      DenotedAppend(s, t[0], 10);
      hide Denoted;
      assert DigitValue(t[0]) == t[0] as int - '0' as int;
      DecimalDenotes(10 * n + (t[0] as int - '0' as int), s + [t[0]], t[1..]);
      assert s + [t[0]] + t[1..] == s + t;
    }
  }

  lemma {:induction false} DecimalIs(t: string)
    requires AllDecimal(t)
    ensures Decimal(0, t) == Denoted(t, 10)
  {
    DecimalDenotes(0, "", t);
    assert "" + t == t;
  }

  /** A directive: flags, a width, a precision after its point if there is one, a size if
      there is one, and the conversion. */
  datatype Spec = Spec(flags: string, width: string, point: bool, precision: string, size: string, conversion: char)

  function Written(d: Spec): string {
    "%" + d.flags + d.width + (if d.point then "." + d.precision else "") + d.size + [d.conversion]
  }

  /** It is read as it is written: a width does not begin with a zero, which is a flag. */
  predicate Readable(d: Spec) {
    && AllFlags(d.flags) && AllDecimal(d.width) && AllDecimal(d.precision)
    && (d.width != "" ==> d.width[0] != '0') && (d.size == "" || d.size == "h" || d.size == "l" || d.size == "L")
    && (d.conversion == 'd' || d.conversion == 'i' || d.conversion == 'o' || d.conversion == 'u' || d.conversion == 'x'
        || d.conversion == 'X' || d.conversion == 's' || d.conversion == 'c' || d.conversion == 'p')
  }

  function PrecisionOf(d: Spec): int {
    if d.point && d.precision != "" then Denoted(d.precision, 10) else -1
  }

  function SizeNamed(size: string): Size {
    if size == "h" then Short else if size == "l" then Long else if size == "L" then LongDouble else NoSize
  }

  /** Where the parts of a directive end. */
  function FlagsEnd(d: Spec): nat { 1 + |d.flags| }
  function WidthEnd(d: Spec): nat { FlagsEnd(d) + |d.width| }
  function PrecisionEnd(d: Spec): nat { WidthEnd(d) + if d.point then 1 + |d.precision| else 0 }
  function SizeEnd(d: Spec): nat { PrecisionEnd(d) + |d.size| }

  lemma {:induction false} Places(d: Spec)
    ensures var f := Written(d);
      && |f| == SizeEnd(d) + 1 && f[0] == '%' && f[1..FlagsEnd(d)] == d.flags && f[FlagsEnd(d)..WidthEnd(d)] == d.width
      && (d.point ==> f[WidthEnd(d)] == '.' && f[WidthEnd(d) + 1..PrecisionEnd(d)] == d.precision)
      && f[PrecisionEnd(d)..SizeEnd(d)] == d.size && f[SizeEnd(d)] == d.conversion
  {
  }

  lemma {:induction false} Kinds(c: char)
    ensures IsFlag(c) <==> c == '-' || c == '+' || c == ' ' || c == '#' || c == '0'
    ensures IsDigit(c) <==> '0' <= c <= '9'
    ensures SizeOf(c) == if c == 'h' then Short else if c == 'l' then Long else if c == 'L' then LongDouble else NoSize
  {
  }

  /** A run ends where the first other character is. */
  lemma {:induction false} RunsEnd(f: string, i: nat, j: nat)
    requires i <= j < |f|
    ensures AllFlags(f[i..j]) && !IsFlag(f[j]) ==> FlagRun(f, i) == j
    ensures AllDecimal(f[i..j]) && !IsDigit(f[j]) ==> DigitRun(f, i) == j
  {
    var r, q := FlagRun(f, i), DigitRun(f, i);
    hide FlagRun, DigitRun, IsFlag, IsDigit;
    assert forall k :: i <= k < j ==> f[i..j][k - i] == f[k];
    forall k | i <= k < j ensures AllFlags(f[i..j]) ==> IsFlag(f[k]) {
      Kinds(f[k]);
    }
    forall k | i <= k < j ensures AllDecimal(f[i..j]) ==> IsDigit(f[k]) {
      Kinds(f[k]);
    }
  }

  lemma {:induction false} ReadsFlags(d: Spec, args: seq<Arg>)
    requires Readable(d)
    ensures FlagsEnd(d) <= |Written(d)| && AllFlags(d.flags)
    ensures Expand(Written(d), 0, args) == Width(Written(d), FlagsEnd(d), FlagsIn(NoFlags, d.flags), 0, args)
  {
    Places(d);
    var f, j := Written(d), FlagsEnd(d);
    Kinds(f[j]);
    assert d.width != "" ==> f[j..WidthEnd(d)][0] == f[j];
    assert d.size != "" ==> f[PrecisionEnd(d)..SizeEnd(d)][0] == f[PrecisionEnd(d)];
    RunsEnd(f, 1, j);
    hide Written, Width, FlagsIn, FlagRun, IsFlag;
  }

  lemma {:induction false} ReadsWidth(d: Spec, flags: Flags, args: seq<Arg>)
    requires Readable(d)
    ensures FlagsEnd(d) <= |Written(d)| && WidthEnd(d) <= |Written(d)|
    ensures Width(Written(d), FlagsEnd(d), flags, 0, args) == Point(Written(d), WidthEnd(d), flags, Denoted(d.width, 10), args)
  {
    Places(d);
    var f, j := Written(d), WidthEnd(d);
    Kinds(f[j]);
    assert d.size != "" ==> f[PrecisionEnd(d)..SizeEnd(d)][0] == f[PrecisionEnd(d)];
    RunsEnd(f, FlagsEnd(d), j);
    DecimalIs(d.width);
    hide Written, Point, Denoted, DigitRun, IsDigit, Decimal;
  }

  lemma {:induction false} ReadsPrecision(d: Spec, flags: Flags, min: int, args: seq<Arg>)
    requires Readable(d)
    ensures WidthEnd(d) <= |Written(d)| && PrecisionEnd(d) <= |Written(d)|
    ensures Point(Written(d), WidthEnd(d), flags, min, args)
      == Modifier(Written(d), PrecisionEnd(d), flags, min, PrecisionOf(d), args)
  {
    var f, i, j := Written(d), WidthEnd(d), PrecisionEnd(d);
    PointPlaces(d);
    PrecisionIs(d);
    hide *;
    if d.point {
      WithPoint(f, i, j, flags, min, d.precision, args);
    } else {
      Printers.PointStep(f, i, flags, min, args);
    }
  }

  lemma {:induction false} WithPoint(f: string, i: nat, j: nat, flags: Flags, min: int, precision: string, args: seq<Arg>)
    requires i < j < |f| && f[i] == '.' && f[i + 1..j] == precision && AllDecimal(precision) && f[j] != '*' && !IsDigit(f[j])
    ensures Point(f, i, flags, min, args)
      == Modifier(f, j, flags, min, if precision != "" then Denoted(precision, 10) else -1, args)
  {
    hide *;
    RunsEnd(f, i + 1, j);
    DecimalIs(precision);
    PrecisionRead(f, i + 1, j, flags, min, args);
    Printers.PointStep(f, i, flags, min, args);
    assert i + 1 < j <==> precision != "";
  }

  lemma {:induction false} PrecisionIs(d: Spec)
    ensures PrecisionOf(d) == if d.point && d.precision != "" then Denoted(d.precision, 10) else -1
  {
    hide Denoted;
  }

  lemma {:induction false} PointPlaces(d: Spec)
    requires Readable(d)
    ensures var f, i, j := Written(d), WidthEnd(d), PrecisionEnd(d);
      && i <= j < |f| && f[j] != '*' && !IsDigit(f[j]) && (f[i] == '.' <==> d.point) && AllDecimal(d.precision)
      && (if d.point then i < j && f[i + 1..j] == d.precision else i == j)
  {
    Places(d);
    Kinds(Written(d)[PrecisionEnd(d)]);
    assert d.size != "" ==> Written(d)[PrecisionEnd(d)..SizeEnd(d)][0] == Written(d)[PrecisionEnd(d)];
    hide Written, IsDigit, FlagsEnd, WidthEnd;
  }

  lemma {:induction false} PrecisionRead(f: string, i: nat, j: nat, flags: Flags, min: int, args: seq<Arg>)
    requires i <= j < |f| && DigitRun(f, i) == j && f[j] != '*'
    ensures Precision(f, i, flags, min, -1, args)
      == Modifier(f, j, flags, min, if i < j then Decimal(0, f[i..j]) else -1, args)
  {
    hide DigitRun, Modifier, Decimal;
  }

  lemma {:induction false} ReadsConversion(d: Spec, flags: Flags, min: int, max: int, arg: Arg)
    requires Readable(d)
    ensures PrecisionEnd(d) <= |Written(d)|
    ensures Modifier(Written(d), PrecisionEnd(d), flags, min, max, [arg])
      == Converted(d.conversion, flags, min, max, SizeNamed(d.size), [arg])
  {
    var f, i, j := Written(d), PrecisionEnd(d), SizeEnd(d);
    SizeRead(d);
    hide *;
    ConvertsLast(f, j, flags, min, max, SizeNamed(d.size), arg);
    ModifierRead(f, i, j, flags, min, max, SizeNamed(d.size), [arg]);
  }

  lemma {:induction false} SizeRead(d: Spec)
    requires Readable(d)
    ensures var f, i, j := Written(d), PrecisionEnd(d), SizeEnd(d);
      && i <= j && |f| == j + 1 && f[j] == d.conversion && d.conversion in "diouxXcsp"
      && SizeOf(f[i]) == SizeNamed(d.size) && j == if SizeNamed(d.size) == NoSize then i else i + 1
  {
    Places(d);
    Kinds(Written(d)[PrecisionEnd(d)]);
    assert d.size != "" ==> Written(d)[PrecisionEnd(d)..SizeEnd(d)][0] == Written(d)[PrecisionEnd(d)];
    hide Written, SizeOf, FlagsEnd, WidthEnd, PrecisionEnd;
  }

  lemma {:induction false} ModifierRead(f: string, i: nat, j: nat, flags: Flags, min: int, max: int, size: Size, args: seq<Arg>)
    requires i <= j < |f| && SizeOf(f[i]) == size && j == if size == NoSize then i else i + 1
    ensures Modifier(f, i, flags, min, max, args) == Conversion(f, j, flags, min, max, size, args)
  {
    hide SizeOf, Conversion;
  }

  /** The conversion is the last character, and uses the argument. */
  lemma {:induction false} ConvertsLast(f: string, j: nat, flags: Flags, min: int, max: int, size: Size, arg: Arg)
    requires |f| == j + 1 && f[j] in "diouxXcsp"
    ensures Conversion(f, j, flags, min, max, size, [arg]) == Converted(f[j], flags, min, max, size, [arg])
  {
    assert [arg][1..] == [];
    assert Expand(f, j + 1, []) == Printed("");
    var o := Converted(f[j], flags, min, max, size, [arg]);
    assert o.Printed? ==> o.text + "" == o.text;
    hide Converted, Expand;
  }

  /** A directive alone, with its argument. */
  lemma {:induction false} DirectiveIs(d: Spec, arg: Arg)
    requires Readable(d)
    ensures Expand(Written(d), 0, [arg])
      == Converted(d.conversion, Flags('-' in d.flags, '+' in d.flags, ' ' in d.flags, '#' in d.flags, '0' in d.flags),
                   Denoted(d.width, 10), PrecisionOf(d), SizeNamed(d.size), [arg])
  {
    var flags := Flags('-' in d.flags, '+' in d.flags, ' ' in d.flags, '#' in d.flags, '0' in d.flags);
    hide *;
    ReadsFlags(d, [arg]);
    FlagsSet(d.flags);
    ReadsWidth(d, flags, [arg]);
    ReadsPrecision(d, flags, Denoted(d.width, 10), [arg]);
    ReadsConversion(d, flags, Denoted(d.width, 10), PrecisionOf(d), arg);
  }

  /** What is no directive is printed as it is, and `%%` as one character. */
  lemma {:induction false} TextIsPrinted(f: string, i: nat, args: seq<Arg>)
    requires i <= |f| && '%' !in f[i..]
    ensures Expand(f, i, args) == Printed(f[i..])
    decreases |f| - i
  {
    if i < |f| {
      assert f[i] == f[i..][0] && f[i + 1..] == f[i..][1..];
      TextIsPrinted(f, i + 1, args);
      assert [f[i]] + f[i + 1..] == f[i..];
    }
  }

  /** A conversion uses one argument, and what follows it those after that; `%%` uses none. */
  lemma {:induction false} ArgumentsAreUsed(f: string, i: nat, flags: Flags, min: int, max: int, size: Size, arg: Arg, more: seq<Arg>)
    requires i < |f|
    ensures f[i] == 'd' || f[i] == 'i' || f[i] == 'o' || f[i] == 'u' || f[i] == 'x' || f[i] == 'X' || f[i] == 'c' || f[i] == 's' || f[i] == 'p' ==>
      var o := Converted(f[i], flags, min, max, size, [arg] + more);
      Conversion(f, i, flags, min, max, size, [arg] + more) == if o.Undefined? then o else Prepend(o.text, Expand(f, i + 1, more))
    ensures f[i] == '%' ==> Conversion(f, i, flags, min, max, size, more) == Prepend("%", Expand(f, i + 1, more))
  {
    assert ([arg] + more)[1..] == more && more[0..] == more;
    hide Expand, Int, Str;
  }

  // --------------------------------------------------------- directives of numbers

  predicate IsSigned(d: Spec) { d.conversion == 'd' || d.conversion == 'i' }

  predicate IsInteger(d: Spec) {
    IsSigned(d) || d.conversion == 'o' || d.conversion == 'u' || d.conversion == 'x' || d.conversion == 'X'
  }

  function BaseOf(d: Spec): (b: nat)
    ensures 2 <= b <= 16
  {
    if d.conversion == 'o' then 8 else if d.conversion == 'x' || d.conversion == 'X' then 16 else 10
  }

  /** The number that is printed: of a signed conversion the absolute value, of an unsigned one
      the argument modulo 2^32, or modulo 2^64 if `l` was given, or `h`, which passes an `int`. */
  function AmountOf(d: Spec, v: int): nat {
    if IsSigned(d) then if v < 0 then -v else v
    else if d.size == "l" || d.size == "h" then v % 0x1_0000_0000_0000_0000
    else v % 0x1_0000_0000
  }

  /** Every directive of an integer, with every argument. */
  lemma {:induction false} IntegerIs(d: Spec, v: int) returns (p: Parts)
    requires Readable(d) && IsInteger(d) && IsLong(v)
    ensures Expand(Written(d), 0, [IntArg(v)]) == Printed(Whole(p))
    ensures Proper(p, v < 0, BaseOf(d), Flags('-' in d.flags, '+' in d.flags, ' ' in d.flags, '#' in d.flags, '0' in d.flags),
                   !IsSigned(d), d.conversion == 'X', Denoted(d.width, 10), PrecisionOf(d))
    ensures Denoted(p.digits, BaseOf(d)) == AmountOf(d, v) <==> AmountOf(d, v) < Power(BaseOf(d), 19)
    ensures AmountOf(d, v) < Power(BaseOf(d), 19) && |p.digits| > 1 ==> p.digits[0] != '0'
  {
    var flags := Flags('-' in d.flags, '+' in d.flags, ' ' in d.flags, '#' in d.flags, '0' in d.flags);
    var u := IntValue(v, !IsSigned(d), SizeNamed(d.size));
    DirectiveIs(d, IntArg(v));
    ConvertsInt(d, v, flags, Denoted(d.width, 10), PrecisionOf(d));
    AmountFits(d, v);
    hide *;
    BaseIs(d);
    p := IntIs(u, BaseOf(d), flags, !IsSigned(d), d.conversion == 'X', Denoted(d.width, 10), PrecisionOf(d));
    SameProper(p, u, v, BaseOf(d), flags, !IsSigned(d), d.conversion == 'X', Denoted(d.width, 10), PrecisionOf(d));
  }

  lemma {:induction false} BaseIs(d: Spec)
    ensures 2 <= BaseOf(d) <= 16
  {
  }

  lemma {:induction false} SameProper(p: Parts, u: int, v: int, base: nat, flags: Flags, unsigned: bool, upper: bool, min: int, max: int)
    requires Proper(p, u < 0, base, flags, unsigned, upper, min, max) && (unsigned || u == v)
    ensures Proper(p, v < 0, base, flags, unsigned, upper, min, max)
  {
    hide All, DigitsOnly, Fits;
  }

  lemma {:induction false} ConvertsInt(d: Spec, v: int, flags: Flags, min: int, max: int)
    requires IsInteger(d)
    ensures Converted(d.conversion, flags, min, max, SizeNamed(d.size), [IntArg(v)])
      == Printed(Int(IntValue(v, !IsSigned(d), SizeNamed(d.size)), BaseOf(d), flags, !IsSigned(d), d.conversion == 'X', min, max))
  {
    hide Int, IntValue, SizeNamed;
  }

  lemma {:induction false} AmountFits(d: Spec, v: int)
    requires Readable(d) && IsInteger(d) && IsLong(v)
    ensures var u := IntValue(v, !IsSigned(d), SizeNamed(d.size));
      && (IsSigned(d) ==> u == v && IsLong(u)) && Amount(u, !IsSigned(d)) == AmountOf(d, v)
  {
  }

  lemma {:induction false} TenPower()
    ensures Power(10, 19) == 10_000_000_000_000_000_000
  {
    assert Power(10, 4) == 10_000;
    PowerStep(10, 4, 10_000);
    PowerStep(10, 8, 100_000_000);
    PowerStep(10, 12, 1_000_000_000_000);
    PowerStep(10, 16, 10_000_000_000_000_000);
    assert Power(10, 19) == 10 * 10 * 10 * Power(10, 16);
  }

  lemma {:induction false} PowerStep(b: nat, n: nat, p: nat)
    requires b == 10 && Power(b, n) == p
    ensures Power(b, n + 4) == 10_000 * p
  {
    PowerIs(b, n + 1);
    PowerIs(b, n + 2);
    PowerIs(b, n + 3);
    PowerIs(b, n + 4);
    hide *;
  }

  /** `%d` and `%i` of any `long`: the digits denote its absolute value. */
  lemma {:induction false} SignedIs(d: Spec, v: int) returns (p: Parts)
    requires Readable(d) && IsSigned(d) && IsLong(v)
    ensures Expand(Written(d), 0, [IntArg(v)]) == Printed(Whole(p))
    ensures Proper(p, v < 0, 10, Flags('-' in d.flags, '+' in d.flags, ' ' in d.flags, '#' in d.flags, '0' in d.flags),
                   false, false, Denoted(d.width, 10), PrecisionOf(d))
    ensures Denoted(p.digits, 10) == (if v < 0 then -v else v) && (|p.digits| > 1 ==> p.digits[0] != '0')
  {
    p := IntegerIs(d, v);
    TenPower();
    hide Power, Written, Expand, Proper, Denoted;
  }

  /** `%s`, with or without a string. */
  lemma {:induction false} StringIs(d: Spec, v: Option<string>) returns (left: string, shown: string, right: string)
    requires Readable(d) && d.conversion == 's'
    ensures Expand(Written(d), 0, [StrArg(v)]) == Printed(left + shown + right) && All(left, ' ') && All(right, ' ')
    ensures var s, max := (if v.Some? then v.value else "<NULL>"), PrecisionOf(d);
      shown <= s && |shown| == if 0 <= max < |s| then max else |s|
    ensures |left + shown + right| == if |shown| < Denoted(d.width, 10) then Denoted(d.width, 10) else |shown|
    ensures if '-' in d.flags then left == "" else right == ""
  {
    var flags := Flags('-' in d.flags, '+' in d.flags, ' ' in d.flags, '#' in d.flags, '0' in d.flags);
    DirectiveIs(d, StrArg(v));
    ConvertsStr(flags, Denoted(d.width, 10), PrecisionOf(d), SizeNamed(d.size), v);
    hide *;
    left, shown, right := StrIs(v, flags, Denoted(d.width, 10), PrecisionOf(d));
  }

  lemma {:induction false} ConvertsStr(flags: Flags, min: int, max: int, size: Size, v: Option<string>)
    ensures Converted('s', flags, min, max, size, [StrArg(v)]) == Printed(Str(v, flags, min, max))
  {
    hide Str;
  }

  /** The directives that the library uses most, on what they are given. */
  lemma {:induction false} MinusFiveIsPrinted()
    ensures Expand("%d", 0, [IntArg(-5)]) == Printed("-5")
  {
    var d, flags := Spec("", "", false, "", "", 'd'), Flags(false, false, false, false, false);
    FiveSpec(d);
    hide *;
    DirectiveIs(d, IntArg(-5));
    ConvertsInt(d, -5, flags, 0, -1);
    FiveIs(flags);
  }

  lemma {:induction false} FiveSpec(d: Spec)
    requires d == Spec("", "", false, "", "", 'd')
    ensures Written(d) == "%d" && Readable(d) && PrecisionOf(d) == -1 && Denoted("", 10) == 0
    ensures IsInteger(d) && IsSigned(d) && BaseOf(d) == 10 && IntValue(-5, false, SizeNamed(d.size)) == -5
  {
  }

  lemma {:induction false} FiveIs(flags: Flags)
    requires flags == Flags(false, false, false, false, false)
    ensures Int(-5, 10, flags, false, false, 0, -1) == "-5"
  {
    AmountIs(-5, false);
    LastDigit(5, 10, false);
    DigitIs(5, false);
    DigitsAre(5, 10, false);
    assert Digits(5, 10, false) == "5" && Sign(-5, flags, false) == "-";
    hide Digits, Sign, Number, AllDigits, DigitChar;
    Assembled("5", "-", flags, 0, -1);
    assert Times(' ', 0) == "" && Times('0', 0) == "";
  }

  /** A width of ten that is not reached: with the flag `0` and a precision of four, seven
      characters are printed. */
  lemma {:induction false} WidthIsMissed()
    ensures Expand("%010.4d", 0, [IntArg(7)]) == Printed("0000007")
  {
    var d, flags := Spec("0", "10", true, "4", "", 'd'), Flags(false, false, false, false, true);
    WideSpec(d);
    hide *;
    TenAndFour();
    DirectiveIs(d, IntArg(7));
    ConvertsInt(d, 7, flags, 10, 4);
    SevenIs(flags);
  }

  lemma {:induction false} WideSpec(d: Spec)
    requires d == Spec("0", "10", true, "4", "", 'd')
    ensures Written(d) == "%010.4d" && Readable(d) && PrecisionOf(d) == Denoted("4", 10)
    ensures IsInteger(d) && IsSigned(d) && BaseOf(d) == 10 && IntValue(7, false, SizeNamed(d.size)) == 7
    ensures Flags('-' in "0", '+' in "0", ' ' in "0", '#' in "0", '0' in "0") == Flags(false, false, false, false, true)
  {
    hide Denoted;
  }

  lemma {:induction false} TenAndFour()
    ensures Denoted("10", 10) == 10 && Denoted("4", 10) == 4
  {
    DenotedAppend("", '1', 10);
    DenotedAppend("1", '0', 10);
    DenotedAppend("", '4', 10);
    assert "" + ['1'] == "1" && "1" + ['0'] == "10" && "" + ['4'] == "4";
    assert Denoted("", 10) == 0;
    hide Denoted;
  }

  lemma {:induction false} SevenIs(flags: Flags)
    requires flags == Flags(false, false, false, false, true)
    ensures Int(7, 10, flags, false, false, 10, 4) == "0000007"
  {
    AmountIs(7, false);
    LastDigit(7, 10, false);
    DigitIs(7, false);
    DigitsAre(7, 10, false);
    assert Digits(7, 10, false) == "7" && Sign(7, flags, false) == "";
    hide Digits, Sign, Number, AllDigits, DigitChar;
    Assembled("7", "", flags, 10, 4);
    assert Times('0', 6) == "000000";
  }

  lemma {:induction false} TextOfStringIsPrinted(s: string)
    ensures Expand("%s", 0, [StrArg(Some(s))]) == Printed(s)
  {
    var d := Spec("", "", false, "", "", 's');
    assert Written(d) == "%s";
    var left, shown, right := StringIs(d, Some(s));
  }
}
