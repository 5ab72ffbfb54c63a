/** Writing numbers as text and reading them back: the integer and string conversions of printf, and
    strtoul and strtol. */
module Numbers {
  import opened Seqs

  const INTLEN := 23
  const PADCHUNK := 8
  /** Unsigned numbers of 32 and of 64 bits wrap around at these. */
  const UINT := 0x1_0000_0000
  const ULONG := 0x1_0000_0000_0000_0000

  /** `_p_d2a` */
  function D2a(d: int, upper: bool): char
    requires 0 <= d < 36
  {
    if d < 10 then '0' + d as char else if upper then 'A' + (d - 10) as char else 'a' + (d - 10) as char
  }

  /** `_p_a2d` */
  function A2d(c: char): int {
    if '0' <= c <= '9' then c as int - '0' as int
    else if 'a' <= c <= 'z' then c as int - 'a' as int + 10
    else if 'A' <= c <= 'Z' then c as int - 'A' as int + 10
    else -1
  }

  lemma DigitRead(d: int, upper: bool)
    requires 0 <= d < 36
    ensures A2d(D2a(d, upper)) == d
  {
  }

  /** The digits of a number, none for zero. */
  function Digits(num: nat, base: nat, upper: bool): string
    requires 2 <= base <= 36
    decreases num
  {
    if num == 0 then "" else Digits(Shorter(num, base), base, upper) + [D2a(num % base, upper)]
  }

  function Shorter(num: nat, base: nat): (r: nat)
    requires base >= 2
    ensures num > 0 ==> r < num
  {
    Shrinks(num, base, num / base, num % base);
    num / base
  }

  lemma Shrinks(num: nat, base: nat, q: nat, r: nat)
    requires base >= 2 && num == base * q + r
    ensures num > 0 ==> q < num
  {
    Times(q, 2, base);
  }

  /** The number a text of digits stands for. */
  function Value(s: string, base: nat): int {
    if s == "" then 0 else Value(s[..|s| - 1], base) * base + A2d(s[|s| - 1])
  }

  lemma Divided(num: nat, base: nat)
    requires base >= 2
    ensures num == Shorter(num, base) * base + num % base && 0 <= num % base < base
  {
  }

  lemma ValueAdd(s: string, c: char, base: nat)
    ensures Value(s + [c], base) == Value(s, base) * base + A2d(c)
  {
    assert (s + [c])[..|s|] == s;
  }

  lemma {:induction false} DigitsValue(num: nat, base: nat, upper: bool)
    requires 2 <= base <= 36
    ensures Value(Digits(num, base, upper), base) == num
    ensures forall i :: 0 <= i < |Digits(num, base, upper)| ==> 0 <= A2d(Digits(num, base, upper)[i]) < base
    decreases num
  {
    hide Value, A2d, D2a, Shorter;
    if num == 0 {
      assert Value("", base) == 0 by { EmptyValue(base); }
    } else {
      Divided(num, base);
      Reduced(num, base);
      var front, c := Digits(Shorter(num, base), base, upper), D2a(num % base, upper);
      DigitsValue(Shorter(num, base), base, upper);
      DigitRead(num % base, upper);
      ValueAdd(front, c, base);
      assert Digits(num, base, upper) == front + [c];
    }
  }

  lemma EmptyValue(base: nat)
    ensures Value("", base) == 0
  {
  }

  lemma Reduced(num: nat, base: nat)
    requires base >= 2 && num > 0
    ensures Shorter(num, base) < num
  {
  }

  function Pow(base: nat, n: nat): (r: nat)
    ensures base > 0 ==> r > 0
  {
    if n == 0 then 1 else base * Pow(base, n - 1)
  }

  lemma {:induction false} DigitsFit(num: nat, base: nat, upper: bool, n: nat)
    requires 2 <= base <= 36 && num < Pow(base, n)
    ensures |Digits(num, base, upper)| <= n
    decreases n
  {
    if num > 0 {
      assert num / base < Pow(base, n - 1) by {
        if num / base >= Pow(base, n - 1) { Times(base, Pow(base, n - 1), num / base); }
      }
      DigitsFit(Shorter(num, base), base, upper, n - 1);
    }
  }

  lemma Times(a: nat, b: nat, c: nat)
    requires b <= c
    ensures a * b <= a * c
  {
  }

  /** The digits of any 64-bit number fit the buffer, in every base from octal up. */
  lemma BufferSuffices(num: nat, base: nat, upper: bool)
    requires num < ULONG && 8 <= base <= 36
    ensures |Digits(num, base, upper)| <= INTLEN - 1
  {
    PowOfEight();
    PowGrows(8, base, INTLEN - 1);
    DigitsFit(num, base, upper, INTLEN - 1);
  }

  lemma PowOfEight()
    ensures Pow(8, 22) == 0x4_0000_0000_0000_0000
  {
    assert Pow(8, 4) == 0x1000;
    assert Pow(8, 8) == 0x100_0000;
    assert Pow(8, 12) == 0x10_0000_0000;
    assert Pow(8, 16) == 0x1_0000_0000_0000;
    assert Pow(8, 20) == 0x1000_0000_0000_0000;
  }

  lemma {:induction false} PowGrows(a: nat, b: nat, n: nat)
    requires a <= b
    ensures Pow(a, n) <= Pow(b, n)
  {
    if n > 0 {
      PowGrows(a, b, n - 1);
      Times(a, Pow(a, n - 1), Pow(b, n - 1));
      Times(Pow(b, n - 1), a, b);
    }
  }

  lemma LastDigit(num: nat, base: nat, upper: bool)
    requires 2 <= base <= 36 && num > 0
    ensures Digits(num, base, upper) == Digits(Shorter(num, base), base, upper) + [D2a(num % base, upper)]
  {
  }

  lemma NoDigits(base: nat, upper: bool)
    requires 2 <= base <= 36
    ensures Digits(0, base, upper) == ""
  {
  }

  /** `_p_ui2a` and `_p_ull2a`: the digits are written from the end backwards. */
  method U2a(num: nat, buf: array<char>, end: int, upper: bool, base: nat) returns (start: int, len: int)
    requires 2 <= base <= 36 && |Digits(num, base, upper)| <= end + 1 <= buf.Length
    modifies buf
    ensures len == |Digits(num, base, upper)| && start == end + 1 - len
    ensures buf[start..end + 1] == Digits(num, base, upper)
    ensures forall i :: 0 <= i < buf.Length && !(start <= i <= end) ==> buf[i] == old(buf[i])
  {
    hide Value, D2a, Digits, Shorter;
    var n: nat := num;
    var cur := end;
    while n != 0
      invariant -1 <= cur <= end && |Digits(n, base, upper)| <= cur + 1
      invariant Digits(num, base, upper) == Digits(n, base, upper) + buf[cur + 1..end + 1]
      invariant forall i :: 0 <= i < buf.Length && !(cur < i <= end) ==> buf[i] == old(buf[i])
      decreases n
    {
      LastDigit(n, base, upper);
      ghost var shorter, digit, tail := Digits(Shorter(n, base), base, upper), D2a(n % base, upper), buf[cur + 1..end + 1];
      buf[cur] := D2a(n % base, upper);
      assert buf[cur..end + 1] == [digit] + tail;
      assert (shorter + [digit]) + tail == shorter + ([digit] + tail);
      cur := cur - 1;
      n := Shorter(n, base);
    }
    NoDigits(base, upper);
    return cur + 1, end - cur;
  }

  /** Masking and shifting a number that is not negative. */
  function Masked(num: nat, shift: nat): (r: nat)
    ensures r < Pow(2, shift) && r == num % Pow(2, shift)
  {
    num % Pow(2, shift)
  }

  /** `_p_ui2ab` and `_p_ull2ab`, for a base that is a power of two. */
  method U2ab(num: nat, buf: array<char>, end: int, upper: bool, shift: nat) returns (start: int, len: int)
    requires 2 <= Pow(2, shift) <= 36
    requires |Digits(num, Pow(2, shift), upper)| <= end + 1 <= buf.Length
    modifies buf
    ensures len == |Digits(num, Pow(2, shift), upper)| && start == end + 1 - len
    ensures buf[start..end + 1] == Digits(num, Pow(2, shift), upper)
    ensures forall i :: 0 <= i < buf.Length && !(start <= i <= end) ==> buf[i] == old(buf[i])
  {
    hide Value, D2a, Digits, Pow, Shorter, Masked;
    ghost var base: nat := Pow(2, shift);
    var n: nat := num;
    var cur := end;
    while n != 0
      invariant -1 <= cur <= end && |Digits(n, base, upper)| <= cur + 1
      invariant Digits(num, base, upper) == Digits(n, base, upper) + buf[cur + 1..end + 1]
      invariant forall i :: 0 <= i < buf.Length && !(cur < i <= end) ==> buf[i] == old(buf[i])
      decreases n
    {
      LastDigit(n, base, upper);
      ghost var shorter, digit, tail := Digits(Shorter(n, base), base, upper), D2a(n % base, upper), buf[cur + 1..end + 1];
      buf[cur] := D2a(Masked(n, shift), upper);
      assert buf[cur..end + 1] == [digit] + tail;
      assert (shorter + [digit]) + tail == shorter + ([digit] + tail);
      cur := cur - 1;
      n := Shorter(n, Pow(2, shift));
    }
    NoDigits(base, upper);
    return cur + 1, end - cur;
  }

  /* ---------- printf ---------- */

  /** A conversion specification.  For the bases that are powers of two, base is the number of bits. */
  datatype Pf = Pf(minus: bool, plus: bool, space: bool, hash: bool, zero: bool, upper: bool,
                   unsigned: bool, binary: bool, base: nat, width: int, precision: int, longness: int)

  ghost predicate Conversion(pf: Pf, num: int) {
    && (if pf.binary then pf.base == 3 || pf.base == 4 else pf.base == 10)
    && -0x8000_0000_0000_0000 <= num < 0x8000_0000_0000_0000
  }

  function Base(pf: Pf): nat {
    if !pf.binary then pf.base else if pf.base == 3 then 8 else 16
  }

  function Max(a: int, b: int): int { if a >= b then a else b }

  function Repeat(c: char, n: int): (r: string)
    ensures |r| == Max(n, 0) && forall i :: 0 <= i < |r| ==> r[i] == c
  {
    seq(Max(n, 0), i => c)
  }

  /** The number as an unsigned 64-bit one, without its sign. */
  function Unsigned(pf: Pf, num: int): (r: nat)
    requires Conversion(pf, num)
    ensures r < ULONG
  {
    if num >= 0 then num else if pf.unsigned then num + ULONG else -num
  }

  /** What is shown of it: 32 bits unless the conversion is long. */
  function Shown(pf: Pf, num: int): (r: nat)
    requires Conversion(pf, num)
    ensures r < ULONG
  {
    if pf.longness >= 2 then Unsigned(pf, num) else Unsigned(pf, num) % UINT
  }

  function Text(pf: Pf, num: int): string
    requires Conversion(pf, num)
  {
    Digits(Shown(pf, num), Base(pf), pf.upper)
  }

  function Sign(pf: Pf, num: int): string {
    if pf.unsigned then "" else if num < 0 then "-" else if pf.plus then "+" else if pf.space then " " else ""
  }

  function Prefix(pf: Pf, num: int): string {
    if pf.binary && pf.base == 4 && pf.hash && num != 0 then if pf.upper then "0X" else "0x" else ""
  }

  /** How many digits to show at least: the precision, or 1; alternate octal wants a leading zero. */
  function Least(pf: Pf, num: int): int
    requires Conversion(pf, num)
  {
    if pf.binary && pf.base == 3 && pf.hash && num != 0 && pf.precision <= |Text(pf, num)| then |Text(pf, num)| + 1
    else if pf.precision < 0 then 1 else pf.precision
  }

  /** The number without padding to the width. */
  function Bare(pf: Pf, num: int): string
    requires Conversion(pf, num)
  {
    Sign(pf, num) + Prefix(pf, num) + Repeat('0', Least(pf, num) - |Text(pf, num)|) + Text(pf, num)
  }

  /** The number in its field: blanks after it, zeros after sign and prefix, or blanks before it. */
  function Formatted(pf: Pf, num: int): string
    requires Conversion(pf, num)
  {
    var gap := pf.width - |Bare(pf, num)|;
    if pf.minus then Bare(pf, num) + Repeat(' ', gap)
    else if pf.zero && pf.precision < 0 then
      Sign(pf, num) + Prefix(pf, num) + Repeat('0', gap) + Repeat('0', Least(pf, num) - |Text(pf, num)|) + Text(pf, num)
    else Repeat(' ', gap) + Bare(pf, num)
  }

  lemma FormattedLength(pf: Pf, num: int)
    requires Conversion(pf, num)
    ensures |Formatted(pf, num)|
         == Max(pf.width, |Sign(pf, num)| + |Prefix(pf, num)| + Max(Least(pf, num), |Text(pf, num)|))
  {
    hide Repeat, Sign, Prefix, Least, Text, Digits;
  }

  /** A string argument: a null pointer, or a text with a NUL in it. */
  datatype Str = Null | Str(text: string)

  function TextOf(str: Str): string {
    if str.Null? then "(null)\0" else str.text
  }

  function StrLen(text: string): (n: nat)
    requires '\0' in text
    ensures n < |text| && text[n] == '\0' && forall i :: 0 <= i < n ==> text[i] != '\0'
  {
    if text[0] == '\0' then 0 else 1 + StrLen(text[1..])
  }

  /** What a string conversion shows: a precision cuts the string short. */
  function Cut(text: string, precision: int): string
    requires '\0' in text
  {
    if 0 <= precision < StrLen(text) then text[..precision] else text[..StrLen(text)]
  }

  /** s in a field of the given width. */
  function InField(s: string, width: int, minus: bool): string {
    if minus then s + Repeat(' ', width - |s|) else Repeat(' ', width - |s|) + s
  }

  /** The parts of a number laid out as the code prints them. */
  function LaidOut(minus: bool, spad: int, sign: string, hex: string, zpad: int, digits: string): string {
    (if minus then "" else Repeat(' ', spad)) + sign + hex + Repeat('0', zpad) + digits + (if minus then Repeat(' ', spad) else "")
  }

  lemma NoRepeat(c: char, n: int)
    requires n <= 0
    ensures Repeat(c, n) == ""
  {
  }

  /** The two paddings that the code computes give the field that is wanted. */
  lemma LayoutIsFormatted(pf: Pf, num: int, zpad: int, spad: int)
    requires Conversion(pf, num)
    requires var zeros, gap := Max(Least(pf, num) - |Text(pf, num)|, 0), Max(pf.width - |Bare(pf, num)|, 0);
             if pf.zero && pf.precision < 0 && !pf.minus then zpad == zeros + gap && spad == 0 else zpad == zeros && spad == gap
    ensures LaidOut(pf.minus, spad, Sign(pf, num), Prefix(pf, num), zpad, Text(pf, num)) == Formatted(pf, num)
  {
    hide Repeat, Sign, Prefix, Least, Text;
    var sign, hex, digits := Sign(pf, num), Prefix(pf, num), Text(pf, num);
    var zeros, gap := Least(pf, num) - |digits|, pf.width - |Bare(pf, num)|;
    RepeatAtLeast('0', gap, zeros);
    NoRepeat(' ', 0);
    NoRepeat('0', 0);
    if zeros <= 0 { NoRepeat('0', zeros); }
    if gap <= 0 { NoRepeat(' ', gap); }
    var front := if pf.minus then "" else Repeat(' ', spad);
    assert (front + sign + hex + Repeat('0', zpad) + digits) == front + (sign + hex + Repeat('0', zpad) + digits) by {
      Join(front, sign, hex);
      Join(front, sign + hex, Repeat('0', zpad));
      Join(front, sign + hex + Repeat('0', zpad), digits);
    }
    Join(sign + hex, Repeat('0', gap), Repeat('0', zeros));
  }

  class Printer {
    var out: string

    constructor ()
      ensures out == ""
    {
      out := "";
    }

    method Print(s: string)
      modifies this
      ensures out == old(out) + s
    {
      out := out + s;
    }

    /** `_p_pad`, in chunks of eight. */
    method Pad(c: char, padlen: int) returns (ret: int)
      modifies this
      ensures out == old(out) + Repeat(c, padlen) && ret == padlen
    {
      var left := padlen;
      while left >= PADCHUNK
        invariant left <= Max(padlen, left) && (padlen >= 0 ==> 0 <= left <= padlen) && (padlen < 0 ==> left == padlen)
        invariant out == old(out) + Repeat(c, padlen - left)
      {
        Print(Repeat(c, PADCHUNK));
        assert Repeat(c, padlen - left) + Repeat(c, PADCHUNK) == Repeat(c, padlen - (left - PADCHUNK));
        left := left - PADCHUNK;
      }
      if left > 0 {
        assert Repeat(c, padlen - left) + Repeat(c, left) == Repeat(c, padlen);
        Print(Repeat(c, left));
      }
      return padlen;
    }

    method Output(minus: bool, spadlen: int, sign: string, hex: string, zpadlen: int, digits: string)
      modifies this
      ensures out == old(out) + LaidOut(minus, spadlen, sign, hex, zpadlen, digits)
    {
      if !minus { var _ := Pad(' ', spadlen); }
      Print(sign);
      Print(hex);
      var _ := Pad('0', zpadlen);
      Print(digits);
      if minus { var _ := Pad(' ', spadlen); }
    }

    /** The number without its sign, and the sign to print. */
    method SplitSign(pf: Pf, num: int) returns (unum: nat, sign: string)
      requires Conversion(pf, num)
      ensures unum == Unsigned(pf, num) && sign == Sign(pf, num)
    {
      sign := "";
      if pf.unsigned {
        unum := if num < 0 then num + ULONG else num;
      } else if num < 0 {
        unum := -num;
        sign := "-";
      } else {
        unum := num;
        if pf.plus {
          sign := "+";
        } else if pf.space {
          sign := " ";
        }
      }
    }

    /** The four ways to get at the digits. */
    method Convert(pf: Pf, unum: nat, buf: array<char>) returns (start: int, len: int)
      requires (if pf.binary then pf.base == 3 || pf.base == 4 else pf.base == 10) && unum < ULONG && buf.Length == INTLEN
      modifies buf
      ensures 0 <= start <= start + len <= buf.Length
      ensures buf[start..start + len] == Digits(if pf.longness >= 2 then unum else unum % UINT, Base(pf), pf.upper)
    {
      hide Digits;
      PowersOfTwo();
      BufferSuffices(unum, Base(pf), pf.upper);
      BufferSuffices(unum % UINT, Base(pf), pf.upper);
      if pf.binary {
        if pf.longness >= 2 {
          start, len := U2ab(unum, buf, INTLEN - 2, pf.upper, pf.base);
        } else {
          start, len := U2ab(unum % UINT, buf, INTLEN - 2, pf.upper, pf.base);
        }
      } else {
        if pf.longness >= 2 {
          start, len := U2a(unum, buf, INTLEN - 2, pf.upper, pf.base);
        } else {
          start, len := U2a(unum % UINT, buf, INTLEN - 2, pf.upper, pf.base);
        }
      }
    }

    /** `_p_fmtint` */
    method FmtInt(pf: Pf, num: int) returns (r: int)
      requires Conversion(pf, num)
      modifies this
      ensures out == old(out) + Formatted(pf, num) && r == |Formatted(pf, num)|
    {
      hide Digits, Text, Repeat, Formatted, LaidOut;
      var unum, sign := SplitSign(pf, num);
      var hex := "";
      var buf := new char[INTLEN];
      var precision := if pf.precision < 0 then 1 else pf.precision;
      var start, len := Convert(pf, unum, buf);
      assert Text(pf, num) == buf[start..start + len] by { TextIs(pf, num); }
      if pf.binary && pf.hash && unum != 0 {
        if pf.base == 3 && pf.precision <= len {
          precision := len + 1;
        } else if pf.base == 4 {
          hex := if pf.upper then "0X" else "0x";
        }
      }
      var digits := buf[start..start + len];
      assert precision == Least(pf, num) && hex == Prefix(pf, num);
      FormattedLength(pf, num);
      if precision < len { precision := len; }
      var zpadlen := precision - len;
      var spadlen := pf.width - precision - |sign| - |hex|;
      if zpadlen < 0 { zpadlen := 0; }
      if spadlen < 0 { spadlen := 0; }
      if pf.zero && pf.precision < 0 && !pf.minus {
        zpadlen := zpadlen + spadlen;
        spadlen := 0;
      }
      LayoutIsFormatted(pf, num, zpadlen, spadlen);
      Output(pf.minus, spadlen, sign, hex, zpadlen, digits);
      return spadlen + zpadlen + len + |sign| + |hex|;
    }

    /** How much of a string is shown. */
    method ShownLength(text: string, precision: int) returns (len: nat)
      requires '\0' in text
      ensures len <= |text| && text[..len] == Cut(text, precision)
    {
      len := 0;
      if precision < 0 {
        len := StrLen(text);
      } else {
        while text[len] != '\0' && len < precision
          invariant 0 <= len <= StrLen(text) && len <= precision
          decreases precision - len
        {
          len := len + 1;
        }
      }
    }

    /** `_p_fmtstr` */
    method FmtStr(pf: Pf, str: Str) returns (r: int)
      requires str.Str? ==> '\0' in str.text
      modifies this
      ensures out == old(out) + InField(Cut(TextOf(str), pf.precision), pf.width, pf.minus)
      ensures r == Max(pf.width, |Cut(TextOf(str), pf.precision)|)
    {
      hide Repeat, Cut, TextOf;
      assert '\0' in TextOf(str) by { HasNul(str); }
      var text := TextOf(str);
      var len := ShownLength(text, pf.precision);
      var cut := text[..len];
      var padlen := pf.width - len;
      if padlen < 0 {
        NoRepeat(' ', padlen);
        NoRepeat(' ', 0);
        padlen := 0;
      }
      Join(out, cut, Repeat(' ', padlen));
      Join(out, Repeat(' ', padlen), cut);
      if pf.minus {
        Print(cut);
        var _ := Pad(' ', padlen);
      } else {
        var _ := Pad(' ', padlen);
        Print(cut);
      }
      return len + padlen;
    }
  }

  lemma HasNul(str: Str)
    requires str.Str? ==> '\0' in str.text
    ensures '\0' in TextOf(str)
  {
    if str.Null? { assert TextOf(str)[6] == '\0'; }
  }

  lemma PowersOfTwo()
    ensures Pow(2, 3) == 8 && Pow(2, 4) == 16
  {
    assert Pow(2, 2) == 4;
  }

  /* ---------- strtoul and strtol ---------- */

  /** How many characters at the front of s are digits with values up to limit. */
  function Span(s: string, limit: int): (n: nat)
    ensures n <= |s| && (forall i :: 0 <= i < n ==> 0 <= A2d(s[i]) <= limit)
    ensures n < |s| ==> !(0 <= A2d(s[n]) <= limit)
  {
    if s == "" || !(0 <= A2d(s[0]) <= limit) then 0 else 1 + Span(s[1..], limit)
  }

  lemma {:induction false} SpanIs(s: string, limit: int, n: nat)
    requires n <= |s| && (forall i :: 0 <= i < n ==> 0 <= A2d(s[i]) <= limit)
    requires n < |s| ==> !(0 <= A2d(s[n]) <= limit)
    ensures Span(s, limit) == n
  {
    if n > 0 { SpanIs(s[1..], limit, n - 1); }
  }

  /** What `strtoul` gives: a digit equal to the base counts, too. */
  function Strtoul(s: string, base: nat): (r: nat)
    ensures r < UINT
  {
    Value(s[..Span(s, base)], base) % UINT
  }

  /** What `strtol` gives: the same with a sign, in two's complement. */
  function Strtol(s: string, base: nat): int {
    if s != "" && s[0] == '-' then Signed(0 - Strtoul(s[1..], base) as int)
    else if s != "" && s[0] == '+' then Signed(Strtoul(s[1..], base))
    else Signed(Strtoul(s, base))
  }

  function Signed(n: int): (r: int)
    ensures -0x8000_0000 <= r < 0x8000_0000
  {
    if n % UINT < 0x8000_0000 then n % UINT else n % UINT - UINT
  }

  lemma {:induction false} WrapAdd(r: int, q: nat)
    requires 0 <= r < UINT
    ensures (r + q * UINT) % UINT == r
  {
    if q > 0 { WrapAdd(r, q - 1); }
  }

  /** Wrapping around at every digit is the same as wrapping around once. */
  lemma WrapEarly(n: nat, base: nat, d: nat)
    ensures (n % UINT * base + d) % UINT == (n * base + d) % UINT
  {
    var q, r := n / UINT, n % UINT;
    var x := r * base + d;
    var k, y := x / UINT, x % UINT;
    assert n * base + d == y + (k + q * base) * UINT by {
      assert n == q * UINT + r;
      assert (q * UINT + r) * base == q * base * UINT + r * base;
    }
    WrapAdd(y, k + q * base);
    WrapAdd(y, k);
  }

  /** `strtoul`: the number at start of a text that ends with a NUL, and where it stops. */
  method ReadUnsigned(s: string, start: nat, base: nat) returns (num: nat, end: nat)
    requires start < |s| && s[|s| - 1] == '\0'
    ensures num == Strtoul(s[start..], base) && end == start + Span(s[start..], base)
  {
    hide Value, Span;
    num := 0;
    end := start;
    ghost var text, k := s[start..], 0;
    assert Value(text[..0], base) == 0 by { NoValue(text, base); }
    while A2d(s[end]) >= 0
      invariant end == start + k && k < |text|
      invariant forall i :: 0 <= i < k ==> 0 <= A2d(text[i]) <= base
      invariant Value(text[..k], base) >= 0 && num == Value(text[..k], base) % UINT
      decreases |text| - k
    {
      var digit := A2d(s[end]);
      if digit > base { break; }
      NextDigit(text, k, base);
      WrapEarly(Value(text[..k], base), base, digit);
      num := (num * base + digit) % UINT;
      end := end + 1;
      k := k + 1;
    }
    SpanIs(text, base, k);
  }

  lemma NextDigit(s: string, k: nat, base: nat)
    requires k < |s|
    ensures Value(s[..k + 1], base) == Value(s[..k], base) * base + A2d(s[k])
  {
    assert s[..k + 1][..k] == s[..k];
  }

  lemma NoValue(s: string, base: nat)
    ensures Value(s[..0], base) == 0
  {
  }

  /** How many signs `strtol` reads: one or none. */
  function SignSpan(s: string): (r: nat)
    ensures r <= |s|
  {
    if s != "" && (s[0] == '-' || s[0] == '+') then 1 else 0
  }

  /** `strtol`: the number at start of a text that ends with a NUL, and where it stops. */
  method ReadSigned(s: string, start: nat, base: nat) returns (num: int, end: nat)
    requires start < |s| && s[|s| - 1] == '\0'
    ensures num == Strtol(s[start..], base)
    ensures var text := s[start..]; end == start + SignSpan(text) + Span(text[SignSpan(text)..], base)
  {
    hide Value, Span, Strtoul, Signed, Strtol;
    ghost var text := s[start..];
    assert text[0] == s[start];
    SignRead(text, base);
    var minus := false;
    var i := start;
    if s[i] == '-' {
      minus := true;
      i := i + 1;
    } else if s[i] == '+' {
      i := i + 1;
    }
    assert text[SignSpan(text)..] == s[i..];
    var n;
    n, end := ReadUnsigned(s, i, base);
    num := if minus then Signed(0 - n as int) else Signed(n);
  }

  lemma SignRead(text: string, base: nat)
    requires text != ""
    ensures var n := Strtoul(text[SignSpan(text)..], base); Strtol(text, base) == if text[0] == '-' then Signed(0 - n as int) else Signed(n)
  {
    hide Value, Span, Strtoul, Signed;
    assert text[0..] == text;
  }

  /** The usual reading of a number stops before a digit equal to the base.  This one reads the same
      text exactly when no such digit follows. */
  lemma ReadsAsUsual(s: string, base: nat)
    ensures Span(s, base) == Span(s, base - 1)
        <==> (Span(s, base - 1) < |s| ==> A2d(s[Span(s, base - 1)]) != base)
  {
    var n := Span(s, base - 1);
    if n < |s| && A2d(s[n]) == base {
    } else {
      SpanIs(s, base, n);
    }
  }

  lemma ReadsTooFar()
    ensures Span("18\0", 8) == 2 && Span("18\0", 7) == 1 && Strtoul("18\0", 8) == 16
  {
    SpanIs("18\0", 8, 2);
    SpanIs("18\0", 7, 1);
    NextDigit("18\0", 1, 8);
    NextDigit("18\0", 0, 8);
    NoValue("18\0", 8);
  }

  lemma {:induction false} LeadingZeros(n: int, digits: string, base: nat)
    ensures Value(Repeat('0', n) + digits, base) == Value(digits, base)
  {
    if digits != "" {
      var s := Repeat('0', n) + digits;
      assert s[..|s| - 1] == Repeat('0', n) + digits[..|digits| - 1];
      LeadingZeros(n, digits[..|digits| - 1], base);
    } else {
      assert Repeat('0', n) + digits == Repeat('0', n);
      Zeros(n, base);
    }
  }

  lemma {:induction false} Zeros(n: int, base: nat)
    ensures Value(Repeat('0', n), base) == 0
    decreases Max(n, 0)
  {
    if n > 0 {
      assert Repeat('0', n)[..n - 1] == Repeat('0', n - 1);
      Zeros(n - 1, base);
    }
  }

  /** Zeros and digits followed by something that is no digit are read as the number. */
  lemma DigitsRead(n: nat, zeros: int, base: nat, upper: bool, rest: string)
    requires 2 <= base <= 16 && n < UINT
    requires rest != "" && A2d(rest[0]) < 0
    ensures Strtoul(Repeat('0', zeros) + Digits(n, base, upper) + rest, base) == n
  {
    hide Value, Digits;
    var s := Repeat('0', zeros) + Digits(n, base, upper);
    DigitsValue(n, base, upper);
    LeadingZeros(zeros, Digits(n, base, upper), base);
    SpanIs(s + rest, base, |s|);
    assert (s + rest)[..|s|] == s;
  }

  /** A text that starts with a blank reads as zero. */
  lemma BlankRead(s: string, base: nat)
    requires s != "" && s[0] == ' '
    ensures Strtoul(s, base) == 0 && Strtol(s, base) == 0
  {
    SpanIs(s, base, 0);
    assert s[..0] == "";
  }

  /* ---------- Round trips ---------- */

  ghost predicate Blank(s: string) {
    s != "" && s[0] == ' '
  }

  /** Output that does not start with a blank is sign, prefix, zeros and digits, then blanks. */
  lemma OutputParts(pf: Pf, num: int) returns (zeros: int, rest: string)
    requires Conversion(pf, num) && !Blank(Formatted(pf, num))
    ensures rest != "" && A2d(rest[0]) < 0 && rest[0] != '+' && rest[0] != '-'
    ensures Formatted(pf, num) + "\0" == Sign(pf, num) + (Prefix(pf, num) + (Repeat('0', zeros) + Text(pf, num) + rest))
    ensures Sign(pf, num) != " "
  {
    hide Text, Digits, Least, Repeat, Prefix, Sign;
    WhenBlank(pf, num);
    var sign, hex, digits := Sign(pf, num), Prefix(pf, num), Text(pf, num);
    var gap := pf.width - |Bare(pf, num)|;
    var fill := Least(pf, num) - |digits|;
    if pf.minus {
      zeros, rest := fill, Repeat(' ', gap) + "\0";
      Regroup(sign, hex, Repeat('0', fill), digits, Repeat(' ', gap), "\0");
    } else if pf.zero && pf.precision < 0 {
      zeros, rest := Max(gap, 0) + Max(fill, 0), "\0";
      RepeatAtLeast('0', gap, fill);
      Regroup(sign, hex, Repeat('0', zeros), digits, "", "\0");
      Join(sign + hex, Repeat('0', gap), Repeat('0', fill));
    } else {
      zeros, rest := fill, "\0";
      NoRepeat(' ', gap);
      Regroup(sign, hex, Repeat('0', fill), digits, "", "\0");
      assert Formatted(pf, num) == Bare(pf, num);
    }
  }

  lemma WhenBlank(pf: Pf, num: int)
    requires Conversion(pf, num)
    ensures Sign(pf, num) == " " ==> Blank(Formatted(pf, num))
    ensures !pf.minus && !(pf.zero && pf.precision < 0) && pf.width > |Bare(pf, num)| ==> Blank(Formatted(pf, num))
  {
    hide Text, Digits, Least, Prefix, Sign;
  }

  lemma RepeatAtLeast(c: char, m: int, n: int)
    ensures Repeat(c, m) + Repeat(c, n) == Repeat(c, Max(m, 0) + Max(n, 0))
  {
  }

  lemma Regroup(a: string, b: string, c: string, d: string, e: string, f: string)
    ensures (a + b + c + d) + e + f == a + (b + (c + d + (e + f))) && (e == "" ==> e + f == f && (a + b + c + d) + e == a + b + c + d)
  {
    var s := c + d + (e + f);
    Join(a + b + c + d, e, f);
    Join(a + b, c, d);
    Join(a + b, c + d, e + f);
    Join(a, b, s);
  }

  /** `%d` and `strtol`: the number comes back exactly when it is zero or no blank precedes it. */
  lemma DecimalRoundTrip(pf: Pf, num: int)
    requires Conversion(pf, num) && !pf.binary && !pf.unsigned && pf.longness < 2
    requires -0x8000_0000 <= num < 0x8000_0000
    ensures Strtol(Formatted(pf, num) + "\0", 10) == num <==> num == 0 || !Blank(Formatted(pf, num))
  {
    hide Strtoul, Formatted, Text, Digits, Repeat;
    var s := Formatted(pf, num) + "\0";
    if Blank(Formatted(pf, num)) {
      BlankRead(s, 10);
    } else {
      var zeros, rest := OutputParts(pf, num);
      var tail := Repeat('0', zeros) + Text(pf, num) + rest;
      assert Shown(pf, num) == (if num < 0 then -num else num);
      assert Text(pf, num) == Digits(Shown(pf, num), 10, pf.upper) by { TextIs(pf, num); }
      DigitsRead(Shown(pf, num), zeros, 10, pf.upper, rest);
      assert Prefix(pf, num) == "" && Prefix(pf, num) + tail == tail;
      NoSign(Shown(pf, num), zeros, 10, pf.upper, rest);
      assert Sign(pf, num) != "" ==> s[1..] == tail && s[0] == Sign(pf, num)[0];
      assert Sign(pf, num) == "" ==> s == tail;
    }
  }

  lemma TextIs(pf: Pf, num: int)
    requires Conversion(pf, num)
    ensures Text(pf, num) == Digits(Shown(pf, num), Base(pf), pf.upper)
  {
  }

  lemma NoSign(n: nat, zeros: int, base: nat, upper: bool, rest: string)
    requires 2 <= base <= 36 && rest != "" && rest[0] != '+' && rest[0] != '-'
    ensures var s := Repeat('0', zeros) + Digits(n, base, upper) + rest; s[0] != '+' && s[0] != '-'
  {
    hide Digits, Value;
    var zs, digits := Repeat('0', zeros), Digits(n, base, upper);
    DigitsValue(n, base, upper);
    if zs != "" {
      assert (zs + digits + rest)[0] == zs[0];
    } else if digits != "" {
      assert (zs + digits + rest)[0] == digits[0] && A2d(digits[0]) >= 0;
    } else {
      assert zs + digits + rest == rest;
    }
  }

  /** `%x`, `%X`, `%o` and `strtoul`: the number comes back, as an unsigned one, exactly when it is
      zero or neither a blank nor a prefix precedes it. */
  lemma UnsignedRoundTrip(pf: Pf, num: int)
    requires Conversion(pf, num) && pf.binary && pf.unsigned && pf.longness < 2
    requires -0x8000_0000 <= num < 0x8000_0000
    ensures Strtoul(Formatted(pf, num) + "\0", Base(pf)) == num % UINT
        <==> num == 0 || (!Blank(Formatted(pf, num)) && Prefix(pf, num) == "")
  {
    hide Strtoul, Formatted, Text, Digits, Repeat;
    var s := Formatted(pf, num) + "\0";
    ShownIs(pf, num);
    if Blank(Formatted(pf, num)) {
      BlankRead(s, Base(pf));
    } else {
      var zeros, rest := OutputParts(pf, num);
      var tail := Repeat('0', zeros) + Text(pf, num) + rest;
      assert Sign(pf, num) == "" && s == Prefix(pf, num) + tail;
      TextIs(pf, num);
      if Prefix(pf, num) == "" {
        DigitsRead(Shown(pf, num), zeros, Base(pf), pf.upper, rest);
        assert s == tail;
      } else {
        PrefixRead(s);
      }
    }
  }

  lemma ShownIs(pf: Pf, num: int)
    requires Conversion(pf, num) && pf.unsigned && pf.longness < 2 && -0x8000_0000 <= num < 0x8000_0000
    ensures Shown(pf, num) == num % UINT && (num != 0 ==> num % UINT != 0)
  {
  }

  lemma PrefixRead(s: string)
    requires |s| >= 2 && s[0] == '0' && (s[1] == 'x' || s[1] == 'X')
    ensures Strtoul(s, 16) == 0
  {
    SpanIs(s, 16, 1);
    NextDigit(s, 0, 16);
    NoValue(s, 16);
  }
}
