/** What printf prints, by its flags, and when strtol and strtoul read it back. */
module PrintedNumbers {
  import opened Seqs
  import opened Numbers

  // ----- Digits -----

  /** The characters for the digits, and what they stand for. */
  lemma DigitChars(d: nat)
    requires d < 16
    ensures D2a(d, false) == "0123456789abcdef"[d] && D2a(d, true) == "0123456789ABCDEF"[d]
    ensures A2d("0123456789abcdef"[d]) == d == A2d("0123456789ABCDEF"[d])
  {
  }

  /** The base that a conversion prints in: %d and %u, %o, %x and %X. */
  function PrintBase(pf: Pf): nat {
    if !pf.binary then 10 else if pf.base == 3 then 8 else 16
  }

  /** The number without its sign; one that is printed as unsigned wraps around, at 32 bits unless it is
      long long. */
  function Amount(pf: Pf, num: int): int {
    var n := if num >= 0 then num else if pf.unsigned then 0x1_0000_0000_0000_0000 + num else -num;
    if pf.longness >= 2 then n else n % 0x1_0000_0000
  }

  lemma {:induction false} NoLeadingZero(num: nat, base: nat, upper: bool)
    requires 2 <= base <= 16
    ensures num > 0 ==> Digits(num, base, upper) != "" && Digits(num, base, upper)[0] != '0'
    ensures forall i :: 0 <= i < |Digits(num, base, upper)| ==>
              Digits(num, base, upper)[i] in if upper then "0123456789ABCDEF"[..base] else "0123456789abcdef"[..base]
    decreases num
  {
    if num > 0 {
      var chars := if upper then "0123456789ABCDEF" else "0123456789abcdef";
      Divided(num, base);
      Reduced(num, base);
      var d := num % base;
      DigitChars(d);
      assert chars[..base][d] == chars[d];
      NoLeadingZero(Shorter(num, base), base, upper);
      if Shorter(num, base) == 0 { assert d != 0; }
    }
  }

  /** The digits shown are those of the amount, in the base of the conversion, and start with no zero. */
  lemma TextShows(pf: Pf, num: int)
    requires Conversion(pf, num)
    ensures Amount(pf, num) >= 0 && Value(Text(pf, num), PrintBase(pf)) == Amount(pf, num)
    ensures Text(pf, num) == "" <==> Amount(pf, num) == 0
    ensures Text(pf, num) != "" ==> Text(pf, num)[0] != '0'
    ensures forall i :: 0 <= i < |Text(pf, num)| ==>
              Text(pf, num)[i] in if pf.upper then "0123456789ABCDEF"[..PrintBase(pf)] else "0123456789abcdef"[..PrintBase(pf)]
  {
    hide Digits, Value;
    TextIs(pf, num);
    DigitsValue(Amount(pf, num), PrintBase(pf), pf.upper);
    NoLeadingZero(Amount(pf, num), PrintBase(pf), pf.upper);
    if Amount(pf, num) == 0 { NoDigits(PrintBase(pf), pf.upper); }
  }

  // ----- The field -----

  /** A number in its field: at the left, with blanks behind it; filled up with zeros, which a precision
      forbids; or at the right, with blanks before it. */
  ghost predicate InItsField(out: string, pf: Pf, front: string, zeros: nat, digits: string) {
    var gap := Max(pf.width - (|front| + zeros + |digits|), 0);
    if pf.minus then out == front + Repeat('0', zeros) + digits + Repeat(' ', gap)
    else if pf.zero && pf.precision < 0 then out == front + Repeat('0', gap + zeros) + digits
    else out == Repeat(' ', gap) + front + Repeat('0', zeros) + digits
  }

  /** The sign of %d: a minus sign, or what the flags ask for before other numbers; + goes before blank. */
  lemma SignShown(pf: Pf, num: int)
    ensures !pf.unsigned && num < 0 ==> Sign(pf, num) == "-"
    ensures !pf.unsigned && num >= 0 && pf.plus ==> Sign(pf, num) == "+"
    ensures !pf.unsigned && num >= 0 && !pf.plus && pf.space ==> Sign(pf, num) == " "
    ensures pf.unsigned || (num >= 0 && !pf.plus && !pf.space) ==> Sign(pf, num) == ""
  {
  }

  lemma Layout(pf: Pf, num: int, zeros: nat)
    requires Conversion(pf, num) && zeros == Max(Least(pf, num) - |Text(pf, num)|, 0)
    ensures InItsField(Formatted(pf, num), pf, Sign(pf, num) + Prefix(pf, num), zeros, Text(pf, num))
  {
    hide Repeat, Sign, Prefix, Least, Text;
    var front, digits := Sign(pf, num) + Prefix(pf, num), Text(pf, num);
    var gap := Max(pf.width - (|front| + zeros + |digits|), 0);
    var fill := Least(pf, num) - |digits|;
    if fill <= 0 { NoRepeat('0', fill); NoRepeat('0', zeros); }
    assert Bare(pf, num) == front + Repeat('0', zeros) + digits;
    var wide := pf.width - |Bare(pf, num)|;
    if wide <= 0 { NoRepeat(' ', wide); NoRepeat(' ', gap); NoRepeat('0', wide); }
    RepeatAtLeast('0', wide, fill);
    Join(front, Repeat('0', wide), Repeat('0', fill));
    Join(Repeat(' ', gap), front, Repeat('0', zeros));
    Join(Repeat(' ', gap), front + Repeat('0', zeros), digits);
  }

  /** How many zeros the precision puts before the digits; without one, a lone zero is still shown. */
  function Zeros(precision: int, digits: string): nat {
    Max((if precision < 0 then 1 else precision) - |digits|, 0)
  }

  /** Without the hash flag, and for zero and for decimals, there is no prefix of any kind. */
  lemma PlainNumber(pf: Pf, num: int)
    requires Conversion(pf, num) && (!pf.hash || num == 0 || !pf.binary)
    ensures InItsField(Formatted(pf, num), pf, Sign(pf, num), Zeros(pf.precision, Text(pf, num)), Text(pf, num))
  {
    hide Repeat, Sign, Text, Formatted, InItsField;
    Layout(pf, num, Zeros(pf.precision, Text(pf, num)));
    assert Sign(pf, num) + "" == Sign(pf, num);
  }

  /** With it, a hexadecimal number other than zero is preceded by exactly 0x or 0X. */
  lemma HexNumber(pf: Pf, num: int)
    requires Conversion(pf, num) && pf.binary && pf.base == 4 && pf.hash && num != 0
    ensures InItsField(Formatted(pf, num), pf, Sign(pf, num) + (if pf.upper then "0X" else "0x"), Zeros(pf.precision, Text(pf, num)), Text(pf, num))
  {
    hide Repeat, Sign, Text, Formatted, InItsField;
    Layout(pf, num, Zeros(pf.precision, Text(pf, num)));
  }

  /** With it, the digits of an octal number other than zero are preceded by at least one zero. */
  lemma OctalNumber(pf: Pf, num: int)
    requires Conversion(pf, num) && pf.binary && pf.base == 3 && pf.hash && num != 0
    ensures InItsField(Formatted(pf, num), pf, Sign(pf, num), Max(Zeros(pf.precision, Text(pf, num)), 1), Text(pf, num))
  {
    hide Repeat, Sign, Text, Formatted, InItsField;
    Layout(pf, num, Max(Zeros(pf.precision, Text(pf, num)), 1));
    assert Sign(pf, num) + "" == Sign(pf, num);
  }

  // ----- Reading it back -----

  /** How many characters the number takes without its field. */
  function Length(pf: Pf, num: int): nat
    requires Conversion(pf, num)
  {
    var sign := if !pf.unsigned && (num < 0 || pf.plus || pf.space) then 1 else 0;
    var prefix := if pf.binary && pf.base == 4 && pf.hash && num != 0 then 2 else 0;
    var zeros := Zeros(pf.precision, Text(pf, num));
    var least := if pf.binary && pf.base == 3 && pf.hash && num != 0 && zeros == 0 then 1 else zeros;
    sign + prefix + least + |Text(pf, num)|
  }

  /** A blank comes first: the sign, or the padding of a field that is wider than the number, is not filled
      with zeros and does not come behind it. */
  predicate BlankLeads(pf: Pf, num: int)
    requires Conversion(pf, num)
  {
    || (!pf.unsigned && num >= 0 && !pf.plus && pf.space)
    || (!pf.minus && !(pf.zero && pf.precision < 0) && pf.width > Length(pf, num))
  }

  /** Which character of a field comes first. */
  lemma FieldStarts(out: string, pf: Pf, front: string, zeros: nat, digits: string)
    requires InItsField(out, pf, front, zeros, digits) && digits != "" && digits[0] != ' '
    ensures Blank(out) <==>
              || (front != "" && front[0] == ' ')
              || (!pf.minus && !(pf.zero && pf.precision < 0) && pf.width > |front| + zeros + |digits|)
  {
    var gap := Max(pf.width - (|front| + zeros + |digits|), 0);
    var z, b := Repeat('0', zeros), Repeat(' ', gap);
    hide Repeat, InItsField;
    assert z != "" ==> z[0] == '0';
    if pf.minus {
      assert out == front + z + digits + b by { IsField(out, pf, front, zeros, digits); }
    } else if pf.zero && pf.precision < 0 {
      assert out == front + Repeat('0', gap + zeros) + digits by { IsField(out, pf, front, zeros, digits); }
    } else {
      assert out == b + front + z + digits by { IsField(out, pf, front, zeros, digits); }
    }
  }

  lemma IsField(out: string, pf: Pf, front: string, zeros: nat, digits: string)
    requires InItsField(out, pf, front, zeros, digits)
    ensures var gap := Max(pf.width - (|front| + zeros + |digits|), 0);
            if pf.minus then out == front + Repeat('0', zeros) + digits + Repeat(' ', gap)
            else if pf.zero && pf.precision < 0 then out == front + Repeat('0', gap + zeros) + digits
            else out == Repeat(' ', gap) + front + Repeat('0', zeros) + digits
  {
  }

  lemma BlankFirst(pf: Pf, num: int)
    requires Conversion(pf, num) && Text(pf, num) != "" && num != 0
    ensures Blank(Formatted(pf, num)) <==> BlankLeads(pf, num)
  {
    hide Text, Formatted, InItsField, Repeat, Blank, Prefix, Sign;
    var digits := Text(pf, num);
    var zeros := Zeros(pf.precision, digits);
    TextStart(pf, num);
    SignShown(pf, num);
    if pf.binary && pf.base == 4 && pf.hash {
      HexNumber(pf, num);
      FieldStarts(Formatted(pf, num), pf, Sign(pf, num) + (if pf.upper then "0X" else "0x"), zeros, digits);
    } else if pf.binary && pf.base == 3 && pf.hash {
      OctalNumber(pf, num);
      FieldStarts(Formatted(pf, num), pf, Sign(pf, num), Max(zeros, 1), digits);
    } else {
      PlainNumber(pf, num);
      FieldStarts(Formatted(pf, num), pf, Sign(pf, num), zeros, digits);
    }
  }

  lemma TextStart(pf: Pf, num: int)
    requires Conversion(pf, num) && Text(pf, num) != ""
    ensures Text(pf, num)[0] != ' '
  {
    hide Text;
    TextShows(pf, num);
    assert Text(pf, num)[0] in if pf.upper then "0123456789ABCDEF"[..PrintBase(pf)] else "0123456789abcdef"[..PrintBase(pf)];
  }

  lemma Nonzero(pf: Pf, num: int)
    requires Conversion(pf, num) && pf.longness < 2 && -0x8000_0000 <= num < 0x8000_0000
    ensures num != 0 ==> Amount(pf, num) != 0
  {
  }

  /** strtol reads back what %d printed, with any flags, width and precision, exactly when it is zero or no
      blank comes first. */
  lemma DecimalReadBack(pf: Pf, num: int)
    requires Conversion(pf, num) && !pf.binary && !pf.unsigned && pf.longness < 2
    requires -0x8000_0000 <= num < 0x8000_0000
    ensures Strtol(Formatted(pf, num) + "\0", 10) == num <==> num == 0 || !BlankLeads(pf, num)
  {
    hide Formatted, Text, Strtol, Blank, BlankLeads, Amount;
    DecimalRoundTrip(pf, num);
    if num != 0 {
      Nonzero(pf, num);
      TextShows(pf, num);
      BlankFirst(pf, num);
    }
  }

  /** strtoul reads back what %x, %X or %o printed exactly when it is zero, or no blank comes first and the
      hash flag has not put 0x or 0X before it. */
  lemma UnsignedReadBack(pf: Pf, num: int)
    requires Conversion(pf, num) && pf.binary && pf.unsigned && pf.longness < 2
    requires -0x8000_0000 <= num < 0x8000_0000
    ensures Strtoul(Formatted(pf, num) + "\0", PrintBase(pf)) == num % 0x1_0000_0000
        <==> num == 0 || (!BlankLeads(pf, num) && !(pf.base == 4 && pf.hash))
  {
    hide Formatted, Text, Strtoul, Blank, BlankLeads, Amount;
    UnsignedRoundTrip(pf, num);
    if num != 0 {
      Nonzero(pf, num);
      TextShows(pf, num);
      BlankFirst(pf, num);
    }
  }

  lemma TwoDigits(byte: nat, upper: bool)
    requires byte < 256
    ensures Digits(byte, 16, upper) ==
            if byte == 0 then "" else if byte < 16 then [D2a(byte, upper)] else [D2a(byte / 16, upper), D2a(byte % 16, upper)]
  {
    hide D2a;
    NoDigits(16, upper);
    if byte > 0 {
      LastDigit(byte, 16, upper);
      var high := Shorter(byte, 16);
      Divided(byte, 16);
      if high > 0 {
        LastDigit(high, 16, upper);
        Divided(high, 16);
        assert Shorter(high, 16) == 0;
      }
    }
  }

  /** The conversion %02x, or %02X. */
  function HexByte(upper: bool): Pf {
    Pf(false, false, false, false, true, upper, true, true, 4, 2, -1, 0)
  }

  lemma ByteText(byte: nat, upper: bool)
    requires byte < 256
    ensures var pf := HexByte(upper); Conversion(pf, byte) && Sign(pf, byte) == "" && Text(pf, byte) == Digits(byte, 16, upper)
  {
    hide Digits;
  }

  lemma ByteField(byte: nat, upper: bool)
    requires byte < 256
    ensures Conversion(HexByte(upper), byte)
    ensures Formatted(HexByte(upper), byte) ==
            var digits := Digits(byte, 16, upper); if digits == "" then "00" else if |digits| == 1 then ['0', digits[0]] else digits
  {
    hide Digits, Formatted, Repeat, Text, Sign, InItsField, Zeros, D2a;
    ByteText(byte, upper);
    TwoDigits(byte, upper);
    PlainNumber(HexByte(upper), byte);
    TwoPlaces(HexByte(upper), byte, "", Digits(byte, 16, upper));
  }

  /** %02x, as for a hardware address: two digits for every byte. */
  lemma ByteInHex(byte: nat, upper: bool)
    requires byte < 256
    ensures Conversion(HexByte(upper), byte)
    ensures Formatted(HexByte(upper), byte) == [D2a(byte / 16, upper), D2a(byte % 16, upper)]
  {
    hide Digits, Formatted, Conversion;
    DigitChars(0);
    assert D2a(0, upper) == '0';
    hide D2a;
    TwoDigits(byte, upper);
    ByteField(byte, upper);
    if byte < 16 { assert byte / 16 == 0 && byte % 16 == byte; }
  }

  /** strtoul reads it back. */
  lemma ByteReadBack(byte: nat, upper: bool)
    requires byte < 256
    ensures Conversion(HexByte(upper), byte) && Strtoul(Formatted(HexByte(upper), byte) + "\0", 16) == byte
  {
    hide Formatted, Strtoul, Text, Sign, Length;
    UnsignedReadBack(HexByte(upper), byte);
  }

  /** Zeros make up for what the digits leave of a field of two. */
  lemma TwoPlaces(pf: Pf, byte: nat, sign: string, digits: string)
    requires Conversion(pf, byte) && pf.width == 2 && pf.precision == -1 && pf.zero && !pf.minus && sign == "" && |digits| <= 2
    requires InItsField(Formatted(pf, byte), pf, sign, Zeros(-1, digits), digits)
    ensures digits == "" ==> Formatted(pf, byte) == "00"
    ensures |digits| == 1 ==> Formatted(pf, byte) == ['0', digits[0]]
    ensures |digits| == 2 ==> Formatted(pf, byte) == digits
  {
    hide Formatted;
    var out := Formatted(pf, byte);
    assert out == sign + Repeat('0', 2 - |digits|) + digits;
    assert |out| == 2;
  }

  // ----- Strings -----

  /** How many characters of a text are shown: those up to a NUL or the precision. */
  lemma CutAt(text: string, precision: int) returns (n: nat)
    requires '\0' in text
    ensures n < |text| && Cut(text, precision) == text[..n] && forall i :: 0 <= i < n ==> text[i] != '\0'
    ensures if precision < 0 then text[n] == '\0' else n <= precision && (n < precision ==> text[n] == '\0')
  {
    n := |Cut(text, precision)|;
  }

  /** A string in its field: n characters of it, with blanks before them, or behind them if asked for. */
  lemma StringField(text: string, n: nat, width: int, minus: bool, i: nat)
    requires n <= |text| && i < Max(width, n)
    ensures var out := InField(text[..n], width, minus);
            && |out| == Max(width, n)
            && out[i] == if minus then (if i < n then text[i] else ' ')
                         else if i < |out| - n then ' ' else text[i - (|out| - n)]
  {
    hide Repeat;
    var blanks := Repeat(' ', width - n);
    assert |blanks| == Max(width - n, 0);
    var out := InField(text[..n], width, minus);
    assert out == if minus then text[..n] + blanks else blanks + text[..n];
  }

  /** A null pointer is shown as (null). */
  lemma NullShown()
    ensures TextOf(Null) == "(null)\0" && Cut(TextOf(Null), -1) == "(null)"
  {
    var n := CutAt("(null)\0", -1);
    assert "(null)\0"[6] == '\0';
    assert n == 6;
    assert "(null)\0"[..6] == "(null)";
  }
}
