/**
 * The two conversions between text and `u8` that the budget service relies on:
 * Rust's `u8::from_str` (reached through `str::parse::<u8>`) and `u8::to_string`.
 *
 * `ParseU8` follows the standard library's algorithm step by step; `IsU8Text` and
 * `DecimalValue` say independently which texts it accepts and what they denote,
 * and `ParseU8`'s contract ties the two together.
 */
module U8Text {

  /** Rust's `u8`. */
  type U8 = x: int | 0 <= x < 256

  /** Why `u8::from_str` rejects a text (the cases of Rust's `IntErrorKind` it can produce). */
  datatype IntErrorKind = Empty | InvalidDigit | PosOverflow

  datatype ParseResult = Parsed(value: U8) | Rejected(kind: IntErrorKind)

  predicate IsDigit(c: char) {
    '0' <= c <= '9'
  }

  predicate AllDigits(s: string) {
    forall i :: 0 <= i < |s| ==> IsDigit(s[i])
  }

  function DigitValue(c: char): (d: nat)
    requires IsDigit(c)
    ensures d < 10
  {
    c as int - '0' as int
  }

  function DigitChar(d: nat): (c: char)
    requires d < 10
    ensures IsDigit(c) && DigitValue(c) == d
  {
    (d + '0' as int) as char
  }

  /** The number denoted by a string of decimal digits, most significant digit first. */
  function DecimalValue(s: string): nat
    requires AllDigits(s)
  {
    if s == [] then 0 else 10 * DecimalValue(s[..|s| - 1]) + DigitValue(s[|s| - 1])
  }

  /** The text after the one leading `+` that `from_str` allows for an unsigned type. */
  function Magnitude(s: string): string {
    if |s| > 0 && s[0] == '+' then s[1..] else s
  }

  /**
   * The texts `u8::from_str` accepts: an optional `+`, then one or more decimal
   * digits (leading zeros allowed) denoting at most 255. Nothing else: no `-`,
   * no white space, no other character.
   */
  predicate IsU8Text(s: string) {
    var m := Magnitude(s);
    |m| > 0 && AllDigits(m) && DecimalValue(m) <= 255
  }

  /** The texts `u8::to_string` produces: digits only, no leading zero unless the text is "0". */
  predicate IsCanonical(s: string) {
    |s| > 0 && AllDigits(s) && (s[0] == '0' ==> |s| == 1)
  }

  /**
   * The digit loop of `from_str`: for each character, reject a non-digit, then
   * multiply the running value by ten and add the digit, rejecting as soon as the
   * running value would leave `u8`.
   */
  function Accumulate(acc: U8, digits: string): (r: ParseResult)
    decreases |digits|
  {
    if digits == [] then Parsed(acc)
    else if !IsDigit(digits[0]) then Rejected(InvalidDigit)
    else if 10 * acc + DigitValue(digits[0]) > 255 then Rejected(PosOverflow)
    else Accumulate(10 * acc + DigitValue(digits[0]), digits[1..])
  }

  /**
   * `u8::from_str`: empty text is `Empty`, a lone sign is `InvalidDigit`, one
   * leading `+` is dropped, and the rest goes through the digit loop.
   */
  function ParseU8(s: string): (r: ParseResult)
    ensures r.Parsed? <==> IsU8Text(s)
    ensures r.Parsed? ==> r.value == DecimalValue(Magnitude(s))
    ensures r == Rejected(Empty) <==> s == []
  {
    if s == [] then Rejected(Empty)
    else if s == "+" || s == "-" then Rejected(InvalidDigit)
    else
      var m := Magnitude(s);
      assert [] + m == m;
      AccumulateMeaning([], m);
      AccumulateNeverEmpty(0, m);
      Accumulate(0, m)
  }

  /** `u8::to_string`: the shortest decimal numeral of `v`. */
  function FormatU8(v: U8): (s: string)
    ensures IsCanonical(s)
    ensures DecimalValue(s) == v
    decreases v
  {
    if v < 10 then [DigitChar(v)]
    else
      var front := FormatU8(v / 10);
      var s := front + [DigitChar(v % 10)];
      assert s[..|s| - 1] == front;
      s
  }

  lemma {:induction false} AccumulateNeverEmpty(acc: U8, digits: string)
    ensures Accumulate(acc, digits) != Rejected(Empty)
    decreases |digits|
  {
    if digits != [] && IsDigit(digits[0]) && 10 * acc + DigitValue(digits[0]) <= 255 {
      AccumulateNeverEmpty(10 * acc + DigitValue(digits[0]), digits[1..]);
    }
  }

  lemma AllDigitsConcat(s: string, t: string)
    requires AllDigits(s) && AllDigits(t)
    ensures AllDigits(s + t)
  {
  }

  /** Appending digits never makes the denoted number smaller. */
  lemma {:induction false} DecimalValueGrows(s: string, t: string)
    requires AllDigits(s) && AllDigits(t)
    ensures AllDigits(s + t) && DecimalValue(s) <= DecimalValue(s + t)
    decreases |t|
  {
    AllDigitsConcat(s, t);
    if t != [] {
      var front := t[..|t| - 1];
      assert (s + t)[..|s + t| - 1] == s + front;
      DecimalValueGrows(s, front);
    } else {
      assert s + t == s;
    }
  }

  /**
   * What the digit loop computes: started on the value of the digits already
   * read, it accepts exactly when the remaining text is all digits and the whole
   * numeral fits in `u8`, and then yields the whole numeral's value.
   */
  lemma {:induction false} AccumulateMeaning(prefix: string, digits: string)
    requires AllDigits(prefix) && DecimalValue(prefix) <= 255
    ensures var r := Accumulate(DecimalValue(prefix), digits);
      r.Parsed? <==> AllDigits(digits) && AllDigits(prefix + digits) && DecimalValue(prefix + digits) <= 255
    ensures var r := Accumulate(DecimalValue(prefix), digits);
      r.Parsed? ==> AllDigits(prefix + digits) && r.value == DecimalValue(prefix + digits)
    decreases |digits|
  {
    if digits == [] {
      assert prefix + digits == prefix;
    } else if !IsDigit(digits[0]) {
      assert !AllDigits(digits);
    } else {
      var next := prefix + [digits[0]];
      assert next[..|next| - 1] == prefix;
      assert AllDigits(next);
      assert next + digits[1..] == prefix + digits;
      if DecimalValue(next) > 255 {
        if AllDigits(digits) {
          DecimalValueGrows(next, digits[1..]);
        }
      } else {
        AccumulateMeaning(next, digits[1..]);
      }
    }
  }

  /** Reading back what `to_string` wrote gives the same number. */
  lemma ParseFormatRoundTrip(v: U8)
    ensures ParseU8(FormatU8(v)) == Parsed(v)
  {
  }

  lemma {:induction false} DecimalValueOfLeadingDigit(s: string)
    requires |s| > 0 && AllDigits(s)
    ensures DigitValue(s[0]) <= DecimalValue(s)
  {
    var first := s[..1];
    assert first[..0] == [];
    assert first + s[1..] == s;
    DecimalValueGrows(first, s[1..]);
  }

  /** A canonical numeral is the one `to_string` produces for the number it denotes. */
  lemma {:induction false} CanonicalIsFormatted(s: string)
    requires IsCanonical(s) && DecimalValue(s) <= 255
    ensures FormatU8(DecimalValue(s)) == s
    decreases |s|
  {
    var v := DecimalValue(s);
    var last := s[|s| - 1];
    if |s| == 1 {
      assert s == [last];
      assert DigitChar(DigitValue(last)) == last;
    } else {
      var front := s[..|s| - 1];
      assert front[0] == s[0] && s[0] != '0';
      DecimalValueOfLeadingDigit(front);
      var w := DecimalValue(front);
      assert v == 10 * w + DigitValue(last);
      assert v / 10 == w && v % 10 == DigitValue(last);
      CanonicalIsFormatted(front);
      assert DigitChar(DigitValue(last)) == last;
      assert s == front + [last];
    }
  }

  /**
   * Formatting what was parsed reproduces the text exactly when the text was
   * canonical: a `+` or leading zeros are lost by the round trip, nothing else.
   */
  lemma TextRoundTrip(s: string)
    requires ParseU8(s).Parsed?
    ensures FormatU8(ParseU8(s).value) == s <==> IsCanonical(s)
  {
    if IsCanonical(s) {
      assert Magnitude(s) == s;
      CanonicalIsFormatted(s);
    }
  }

  lemma {:induction false} LeadingZeroAddsNothing(s: string)
    requires AllDigits(s)
    ensures AllDigits(['0'] + s) && DecimalValue(['0'] + s) == DecimalValue(s)
    decreases |s|
  {
    AllDigitsConcat(['0'], s);
    if s != [] {
      var z := ['0'] + s;
      assert z[..|z| - 1] == ['0'] + s[..|s| - 1];
      LeadingZeroAddsNothing(s[..|s| - 1]);
    } else {
      assert ['0'] + s == ['0'];
      assert ['0'][..0] == [];
    }
  }

  /** Leading zeros are accepted and do not change the value. */
  lemma LeadingZeroAccepted(s: string)
    requires |s| > 0 && AllDigits(s)
    ensures ParseU8(['0'] + s) == ParseU8(s)
  {
    LeadingZeroAddsNothing(s);
    assert Magnitude(['0'] + s) == ['0'] + s;
    assert Magnitude(s) == s;
  }

  /**
   * A character that is not a digit anywhere in the text (other than one leading
   * `+`) makes `from_str` reject it: white space, a trailing newline, a `-`.
   */
  lemma NonDigitRejected(s: string, i: nat)
    requires i < |s| && !IsDigit(s[i])
    requires i > 0 || s[0] != '+'
    ensures ParseU8(s).Rejected?
  {
  }
}
