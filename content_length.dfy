/**
 * The Content-Length value the handler accepts: what ulong.TryParse accepts,
 * reduced to a non-empty run of ASCII digits whose value fits in 64 bits
 * (section 3.3.2 of RFC 7230 defines Content-Length as 1*DIGIT).
 */
module ContentLength {
  import opened Wrappers

  /** 2^64: every ulong is below it. */
  const ULongLimit: nat := 0x1_0000_0000_0000_0000

  predicate IsDigit(c: char) {
    '0' <= c <= '9'
  }

  predicate AllDigits(s: string) {
    forall i :: 0 <= i < |s| ==> IsDigit(s[i])
  }

  /** The number a run of decimal digits denotes, most significant first. */
  function DigitsValue(s: string): nat
    requires AllDigits(s)
  {
    if s == [] then 0 else DigitsValue(s[..|s| - 1]) * 10 + (s[|s| - 1] as int - '0' as int)
  }

  /** ulong.TryParse: the value, or None when the text is not a ulong. */
  function ParseULong(s: string): (r: Option<nat>)
    ensures r.Some? ==> r.value < ULongLimit
    ensures r.Some? ==> |s| > 0 && AllDigits(s)
  {
    if |s| > 0 && AllDigits(s) && DigitsValue(s) < ULongLimit then Some(DigitsValue(s)) else None
  }

  /** The canonical decimal text of a number: no sign, no leading zeros. */
  function DecimalString(n: nat): (s: string)
    ensures |s| > 0 && AllDigits(s)
    ensures n >= 10 ==> s[0] != '0'
    ensures |s| == 1 <==> n < 10
  {
    var last := ('0' as int + n % 10) as char;
    if n < 10 then [last] else DecimalString(n / 10) + [last]
  }

  lemma {:induction false} DigitsOfDecimal(n: nat)
    ensures DigitsValue(DecimalString(n)) == n
  {
    var s := DecimalString(n);
    if n >= 10 {
      DigitsOfDecimal(n / 10);
      assert s[..|s| - 1] == DecimalString(n / 10);
    }
  }

  /** Every ulong written in decimal parses back to itself. */
  lemma ParseDecimalRoundTrip(n: nat)
    requires n < ULongLimit
    ensures ParseULong(DecimalString(n)) == Some(n)
  {
    DigitsOfDecimal(n);
  }

  /** Leading zeros do not change the value. */
  lemma {:induction false} DigitsLeadingZero(s: string)
    requires AllDigits(s)
    ensures AllDigits("0" + s) && DigitsValue("0" + s) == DigitsValue(s)
  {
    var z := "0" + s;
    if s != [] {
      assert z[..|z| - 1] == "0" + s[..|s| - 1];
      DigitsLeadingZero(s[..|s| - 1]);
    }
  }

  /** "007" is read as 7: leading zeros are accepted and do not change the value. */
  lemma ParseIgnoresLeadingZero(s: string)
    requires |s| > 0
    ensures ParseULong("0" + s) == ParseULong(s)
  {
    var z := "0" + s;
    assert AllDigits(z) <==> AllDigits(s) by {
      assert forall i :: 0 <= i < |s| ==> z[i + 1] == s[i];
    }
    if AllDigits(s) {
      DigitsLeadingZero(s);
    }
  }

  /** Digit text without a leading zero is the canonical decimal of its value. */
  lemma {:induction false} CanonicalDigits(s: string)
    requires |s| > 0 && AllDigits(s) && (|s| > 1 ==> s[0] != '0')
    ensures s == DecimalString(DigitsValue(s))
  {
    if |s| > 1 {
      var p := s[..|s| - 1];
      CanonicalDigits(p);
      assert DigitsValue(p) >= 1 by {
        if |p| == 1 {
          assert p[0] == s[0];
        }
      }
    }
  }

  /**
   * Each ulong has exactly one spelling without leading zeros, its decimal:
   * text with no leading zero parses to n exactly when it is DecimalString(n).
   */
  lemma ParseCanonicalIff(s: string, n: nat)
    requires |s| > 1 ==> s[0] != '0'
    ensures ParseULong(s) == Some(n) <==> n < ULongLimit && s == DecimalString(n)
  {
    if ParseULong(s) == Some(n) {
      CanonicalDigits(s);
    }
    if n < ULongLimit && s == DecimalString(n) {
      ParseDecimalRoundTrip(n);
    }
  }

  /** A number of 2^64 or more, written in decimal, is refused: it is no ulong. */
  lemma ParseRejectsOverflow(n: nat)
    requires n >= ULongLimit
    ensures ParseULong(DecimalString(n)) == None
  {
    DigitsOfDecimal(n);
  }

  /** Text with any character other than a digit is refused by the model: "abc", "-1", "4 2". */
  lemma ParseRejectsNonDigit(s: string, i: nat)
    requires i < |s| && !IsDigit(s[i])
    ensures ParseULong(s) == None
  {
  }
}
