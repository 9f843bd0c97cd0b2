/** The value formatting the client relies on: Go's `%d` written out, and the
    `%f` and time layouts it uses kept opaque. */
module Fmt {
  import opened Wrappers

  /** A `time.Time`: an instant and the location it is shown in, since `Format`
      writes the clock time of that location. Its text form is opaque. */
  datatype Time = Time(unixNanos: int, location: string)

  /** The formatters the model leaves opaque: any functions will do.
      - float32: `fmt.Sprintf("%f", x)` of a `float32` (six decimals);
      - rfc3339: `t.Format(time.RFC3339)`;
      - utcLayout: `t.Format("2006-01-02T15:04:05Z")`, a literal `Z`. */
  datatype Formatters = Formatters(
    float32: real -> string,
    rfc3339: Time -> string,
    utcLayout: Time -> string)

  predicate IsDigit(c: char) {
    '0' <= c <= '9'
  }

  predicate AllDigits(s: string) {
    forall i :: 0 <= i < |s| ==> IsDigit(s[i])
  }

  function DigitChar(d: nat): (c: char)
    requires d < 10
    ensures IsDigit(c) && c as int - '0' as int == d
  {
    (d + '0' as int) as char
  }

  /** The decimal digits of `n`, most significant first, with no leading zero. */
  function NatToDecimal(n: nat): (s: string)
    ensures |s| >= 1 && AllDigits(s)
    ensures s[0] == '0' ==> n == 0
  {
    if n < 10 then [DigitChar(n)] else NatToDecimal(n / 10) + [DigitChar(n % 10)]
  }

  /** Go's `%d` of an integer: a minus sign for negatives, then the digits. */
  function IntToDecimal(n: int): string {
    if n < 0 then "-" + NatToDecimal(-n) else NatToDecimal(n)
  }

  /** `%d` writes digits and at most a minus sign, nothing else. */
  lemma IntToDecimalChars(n: int)
    ensures forall c :: c in IntToDecimal(n) ==> c == '-' || IsDigit(c)
  {
    if n < 0 {
      var d := NatToDecimal(-n);
      forall c | c in IntToDecimal(n) ensures c == '-' || IsDigit(c) {
        var i :| 0 <= i < |IntToDecimal(n)| && IntToDecimal(n)[i] == c;
        if i > 0 { assert c == d[i - 1]; }
      }
    }
  }

  /** The value of a digit string, read most significant first. */
  function DigitsValue(s: string): nat
    requires AllDigits(s)
  {
    if |s| == 0 then 0
    else DigitsValue(s[..|s| - 1]) * 10 + (s[|s| - 1] as int - '0' as int)
  }

  /** Reads back an optional minus sign and a non-empty digit string. */
  function ParseInt(s: string): Option<int> {
    if |s| > 1 && s[0] == '-' && AllDigits(s[1..]) then
      var magnitude: int := DigitsValue(s[1..]);
      Some(-magnitude)
    else if |s| > 0 && AllDigits(s) then Some(DigitsValue(s) as int)
    else None
  }

  lemma {:induction false} NatToDecimalValue(n: nat)
    ensures DigitsValue(NatToDecimal(n)) == n
  {
    if n >= 10 {
      NatToDecimalValue(n / 10);
      var s := NatToDecimal(n);
      assert s[..|s| - 1] == NatToDecimal(n / 10);
    }
  }

  /** `%d` is read back exactly: formatting then parsing any integer gives it back. */
  lemma {:induction false} ParseIntToDecimal(n: int)
    ensures ParseInt(IntToDecimal(n)) == Some(n)
  {
    if n < 0 {
      var digits := NatToDecimal(-n);
      var s := "-" + digits;
      assert IntToDecimal(n) == s;
      assert s[1..] == digits;
      NatToDecimalValue(-n);
      assert |s| > 1 && s[0] == '-' && AllDigits(s[1..]);
    } else {
      NatToDecimalValue(n);
      assert IntToDecimal(n) == NatToDecimal(n);
    }
  }
}
