/** JavaScript strings as the logger sees them: sequences of UTF-16 code
    units, plus the one number-to-string conversion the module performs
    (the timestamp interpolated into the log file name). */
module JsText {

  /** One UTF-16 code unit, the element of a JavaScript string. */
  newtype CodeUnit = x: int | 0 <= x < 0x1_0000

  /** A JavaScript string value. */
  type Text = seq<CodeUnit>

  datatype Option<+T> = None | Some(value: T)

  const LF: CodeUnit := 0x0A
  const MINUS: CodeUnit := 0x2D
  const ZERO: CodeUnit := 0x30

  predicate IsDigit(c: CodeUnit) {
    0x30 <= c <= 0x39
  }

  predicate AllDigits(d: Text) {
    forall i | 0 <= i < |d| :: IsDigit(d[i])
  }

  /** Decimal digits of a natural number, most significant first, with no
      leading zero. */
  function DecimalDigits(n: nat): (r: Text)
    ensures r != [] && AllDigits(r)
    ensures |r| > 1 ==> r[0] != ZERO
    decreases n
  {
    if n < 10 then [ZERO + n as CodeUnit]
    else DecimalDigits(n / 10) + [ZERO + (n % 10) as CodeUnit]
  }

  /** The number a string of decimal digits denotes. */
  function DigitsValue(d: Text): nat
    requires AllDigits(d)
  {
    if d == [] then 0
    else DigitsValue(d[..|d| - 1]) * 10 + (d[|d| - 1] - ZERO) as int
  }

  /** Reading back the digits of `n` gives `n`. */
  lemma {:induction false} DigitsRoundTrip(n: nat)
    ensures DigitsValue(DecimalDigits(n)) == n
    decreases n
  {
    var d := DecimalDigits(n);
    if n >= 10 {
      DigitsRoundTrip(n / 10);
      assert d[..|d| - 1] == DecimalDigits(n / 10);
    }
  }

  /** String conversion of an integral Number, as a template literal
      performs it: optional minus sign, then the canonical decimal digits
      of the magnitude. */
  function NumberText(n: int): (r: Text)
    ensures r != []
    ensures r[0] == MINUS <==> n < 0
    ensures var d := if n < 0 then r[1..] else r;
      d != [] && AllDigits(d) && (|d| > 1 ==> d[0] != ZERO)
    ensures var d := if n < 0 then r[1..] else r;
      AllDigits(d) && DigitsValue(d) == if n < 0 then -n else n
  {
    if n < 0 then
      DigitsRoundTrip(-n);
      var r := [MINUS] + DecimalDigits(-n);
      assert r[1..] == DecimalDigits(-n);
      r
    else
      DigitsRoundTrip(n);
      DecimalDigits(n)
  }

  lemma DigitsInjective(x: nat, y: nat)
    requires DecimalDigits(x) == DecimalDigits(y)
    ensures x == y
  {
    DigitsRoundTrip(x);
    DigitsRoundTrip(y);
  }

  /** Different numbers are rendered as different strings. */
  lemma NumberTextInjective(a: int, b: int)
    requires NumberText(a) == NumberText(b)
    ensures a == b
  {
    if a < 0 {
      assert b < 0;
      assert DecimalDigits(-a) == NumberText(a)[1..];
      assert DecimalDigits(-b) == NumberText(b)[1..];
      DigitsInjective(-a, -b);
    } else {
      DigitsInjective(a, b);
    }
  }
}
