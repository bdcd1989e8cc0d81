/** Text rendering helpers: Java's `trim().isEmpty()`, `%d`, `%.2f` (with the
    comma decimal separator the system's locale uses) and line-separated joins. */
module Text {

  /** The line separator placed between rendered items (`System.lineSeparator()`). */
  const LineSeparator: string := "\n"

  /** `s.trim().isEmpty()`: every character is at most U+0020 (see TrimEmptyIffBlank). */
  predicate IsBlank(s: string) {
    forall i :: 0 <= i < |s| ==> s[i] <= ' '
  }

  /** `trim`'s first loop: drops the characters up to U+0020 at the front. */
  function TrimStart(s: string): string
    decreases |s|
  {
    if s != [] && s[0] <= ' ' then TrimStart(s[1..]) else s
  }

  /** `trim`'s second loop: drops the characters up to U+0020 at the back. */
  function TrimEnd(s: string): string
    decreases |s|
  {
    if s != [] && s[|s| - 1] <= ' ' then TrimEnd(s[..|s| - 1]) else s
  }

  /** Java's `String.trim`. */
  function Trim(s: string): string {
    TrimEnd(TrimStart(s))
  }

  /** The front loop consumes everything exactly on a blank string, and
      otherwise stops at a character above U+0020. */
  lemma {:induction false} TrimStartBlank(s: string)
    ensures TrimStart(s) == [] <==> IsBlank(s)
    ensures TrimStart(s) != [] ==> TrimStart(s)[0] > ' '
    decreases |s|
  {
    if s != [] && s[0] <= ' ' {
      TrimStartBlank(s[1..]);
      if IsBlank(s[1..]) {
        assert forall i :: 1 <= i < |s| ==> s[i] == s[1..][i - 1];
      }
      if IsBlank(s) {
        assert forall i :: 0 <= i < |s| - 1 ==> s[1..][i] == s[i + 1];
      }
    }
  }

  /** The back loop never consumes a character above U+0020 at the front. */
  lemma {:induction false} TrimEndKeepsFirst(s: string)
    requires s != [] && s[0] > ' '
    ensures TrimEnd(s) != []
    decreases |s|
  {
    if s[|s| - 1] <= ' ' {
      TrimEndKeepsFirst(s[..|s| - 1]);
    }
  }

  /** `trim().isEmpty()` holds exactly on blank strings. */
  lemma TrimEmptyIffBlank(s: string)
    ensures Trim(s) == [] <==> IsBlank(s)
  {
    TrimStartBlank(s);
    if TrimStart(s) != [] {
      TrimEndKeepsFirst(TrimStart(s));
    }
  }

  predicate IsDigit(c: char) {
    '0' <= c <= '9'
  }

  predicate AllDigits(s: string) {
    forall i :: 0 <= i < |s| ==> IsDigit(s[i])
  }

  function Digit(d: nat): (c: char)
    requires d < 10
    ensures IsDigit(c) && (c as int) - ('0' as int) == d
  {
    "0123456789"[d]
  }

  /** Decimal digits of `n`, most significant first, without leading zeros. */
  function NatToString(n: nat): (s: string)
    ensures |s| >= 1 && AllDigits(s)
    decreases n
  {
    if n < 10 then [Digit(n)] else NatToString(n / 10) + [Digit(n % 10)]
  }

  /** Java's `%d`. */
  function IntToString(n: int): string {
    if n < 0 then "-" + NatToString(-n) else NatToString(n)
  }

  /** The number a string of decimal digits denotes. */
  function DigitsValue(s: string): nat
    requires AllDigits(s)
  {
    if s == [] then 0
    else DigitsValue(s[..|s| - 1]) * 10 + ((s[|s| - 1] as int) - ('0' as int))
  }

  /** Reading back the digits written by NatToString gives the number. */
  lemma {:induction false} DigitsRoundTrip(n: nat)
    ensures DigitsValue(NatToString(n)) == n
  {
    var s := NatToString(n);
    if n >= 10 {
      DigitsRoundTrip(n / 10);
      assert s[..|s| - 1] == NatToString(n / 10);
    }
  }

  /** A non-negative count of cents as units, a comma and two decimals:
      1000 is "10,00". */
  function Digits2(m: nat): (s: string)
    ensures |s| >= 4 && s[0] != '-'
    ensures s[|s| - 3] == ','
  {
    NatToString(m / 100) + [',', Digit(m % 100 / 10), Digit(m % 10)]
  }

  /** An amount of cents written as units with two decimals, after the sign
      of a negative amount: 1000 is "10,00", -5 is "-0,05". */
  function Cents(n: int): (s: string)
    ensures |s| >= 4
    ensures s[0] == '-' <==> n < 0
  {
    if n < 0 then "-" + Digits2(-n) else Digits2(n)
  }

  /** Rounds to the nearest integer, halves away from zero (Java's HALF_UP). */
  function RoundHalfUp(x: real): (r: int)
    ensures x >= 0.0 ==> x - 0.5 < r as real <= x + 0.5
    ensures x < 0.0 ==> x - 0.5 <= r as real < x + 0.5
  {
    if x >= 0.0 then (x + 0.5).Floor else -((-x + 0.5).Floor)
  }

  /** Java's `String.format("%.2f", x)` with a comma as decimal separator: the
      value rounded half up to cents. */
  function Fixed2(x: real): (r: string)
    ensures |r| >= 4
  {
    Cents(RoundHalfUp(x * 100.0))
  }

  /** The text of a value starts with a minus sign exactly when the value
      rounds to a negative number of cents. */
  lemma Fixed2Sign(x: real)
    ensures Fixed2(x)[0] == '-' <==> x * 100.0 <= -0.5
  {
    var y := x * 100.0;
    if y < 0.0 {
      assert RoundHalfUp(y) < 0 <==> (-y + 0.5).Floor >= 1;
    }
  }

  /** A negative value that rounds to zero cents is shown without a sign. */
  lemma Fixed2SmallNegative()
    ensures Fixed2(-0.001) == "0,00"
  {
    assert RoundHalfUp(-0.1) == 0;
    assert Digits2(0) == "0,00";
  }

  /** Rounding a whole number gives that number. */
  lemma RoundHalfUpWhole(y: real, n: int)
    requires y == n as real
    ensures RoundHalfUp(y) == n
  {
    if n >= 0 {
      assert (n as real + 0.5).Floor == n;
    } else {
      assert (-(n as real) + 0.5).Floor == -n;
    }
  }

  /** A value that is an exact number `n` of cents is shown as those cents. */
  lemma Fixed2OfExact(x: real, n: int)
    requires x * 100.0 == n as real
    ensures Fixed2(x) == Cents(n)
  {
    RoundHalfUpWhole(x * 100.0, n);
  }

  /** A rate shown as a percentage that is an exact number `k` of cents is
      shown as those cents. */
  lemma Fixed2OfRate(t: real, k: int)
    requires t * 10000.0 == k as real
    ensures Fixed2(t * 100.0) == Cents(k)
  {
    RoundHalfUpWhole(t * 100.0 * 100.0, k);
  }

  /** Formatting an exact count of cents divided by 100 shows the cents. */
  lemma Fixed2OfCents(n: int)
    ensures Fixed2(n as real / 100.0) == Cents(n)
  {
    var x := n as real / 100.0;
    assert x * 100.0 == n as real;
    Fixed2OfExact(x, n);
  }

  /** The amounts of the system's bet examples, written out. */
  lemma CentsExamples()
    ensures Cents(1000) == "10,00" && Cents(2000) == "20,00" && Cents(20000) == "200,00"
  {
    assert NatToString(10) == "10";
    assert NatToString(20) == "20";
    assert NatToString(200) == "200";
  }

  /** Parses the text Cents writes for a non-negative amount. */
  function ParseCents(s: string): int
    requires |s| >= 4 && s[|s| - 3] == ','
    requires AllDigits(s[..|s| - 3]) && AllDigits(s[|s| - 2..])
  {
    DigitsValue(s[..|s| - 3]) * 100 + DigitsValue(s[|s| - 2..])
  }

  /** The digits of a count of cents parse back to that count. */
  lemma {:induction false} Digits2RoundTrip(m: nat)
    ensures var s := Digits2(m);
      s[|s| - 3] == ',' && AllDigits(s[..|s| - 3]) && AllDigits(s[|s| - 2..])
      && ParseCents(s) == m
  {
    var s := Digits2(m);
    var whole := NatToString(m / 100);
    assert s[..|s| - 3] == whole;
    var frac := s[|s| - 2..];
    assert frac == [Digit(m % 100 / 10), Digit(m % 10)];
    DigitsRoundTrip(m / 100);
    assert frac[..1] == [Digit(m % 100 / 10)];
    assert DigitsValue(frac[..1]) == m % 100 / 10;
    assert DigitsValue(frac) == m % 100;
  }

  /** Rendering cents and parsing them back gives the amount again. */
  lemma CentsRoundTrip(n: nat)
    ensures var s := Cents(n);
      |s| >= 4 && s[|s| - 3] == ',' && AllDigits(s[..|s| - 3]) && AllDigits(s[|s| - 2..])
      && ParseCents(s) == n
  {
    Digits2RoundTrip(n);
  }

  /** Distinct non-negative amounts render to distinct texts. */
  lemma CentsInjective(a: nat, b: nat)
    requires Cents(a) == Cents(b)
    ensures a == b
  {
    CentsRoundTrip(a);
    CentsRoundTrip(b);
  }

  /** `parts` joined by `sep`: no separator before the first or after the last part. */
  function Join(parts: seq<string>, sep: string): string
    decreases |parts|
  {
    if |parts| == 0 then ""
    else if |parts| == 1 then parts[0]
    else Join(parts[..|parts| - 1], sep) + sep + parts[|parts| - 1]
  }

  /** A join of non-empty parts is non-empty exactly when there are parts,
      and it ends with the last part. */
  lemma {:induction false} JoinShape(parts: seq<string>, sep: string)
    requires forall i :: 0 <= i < |parts| ==> parts[i] != []
    ensures (Join(parts, sep) == []) <==> (parts == [])
    ensures parts != [] ==>
              && |Join(parts, sep)| >= |parts[|parts| - 1]|
              && Join(parts, sep)[|Join(parts, sep)| - |parts[|parts| - 1]|..] == parts[|parts| - 1]
  {
    if |parts| > 1 {
      JoinShape(parts[..|parts| - 1], sep);
    }
  }

  /** One step of the rendering loops: `if (r.isEmpty()) r = x; else r += sep + x;`. */
  function AppendLine(r: string, x: string): string {
    if r == [] then x else r + LineSeparator + x
  }

  /** Over non-empty texts, the rendering loop step extends the join by one part. */
  lemma JoinSnoc(parts: seq<string>, x: string)
    requires forall i :: 0 <= i < |parts| ==> parts[i] != []
    ensures Join(parts + [x], LineSeparator) == AppendLine(Join(parts, LineSeparator), x)
  {
    JoinShape(parts, LineSeparator);
    assert (parts + [x])[..|parts|] == parts;
  }
}
