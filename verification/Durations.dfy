/** The crate's duration format, read, and Go's duration format, written (src/utils.rs). */
module Durations {
  import opened Wrappers
  import opened Text

  const U64_LIMIT := 0x1_0000_0000_0000_0000
  const NANOS := 1_000_000_000

  /** `std::time::Duration`: whole seconds and the nanoseconds below one second. */
  datatype Duration = Duration(secs: nat, nanos: nat) {
    ghost predicate Valid() {
      secs < U64_LIMIT && nanos < NANOS
    }

    function TotalNanos(): nat {
      secs * NANOS + nanos
    }
  }

  // --- Reading -------------------------------------------------------------

  datatype DurationError = MissingNumber | InvalidNumber | InvalidUnit(text: string)

  /** Seconds in one unit; months and years are approximate. */
  function UnitSeconds(text: string): Option<nat> {
    if text == "s" then Some(1)
    else if text == "m" then Some(60)
    else if text == "h" then Some(60 * 60)
    else if text == "d" then Some(24 * 60 * 60)
    else if text == "w" then Some(7 * 24 * 60 * 60)
    else if text == "mo" then Some(30 * 24 * 60 * 60)
    else if text == "y" then Some(365 * 24 * 60 * 60)
    else None
  }

  /** The count is cut to 32 bits before it is multiplied. */
  function ParseCustomDuration(input: string, defaultInput: string): (r: Result<Duration, DurationError>)
    ensures r.Success? ==> r.value.Valid() && r.value.nanos == 0
  {
    var text := if input == "" then defaultInput else input;
    var splitAt := DigitRun(text);
    if splitAt == 0 then Failure(MissingNumber)
    else
      var num := DecimalValue(text[..splitAt]);
      if num >= U64_LIMIT then Failure(InvalidNumber)
      else
        match UnitSeconds(text[splitAt..])
        case None => Failure(InvalidUnit(text[splitAt..]))
        case Some(unit) => Success(Duration(unit * (num % U32_LIMIT), 0))
  }

  lemma UnitText(unit: string)
    requires UnitSeconds(unit).Some?
    ensures unit != "" && !IsDigit(unit[0])
    ensures 0 < UnitSeconds(unit).value <= 365 * 24 * 60 * 60
  {
  }

  /**
   Any decimal text with one of the seven units reads as the product, as long as the count fits
   in 32 bits; a 64-bit count beyond that loses its high bits, and a longer one is an error.
   */
  lemma ParseText(digits: string, unit: string, defaultInput: string)
    requires digits != "" && AllDigits(digits) && UnitSeconds(unit).Some?
    ensures var n, u := DecimalValue(digits), UnitSeconds(unit).value;
            var r := ParseCustomDuration(digits + unit, defaultInput);
            && (r.Success? <==> n < U64_LIMIT)
            && (r == Success(Duration(n * u, 0)) <==> n < U32_LIMIT)
            && (r.Success? ==> r.value.secs == n % U32_LIMIT * u)
            && (n < U32_LIMIT ==> n * u < U64_LIMIT)
  {
    hide DecimalValue, UnitSeconds, ParseCustomDuration, AllDigits;
    UnitText(unit);
    ParseParts(digits, unit, defaultInput);
    TruncatedCount(DecimalValue(digits), UnitSeconds(unit).value);
  }

  lemma ParseParts(digits: string, unit: string, defaultInput: string)
    requires digits != "" && AllDigits(digits) && UnitSeconds(unit).Some?
    ensures ParseCustomDuration(digits + unit, defaultInput) ==
            if DecimalValue(digits) >= U64_LIMIT then Failure(InvalidNumber)
            else Success(Duration(UnitSeconds(unit).value * (DecimalValue(digits) % U32_LIMIT), 0))
  {
    hide DecimalValue, DigitRun, UnitSeconds, AllDigits;
    UnitText(unit);
    DigitRunOf(digits, unit);
    var text := digits + unit;
    assert text[..|digits|] == digits && text[|digits|..] == unit;
  }

  lemma TruncatedCount(n: nat, u: nat)
    requires 0 < u <= 365 * 24 * 60 * 60
    ensures u * (n % U32_LIMIT) == n * u <==> n < U32_LIMIT
    ensures u * (n % U32_LIMIT) == n % U32_LIMIT * u
    ensures n < U32_LIMIT ==> n * u < U64_LIMIT
  {
    if n < U32_LIMIT {
      MulLess(n, U32_LIMIT, u, 365 * 24 * 60 * 60);
    } else {
      MulStrict(n % U32_LIMIT, n, u);
    }
  }

  lemma MulLess(a: nat, b: nat, c: nat, d: nat)
    requires a <= b && c <= d
    ensures a * c <= b * d
  {
    calc <= {
      a * c;
      { MulOrder(c, a, b); }
      b * c;
      { MulOrder(b, c, d); }
      b * d;
    }
  }

  lemma MulOrder(k: nat, a: nat, b: nat)
    requires a <= b
    ensures k * a <= k * b
  {
    assert k * b == k * a + k * (b - a);
  }

  lemma MulStrict(a: nat, b: nat, u: nat)
    requires a < b && u > 0
    ensures u * a < b * u
  {
    assert u * b == u * a + u * (b - a);
    MulOrder(u, 1, b - a);
  }

  /** Nothing else is read: an accepted input is digits followed by a unit. */
  lemma ParseAccepts(input: string, defaultInput: string)
    requires ParseCustomDuration(input, defaultInput).Success?
    ensures var text := if input == "" then defaultInput else input;
            exists digits, unit :: && digits != "" && AllDigits(digits) && UnitSeconds(unit).Some?
                                   && text == digits + unit && DecimalValue(digits) < U64_LIMIT
  {
    var text := if input == "" then defaultInput else input;
    var k := DigitRun(text);
    assert text == text[..k] + text[k..];
  }

  /** The duration a person writes, for every count below 2^32 and each of the seven units. */
  lemma ParseDecimal(n: nat, unit: string, defaultInput: string)
    requires n < U32_LIMIT && UnitSeconds(unit).Some?
    ensures ParseCustomDuration(Decimal(n) + unit, defaultInput) == Success(Duration(n * UnitSeconds(unit).value, 0))
    ensures n * UnitSeconds(unit).value < U64_LIMIT
  {
    ParseText(Decimal(n), unit, defaultInput);
    DecimalRoundTrip(n);
  }

  lemma CutText()
    ensures Decimal(U32_LIMIT) + "s" == "4294967296s"
  {
    assert Decimal(4) == "4" && Decimal(42) == "42" && Decimal(429) == "429" && Decimal(4294) == "4294";
    assert Decimal(42949) == "42949" && Decimal(429496) == "429496" && Decimal(4294967) == "4294967";
    assert Decimal(42949672) == "42949672" && Decimal(429496729) == "429496729";
    assert Decimal(4294967296) == "4294967296";
  }

  /** The seven units, in seconds. */
  lemma ParseUnits(n: nat, defaultInput: string)
    requires n < U32_LIMIT
    ensures ParseCustomDuration(Decimal(n) + "s", defaultInput) == Success(Duration(n, 0))
    ensures ParseCustomDuration(Decimal(n) + "m", defaultInput) == Success(Duration(n * 60, 0))
    ensures ParseCustomDuration(Decimal(n) + "h", defaultInput) == Success(Duration(n * 3600, 0))
    ensures ParseCustomDuration(Decimal(n) + "d", defaultInput) == Success(Duration(n * 86_400, 0))
    ensures ParseCustomDuration(Decimal(n) + "w", defaultInput) == Success(Duration(n * 604_800, 0))
    ensures ParseCustomDuration(Decimal(n) + "mo", defaultInput) == Success(Duration(n * 2_592_000, 0))
    ensures ParseCustomDuration(Decimal(n) + "y", defaultInput) == Success(Duration(n * 31_536_000, 0))
  {
    hide ParseCustomDuration, Decimal;
    UnitTable();
    ParseDecimal(n, "s", defaultInput);
    ParseDecimal(n, "m", defaultInput);
    ParseDecimal(n, "h", defaultInput);
    ParseDecimal(n, "d", defaultInput);
    ParseDecimal(n, "w", defaultInput);
    ParseDecimal(n, "mo", defaultInput);
    ParseDecimal(n, "y", defaultInput);
  }

  lemma UnitTable()
    ensures UnitSeconds("s") == Some(1) && UnitSeconds("m") == Some(60) && UnitSeconds("h") == Some(3600)
    ensures UnitSeconds("d") == Some(86_400) && UnitSeconds("w") == Some(604_800)
    ensures UnitSeconds("mo") == Some(2_592_000) && UnitSeconds("y") == Some(31_536_000)
    ensures forall text :: UnitSeconds(text).Some? <==> text in {"s", "m", "h", "d", "w", "mo", "y"}
  {
    assert |"s"| == |"m"| == |"h"| == |"d"| == |"w"| == |"y"| == 1 && |"mo"| == 2;
    assert "s"[0] == 's' && "m"[0] == 'm' && "h"[0] == 'h' && "d"[0] == 'd' && "w"[0] == 'w' && "y"[0] == 'y';
  }

  /**
   Every other text is an error, and which: no leading digit, too large a count, or no such unit. An empty
   text reads as the default.
   */
  lemma ParseRefuses(digits: string, rest: string, defaultInput: string)
    requires AllDigits(digits) && (rest == "" || !IsDigit(rest[0])) && digits + rest != ""
    ensures digits == "" ==> ParseCustomDuration(rest, defaultInput) == Failure(MissingNumber)
    ensures digits != "" && DecimalValue(digits) >= U64_LIMIT ==>
              ParseCustomDuration(digits + rest, defaultInput) == Failure(InvalidNumber)
    ensures digits != "" && DecimalValue(digits) < U64_LIMIT && rest !in {"s", "m", "h", "d", "w", "mo", "y"} ==>
              ParseCustomDuration(digits + rest, defaultInput) == Failure(InvalidUnit(rest))
    ensures ParseCustomDuration("", digits + rest) == ParseCustomDuration(digits + rest, defaultInput)
  {
    hide DecimalValue, DigitRun, UnitSeconds, AllDigits;
    UnitTable();
    DigitRunOf(digits, rest);
    var text := digits + rest;
    assert text[..|digits|] == digits && text[|digits|..] == rest;
    if digits == "" {
      assert text == rest;
    }
  }

  /** The smallest count that is cut: 2^32 seconds read as none. */
  lemma ParseCut(defaultInput: string)
    ensures ParseCustomDuration("4294967296s", defaultInput) == Success(Duration(0, 0))
  {
    hide ParseCustomDuration, Decimal, DecimalValue;
    CutText();
    DecimalRoundTrip(U32_LIMIT);
    ParseText(Decimal(U32_LIMIT), "s", defaultInput);
  }

  // --- Writing -------------------------------------------------------------

  /** A number of at most `width` digits, with leading zeros up to that width. */
  function Padded(n: nat, width: nat): (s: string)
    ensures |s| == width && AllDigits(s)
  {
    if width == 0 then "" else Padded(n / 10, width - 1) + [DigitChar(n % 10)]
  }

  /** The text without its trailing zeros. */
  function TrimZeros(s: string): (t: string)
    ensures t <= s
  {
    if s != "" && s[|s| - 1] == '0' then TrimZeros(s[..|s| - 1]) else s
  }

  function Fraction(nanos: nat): string {
    if nanos == 0 then "" else "." + TrimZeros(Padded(nanos, 9))
  }

  /** Go's `time.Duration.String`, for zero and from one second up. */
  function GoDurationString(d: Duration): string
    requires d.secs >= 1 || d.nanos == 0
  {
    if d.secs == 0 then "0s"
    else
      var s, m, h := d.secs % 60, d.secs / 60 % 60, d.secs / 3600;
      var seconds := Decimal(s) + Fraction(d.nanos) + "s";
      if h > 0 then Decimal(h) + "h" + (Decimal(m) + "m" + seconds)
      else if m > 0 then Decimal(m) + "m" + seconds
      else seconds
  }

  // --- Go's reader ---------------------------------------------------------

  function GoUnitNanos(unit: string): Option<nat> {
    if unit == "ns" then Some(1)
    else if unit == "us" then Some(1_000)
    else if unit == "ms" then Some(1_000_000)
    else if unit == "s" then Some(NANOS)
    else if unit == "m" then Some(60 * NANOS)
    else if unit == "h" then Some(3600 * NANOS)
    else None
  }

  function Pow10(k: nat): (p: nat)
    ensures p > 0
  {
    if k == 0 then 1 else 10 * Pow10(k - 1)
  }

  /** Length of the unit at the front: everything up to the next digit or point. */
  function UnitRun(s: string): (n: nat)
    ensures n <= |s|
  {
    if s == "" || IsDigit(s[0]) || s[0] == '.' then 0 else 1 + UnitRun(s[1..])
  }

  /** The nanoseconds of a number with a fraction, in a given unit. */
  function Amount(whole: string, fraction: string, unit: nat): nat
    requires AllDigits(whole) && AllDigits(fraction)
  {
    DecimalValue(whole) * unit + Quotient(DecimalValue(fraction) * unit, Pow10(|fraction|))
  }

  function Quotient(a: nat, b: nat): nat
    requires b > 0
  {
    a / b
  }

  lemma WholeAmount(n: nat, unit: nat)
    ensures Amount(Decimal(n), "", unit) == n * unit
  {
    DecimalRoundTrip(n);
    assert Quotient(0 * unit, Pow10(0)) == 0;
  }

  /** The digits before the point, the digits after it, and what follows them. */
  function SplitNumber(s: string): (r: (string, string, string))
    ensures AllDigits(r.0) && AllDigits(r.1)
    ensures |r.0| + |r.1| + |r.2| <= |s|
  {
    var whole, rest := s[..DigitRun(s)], s[DigitRun(s)..];
    if rest != "" && rest[0] == '.' then
      var tail := rest[1..];
      (whole, tail[..DigitRun(tail)], tail[DigitRun(tail)..])
    else (whole, "", rest)
  }

  /** One term of Go's grammar: digits, an optional fraction, a unit. Gives its nanoseconds and the rest. */
  function ReadTerm(s: string): (r: Option<(nat, string)>)
    ensures r.Some? ==> |r.value.1| < |s|
  {
    var (whole, fraction, rest) := SplitNumber(s);
    if whole == "" && fraction == "" then None
    else
      match GoUnitNanos(rest[..UnitRun(rest)])
      case None => None
      case Some(unit) => Some((Amount(whole, fraction, unit), rest[UnitRun(rest)..]))
  }

  /** `time.ParseDuration` on unsigned text: the sum of one or more terms. */
  function ReadGoDuration(s: string): Option<nat>
    decreases |s|
  {
    match ReadTerm(s)
    case None => None
    case Some((n, rest)) =>
      if rest == "" then Some(n)
      else match ReadGoDuration(rest)
        case None => None
        case Some(more) => Some(n + more)
  }

  // --- The round trip ------------------------------------------------------

  lemma {:induction false} PaddedValue(n: nat, width: nat)
    requires n < Pow10(width)
    ensures DecimalValue(Padded(n, width)) == n
  {
    if width > 0 {
      PaddedValue(n / 10, width - 1);
      var s := Padded(n, width);
      assert s[..|s| - 1] == Padded(n / 10, width - 1);
    }
  }

  lemma {:induction false} TrimZerosValue(s: string)
    requires AllDigits(s)
    ensures AllDigits(TrimZeros(s))
    ensures DecimalValue(s) == DecimalValue(TrimZeros(s)) * Pow10(|s| - |TrimZeros(s)|)
  {
    if s != "" && s[|s| - 1] == '0' {
      var front := s[..|s| - 1];
      TrimZerosValue(front);
      var k := |front| - |TrimZeros(s)|;
      assert Pow10(k + 1) == 10 * Pow10(k);
      TimesTen(DecimalValue(TrimZeros(s)), Pow10(k));
      assert DecimalValue(s) == DecimalValue(front) * 10;
    }
  }

  lemma TimesTen(v: nat, p: nat)
    ensures v * p * 10 == v * (10 * p)
  {
  }

  lemma {:induction false} PowSplit(a: nat, b: nat)
    ensures Pow10(a + b) == Pow10(a) * Pow10(b)
  {
    if a > 0 {
      PowSplit(a - 1, b);
      assert Pow10(a + b) == 10 * Pow10(a - 1 + b);
    }
  }

  /** The trimmed fraction still stands for the same nanoseconds. */
  lemma FractionAmount(n: nat, nanos: nat)
    requires nanos < NANOS
    ensures var f := TrimZeros(Padded(nanos, 9));
            AllDigits(f) && Amount(Decimal(n), f, NANOS) == n * NANOS + nanos
  {
    NinePowers();
    PaddedValue(nanos, 9);
    DecimalRoundTrip(n);
    var f := TrimZeros(Padded(nanos, 9));
    TrimZerosValue(Padded(nanos, 9));
    PowSplit(9 - |f|, |f|);
    ScaleBack(DecimalValue(f), Pow10(9 - |f|), Pow10(|f|));
  }

  lemma NinePowers()
    ensures Pow10(9) == NANOS
  {
    assert Pow10(4) == 10_000;
    assert Pow10(5) == 100_000;
    PowSplit(4, 5);
  }

  lemma ScaleBack(v: nat, p: nat, q: nat)
    requires q > 0
    ensures v * (p * q) / q == v * p
  {
    assert v * (p * q) == v * p * q;
    DivExact(v * p, q);
  }

  lemma DivExact(a: nat, b: nat)
    requires b > 0
    ensures a * b / b == a
  {
    var q := a * b / b;
    QuotientUnique(a * b, b, q, a);
  }

  lemma QuotientUnique(n: nat, b: nat, q: nat, a: nat)
    requires b > 0 && n == a * b && q == n / b
    ensures q == a
  {
    var r := n % b;
    assert n == b * q + r;
    assert b * (a - q) == r;
    if a > q {
      MulOrder(b, 1, a - q);
    }
  }

  lemma UnitRunOf(unit: char, rest: string)
    requires !IsDigit(unit) && unit != '.'
    requires rest == "" || IsDigit(rest[0])
    ensures UnitRun([unit] + rest) == 1
  {
    assert ([unit] + rest)[1..] == rest;
  }

  lemma SplitWhole(d: string, rest: string)
    requires AllDigits(d) && (rest == "" || (!IsDigit(rest[0]) && rest[0] != '.'))
    ensures SplitNumber(d + rest) == (d, "", rest)
  {
    DigitRunOf(d, rest);
    assert (d + rest)[..|d|] == d && (d + rest)[|d|..] == rest;
  }

  lemma SplitFraction(d: string, f: string, rest: string)
    requires AllDigits(d) && AllDigits(f) && (rest == "" || !IsDigit(rest[0]))
    ensures SplitNumber(d + ("." + (f + rest))) == (d, f, rest)
  {
    var tail := "." + (f + rest);
    DigitRunOf(d, tail);
    assert (d + tail)[..|d|] == d && (d + tail)[|d|..] == tail;
    assert tail[1..] == f + rest;
    DigitRunOf(f, rest);
    assert (f + rest)[..|f|] == f && (f + rest)[|f|..] == rest;
  }

  /** A term without a fraction. */
  lemma ReadWhole(n: nat, unit: char, rest: string)
    requires unit in {'h', 'm', 's'}
    requires rest == "" || IsDigit(rest[0])
    ensures ReadTerm(Decimal(n) + [unit] + rest) == Some((n * GoUnitNanos([unit]).value, rest))
  {
    hide Amount, Decimal, DigitRun, UnitRun, SplitNumber;
    var tail := [unit] + rest;
    assert Decimal(n) + [unit] + rest == Decimal(n) + tail;
    SplitWhole(Decimal(n), tail);
    UnitRunOf(unit, rest);
    assert tail[..1] == [unit] && tail[1..] == rest;
    WholeAmount(n, GoUnitNanos([unit]).value);
  }

  lemma ReadFraction(d: string, f: string)
    requires AllDigits(d) && AllDigits(f) && d != ""
    ensures ReadTerm(d + "." + f + "s") == Some((Amount(d, f, NANOS), ""))
  {
    hide Amount, DigitRun, UnitRun, SplitNumber;
    assert d + "." + f + "s" == d + ("." + (f + "s"));
    SplitFraction(d, f, "s");
    UnitRunOf('s', "");
    assert "s" == ['s'] + "" && "s"[..1] == "s" && "s"[1..] == "";
  }

  /** The seconds term, with or without a fraction. */
  lemma ReadSeconds(n: nat, nanos: nat)
    requires nanos < NANOS
    ensures ReadTerm(Decimal(n) + Fraction(nanos) + "s") == Some((n * NANOS + nanos, ""))
  {
    hide ReadTerm, Decimal, Amount, TrimZeros, Padded;
    if nanos == 0 {
      ReadWhole(n, 's', "");
      assert Decimal(n) + Fraction(nanos) + "s" == Decimal(n) + ['s'] + "";
    } else {
      var f := TrimZeros(Padded(nanos, 9));
      FractionAmount(n, nanos);
      ReadFraction(Decimal(n), f);
      assert Decimal(n) + Fraction(nanos) + "s" == Decimal(n) + "." + f + "s";
    }
  }

  lemma ZeroText()
    ensures Decimal(0) + ['s'] + "" == "0s"
  {
    assert Decimal(0) == "0";
  }

  lemma ReadMore(n: nat, unit: char, rest: string, nanos: nat)
    requires unit in {'h', 'm'}
    requires rest != "" && IsDigit(rest[0]) && ReadGoDuration(rest) == Some(nanos)
    ensures ReadGoDuration(Decimal(n) + [unit] + rest) == Some(n * GoUnitNanos([unit]).value + nanos)
  {
    hide ReadTerm, Decimal;
    ReadWhole(n, unit, rest);
  }

  lemma ClockParts(secs: nat)
    ensures secs == secs / 3600 * 3600 + secs / 60 % 60 * 60 + secs % 60
    ensures secs / 3600 == 0 ==> secs / 60 % 60 == secs / 60
  {
  }

  /** Go reads back exactly the nanoseconds that were written. */
  lemma GoDurationRoundTrip(d: Duration)
    requires d.Valid() && (d.secs >= 1 || d.nanos == 0)
    ensures ReadGoDuration(GoDurationString(d)) == Some(d.TotalNanos())
  {
    hide ReadTerm, Decimal, Fraction;
    if d.secs == 0 {
      ReadWhole(0, 's', "");
      ZeroText();
    } else {
      var s, m, h := d.secs % 60, d.secs / 60 % 60, d.secs / 3600;
      ClockParts(d.secs);
      var seconds := Decimal(s) + Fraction(d.nanos) + "s";
      ReadSeconds(s, d.nanos);
      var minutes := Decimal(m) + "m" + seconds;
      assert minutes == Decimal(m) + ['m'] + seconds;
      ReadMore(m, 'm', seconds, s * NANOS + d.nanos);
      assert Decimal(h) + "h" + minutes == Decimal(h) + ['h'] + minutes;
      ReadMore(h, 'h', minutes, m * (60 * NANOS) + (s * NANOS + d.nanos));
    }
  }
}
