/** The string operations of Rust's standard library that the crate relies on. */
module Text {
  import opened Wrappers

  const U32_LIMIT := 0x1_0000_0000

  // --- Decimal numbers -----------------------------------------------------

  predicate IsDigit(c: char) {
    '0' <= c <= '9'
  }

  predicate AllDigits(s: string) {
    forall i :: 0 <= i < |s| ==> IsDigit(s[i])
  }

  function DigitChar(d: nat): (c: char)
    requires d < 10
    ensures IsDigit(c)
  {
    ('0' as int + d) as char
  }

  /** The decimal text of a number, without leading zeros. */
  function Decimal(n: nat): (s: string)
    ensures s != "" && AllDigits(s)
  {
    if n < 10 then [DigitChar(n)] else Decimal(n / 10) + [DigitChar(n % 10)]
  }

  function DecimalValue(s: string): nat
    requires AllDigits(s)
  {
    if s == "" then 0
    else DecimalValue(s[..|s| - 1]) * 10 + (s[|s| - 1] as int - '0' as int)
  }

  lemma {:induction false} DecimalRoundTrip(n: nat)
    ensures DecimalValue(Decimal(n)) == n
  {
    if n >= 10 {
      DecimalRoundTrip(n / 10);
      var s := Decimal(n);
      assert s[..|s| - 1] == Decimal(n / 10);
    }
  }

  /** `str::parse` for an unsigned integer below `bound`: one optional plus sign, then digits. */
  function ParseUnsigned(s: string, bound: nat): Option<nat> {
    var digits := if |s| > 1 && s[0] == '+' then s[1..] else s;
    if digits == "" || !AllDigits(digits) then None
    else if DecimalValue(digits) >= bound then None
    else Some(DecimalValue(digits))
  }

  /** Length of the longest prefix made of digits. */
  function DigitRun(s: string): (n: nat)
    ensures n <= |s| && AllDigits(s[..n])
    ensures n < |s| ==> !IsDigit(s[n])
  {
    if s == "" || !IsDigit(s[0]) then 0
    else
      var n := DigitRun(s[1..]);
      assert s[..n + 1] == [s[0]] + s[1..][..n];
      n + 1
  }

  lemma DigitRunOf(digits: string, rest: string)
    requires AllDigits(digits) && (rest == "" || !IsDigit(rest[0]))
    ensures DigitRun(digits + rest) == |digits|
  {
    var s := digits + rest;
    assert forall i :: 0 <= i < |digits| ==> s[i] == digits[i];
    assert rest != "" ==> s[|digits|] == rest[0];
    assert forall i :: 0 <= i < DigitRun(s) ==> s[..DigitRun(s)][i] == s[i];
  }

  // --- Splitting and joining -----------------------------------------------

  /** `str::split(sep)`: always at least one part. */
  function Split(s: string, sep: char): (parts: seq<string>)
    ensures |parts| > 0
    ensures forall i :: 0 <= i < |parts| ==> sep !in parts[i]
  {
    if s == "" then [""]
    else
      var rest := Split(s[1..], sep);
      if s[0] == sep then [""] + rest else [[s[0]] + rest[0]] + rest[1..]
  }

  function Join(parts: seq<string>, sep: string): string {
    if |parts| == 0 then ""
    else if |parts| == 1 then parts[0]
    else parts[0] + sep + Join(parts[1..], sep)
  }

  lemma {:induction false} SplitWithoutSeparator(s: string, sep: char)
    requires sep !in s
    ensures Split(s, sep) == [s]
  {
    if s != "" {
      SplitWithoutSeparator(s[1..], sep);
      assert [s[0]] + s[1..] == s;
    }
  }

  lemma {:induction false} SplitAtSeparator(a: string, b: string, sep: char)
    requires sep !in a
    ensures Split(a + [sep] + b, sep) == [a] + Split(b, sep)
  {
    var s := a + [sep] + b;
    if a == "" {
      assert s[1..] == b;
    } else {
      SplitAtSeparator(a[1..], b, sep);
      assert s[1..] == a[1..] + [sep] + b;
      assert [a[0]] + a[1..] == a;
    }
  }

  /** Joining and splitting again loses nothing, whatever the parts are. */
  lemma {:induction false} SplitJoin(parts: seq<string>, sep: char)
    requires |parts| > 0
    requires forall i :: 0 <= i < |parts| ==> sep !in parts[i]
    ensures Split(Join(parts, [sep]), sep) == parts
  {
    hide Split;
    if |parts| == 1 {
      SplitWithoutSeparator(parts[0], sep);
      assert parts == [parts[0]];
    } else {
      SplitJoin(parts[1..], sep);
      SplitAtSeparator(parts[0], Join(parts[1..], [sep]), sep);
      assert parts == [parts[0]] + parts[1..];
    }
  }

  lemma {:induction false} JoinSplit(s: string, sep: char)
    ensures Join(Split(s, sep), [sep]) == s
  {
    if s != "" {
      JoinSplit(s[1..], sep);
      var rest := Split(s[1..], sep);
      var parts := Split(s, sep);
      if s[0] == sep {
        assert parts[1..] == rest;
      } else {
        assert parts[1..] == rest[1..];
      }
    }
  }

  /** `str::split_once(sep)`. */
  function SplitOnce(s: string, sep: char): Option<(string, string)> {
    if s == "" then None
    else if s[0] == sep then Some(("", s[1..]))
    else match SplitOnce(s[1..], sep)
      case None => None
      case Some((a, b)) => Some(([s[0]] + a, b))
  }

  lemma {:induction false} SplitOnceAt(a: string, b: string, sep: char)
    requires sep !in a
    ensures SplitOnce(a + [sep] + b, sep) == Some((a, b))
  {
    var s := a + [sep] + b;
    if a == "" {
      assert s[1..] == b;
    } else {
      SplitOnceAt(a[1..], b, sep);
      assert s[1..] == a[1..] + [sep] + b;
      assert [a[0]] + a[1..] == a;
    }
  }

  lemma {:induction false} SplitOnceInverse(s: string, sep: char)
    ensures SplitOnce(s, sep).None? <==> sep !in s
    ensures SplitOnce(s, sep).Some? ==>
              var (a, b) := SplitOnce(s, sep).value; sep !in a && s == a + [sep] + b
  {
    if s != "" && s[0] != sep {
      SplitOnceInverse(s[1..], sep);
    }
  }

  // --- Trimming ------------------------------------------------------------

  /** The code points with the Unicode property White_Space. */
  predicate IsWhitespace(c: char) {
    var n := c as int;
    || 0x09 <= n <= 0x0D || n == 0x20 || n == 0x85 || n == 0xA0 || n == 0x1680
    || 0x2000 <= n <= 0x200A || n == 0x2028 || n == 0x2029 || n == 0x202F
    || n == 0x205F || n == 0x3000
  }

  function TrimStart(s: string): (t: string)
    ensures t == "" || !IsWhitespace(t[0])
  {
    if s == "" || !IsWhitespace(s[0]) then s else TrimStart(s[1..])
  }

  function TrimEnd(s: string): (t: string)
    ensures t == "" || !IsWhitespace(t[|t| - 1])
  {
    if s == "" || !IsWhitespace(s[|s| - 1]) then s else TrimEnd(s[..|s| - 1])
  }

  /** `str::trim`. */
  function Trim(s: string): string {
    TrimEnd(TrimStart(s))
  }

  predicate Trimmed(s: string) {
    s == "" || (!IsWhitespace(s[0]) && !IsWhitespace(s[|s| - 1]))
  }

  predicate Blank(s: string) {
    forall k | 0 <= k < |s| :: IsWhitespace(s[k])
  }

  /** Trimming at the start takes off blanks and nothing else. */
  lemma {:induction false} TrimStartStrips(s: string) returns (lead: string)
    ensures s == lead + TrimStart(s) && Blank(lead)
  {
    if s != "" && IsWhitespace(s[0]) {
      var more := TrimStartStrips(s[1..]);
      lead := [s[0]] + more;
      HeadTail(s);
      AppendAssoc([s[0]], more, TrimStart(s));
    } else {
      lead := "";
    }
  }

  lemma {:induction false} TrimEndStrips(s: string) returns (trail: string)
    ensures s == TrimEnd(s) + trail && Blank(trail)
  {
    if s != "" && IsWhitespace(s[|s| - 1]) {
      var front, last := s[..|s| - 1], [s[|s| - 1]];
      TrimEndLast(front, s[|s| - 1]);
      hide TrimEnd;
      var more := TrimEndStrips(front);
      trail := more + last;
      assert s == front + last;
      AppendAssoc(TrimEnd(s), more, last);
    } else {
      trail := "";
    }
  }

  lemma AppendAssoc(a: string, b: string, c: string)
    ensures (a + b) + c == a + (b + c)
  {
  }

  lemma HeadTail(s: string)
    requires s != ""
    ensures [s[0]] + s[1..] == s
  {
  }

  /** Trimming takes blanks off both ends and nothing else; the rest begins and ends with no blank. */
  lemma TrimStrips(s: string) returns (lead: string, trail: string)
    ensures s == lead + Trim(s) + trail && Blank(lead) && Blank(trail) && Trimmed(Trim(s))
  {
    hide TrimStart, TrimEnd;
    lead := TrimStartStrips(s);
    trail := TrimEndStrips(TrimStart(s));
    AppendAssoc(lead, Trim(s), trail);
    var t := Trim(s);
    if t != "" {
      assert TrimStart(s)[0] == t[0];
    }
  }

  lemma TrimFixpoint(s: string)
    requires Trimmed(s)
    ensures Trim(s) == s
  {
  }

  // --- Trimming around a separator ---------------------------------------------

  lemma TrimStartFirst(c: char, t: string)
    ensures TrimStart([c] + t) == if IsWhitespace(c) then TrimStart(t) else [c] + t
  {
    assert ([c] + t)[1..] == t;
  }

  lemma TrimEndLast(t: string, c: char)
    ensures TrimEnd(t + [c]) == if IsWhitespace(c) then TrimEnd(t) else t + [c]
  {
    assert (t + [c])[..|t|] == t;
  }

  lemma {:induction false} TrimStartBefore(a: string, c: char, b: string)
    requires !IsWhitespace(c)
    ensures TrimStart(a + ([c] + b)) == TrimStart(a) + ([c] + b)
  {
    hide TrimStart, IsWhitespace;
    if a == "" {
      TrimStartFirst(c, b);
      TrimStartOfNothing();
      assert a + ([c] + b) == [c] + b;
    } else {
      TrimStartBefore(a[1..], c, b);
      HeadTail(a);
      AppendAssoc([a[0]], a[1..], [c] + b);
      TrimStartFirst(a[0], a[1..] + ([c] + b));
      TrimStartFirst(a[0], a[1..]);
    }
  }

  lemma TrimStartOfNothing()
    ensures TrimStart("") == ""
  {
  }

  lemma {:induction false} TrimEndAfter(a: string, c: char, b: string)
    requires !IsWhitespace(c)
    ensures TrimEnd((a + [c]) + b) == (a + [c]) + TrimEnd(b)
  {
    hide TrimEnd, IsWhitespace;
    if b == "" {
      TrimEndLast(a, c);
      TrimEndOfNothing();
      assert (a + [c]) + b == a + [c];
    } else {
      var front, last := b[..|b| - 1], b[|b| - 1];
      TrimEndAfter(a, c, front);
      assert b == front + [last];
      AppendAssoc(a + [c], front, [last]);
      TrimEndLast((a + [c]) + front, last);
      TrimEndLast(front, last);
    }
  }

  lemma TrimEndOfNothing()
    ensures TrimEnd("") == ""
  {
  }

  lemma TrimAround(a: string, c: char, b: string)
    requires !IsWhitespace(c)
    ensures Trim(a + [c] + b) == TrimStart(a) + [c] + TrimEnd(b)
  {
    hide TrimStart, TrimEnd, IsWhitespace;
    AppendAssoc(a, [c], b);
    TrimStartBefore(a, c, b);
    AppendAssoc(TrimStart(a), [c], b);
    TrimEndAfter(TrimStart(a), c, b);
  }

  lemma {:induction false} TrimEndFirst(c: char, t: string)
    ensures TrimEnd([c] + t) == if TrimEnd(t) == "" then TrimEnd([c]) else [c] + TrimEnd(t)
  {
    hide TrimEnd, IsWhitespace;
    if t == "" {
      TrimEndOfNothing();
      assert [c] + t == [c];
    } else {
      var front, last := t[..|t| - 1], t[|t| - 1];
      TrimEndFirst(c, front);
      assert t == front + [last];
      AppendAssoc([c], front, [last]);
      TrimEndLast([c] + front, last);
      TrimEndLast(front, last);
    }
  }

  lemma TrimEndOne(c: char)
    ensures TrimEnd([c]) == if IsWhitespace(c) then "" else [c]
  {
    assert [c][..0] == "";
  }

  lemma {:induction false} TrimsCommute(s: string)
    ensures TrimStart(TrimEnd(s)) == TrimEnd(TrimStart(s))
  {
    hide TrimStart, TrimEnd, IsWhitespace;
    TrimStartOfNothing();
    TrimEndOfNothing();
    if s != "" {
      var c, t := s[0], s[1..];
      HeadTail(s);
      TrimsCommute(t);
      TrimEndFirst(c, t);
      TrimEndOne(c);
      TrimStartFirst(c, t);
      TrimStartFirst(c, TrimEnd(t));
      TrimStartFirst(c, "");
      assert [c] + "" == [c];
    }
  }

  lemma TrimAgain(s: string)
    ensures Trim(TrimStart(s)) == Trim(s)
    ensures Trim(TrimEnd(s)) == Trim(s)
    ensures Trim(Trim(s)) == Trim(s)
  {
    hide TrimStart, TrimEnd;
    TrimsCommute(s);
    StartTwice(s);
    EndTwice(TrimStart(s));
    EndTwice(s);
    TrimsCommute(TrimStart(s));
  }

  lemma StartTwice(s: string)
    ensures TrimStart(TrimStart(s)) == TrimStart(s)
  {
  }

  lemma EndTwice(s: string)
    ensures TrimEnd(TrimEnd(s)) == TrimEnd(s)
  {
  }
}
