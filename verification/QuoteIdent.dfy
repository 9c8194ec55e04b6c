/** Quoting of a possibly schema-qualified SQL identifier (src/db.rs). */
module QuoteIdent {
  import opened Wrappers
  import opened Text

  /** Every quotation mark is written twice. */
  function DoubleQuotes(part: string): string {
    if part == "" then ""
    else (if part[0] == '"' then "\"\"" else [part[0]]) + DoubleQuotes(part[1..])
  }

  function Quoted(part: string): string {
    "\"" + DoubleQuotes(part) + "\""
  }

  function QuoteAll(parts: seq<string>): (quoted: seq<string>)
    ensures |quoted| == |parts|
    ensures forall i :: 0 <= i < |parts| ==> quoted[i] == Quoted(parts[i])
  {
    if parts == [] then [] else [Quoted(parts[0])] + QuoteAll(parts[1..])
  }

  function QuoteIdent(name: string): string {
    Join(QuoteAll(Split(name, '.')), ".")
  }

  // --- Section 5.2 of ISO/IEC 9075-2: <delimited identifier> -----------------

  /**
   The body of a delimited identifier, after its opening quote: up to the first quote that is not
   doubled. Gives the identifier and the text after the closing quote.
   */
  function LexBody(s: string): (r: Option<(string, string)>)
    ensures r.Some? ==> |r.value.1| < |s|
  {
    if s == "" then None
    else if s[0] != '"' then
      match LexBody(s[1..])
      case None => None
      case Some((body, rest)) => Some(([s[0]] + body, rest))
    else if |s| > 1 && s[1] == '"' then
      match LexBody(s[2..])
      case None => None
      case Some((body, rest)) => Some(("\"" + body, rest))
    else Some(("", s[1..]))
  }

  /** A chain of delimited identifiers separated by periods, and nothing else. */
  function LexChain(s: string): Option<seq<string>>
    decreases |s|
  {
    if s == "" || s[0] != '"' then None
    else
      match LexBody(s[1..])
      case None => None
      case Some((body, rest)) =>
        if rest == "" then Some([body])
        else if rest[0] != '.' then None
        else
          match LexChain(rest[1..])
          case None => None
          case Some(more) => Some([body] + more)
  }

  lemma {:induction false} LexQuotedBody(part: string, rest: string)
    requires rest == "" || rest[0] != '"'
    ensures LexBody(DoubleQuotes(part) + "\"" + rest) == Some((part, rest))
  {
    var s := DoubleQuotes(part) + "\"" + rest;
    if part == "" {
      assert s == "\"" + rest;
      assert s[1..] == rest;
    } else {
      LexQuotedBody(part[1..], rest);
      var tail := DoubleQuotes(part[1..]) + "\"" + rest;
      assert [part[0]] + part[1..] == part;
      if part[0] == '"' {
        assert s == "\"\"" + tail;
        assert s[2..] == tail;
      } else {
        assert s == [part[0]] + tail;
        assert s[1..] == tail;
      }
    }
  }

  lemma LexLast(part: string)
    ensures LexChain("\"" + DoubleQuotes(part) + "\"") == Some([part])
  {
    var s := "\"" + DoubleQuotes(part) + "\"";
    LexQuotedBody(part, "");
    assert s[1..] == DoubleQuotes(part) + "\"" + "";
  }

  lemma Tails(quote: string, body: string, dot: string, more: string)
    requires |quote| == |dot| == 1
    ensures (quote + body + quote + dot + more)[1..] == body + quote + (dot + more)
    ensures (dot + more)[1..] == more
  {
  }

  lemma LexFirst(part: string, more: string)
    requires LexChain(more).Some?
    ensures LexChain("\"" + DoubleQuotes(part) + "\"" + "." + more) == Some([part] + LexChain(more).value)
  {
    hide DoubleQuotes, LexBody;
    LexQuotedBody(part, "." + more);
    Tails("\"", DoubleQuotes(part), ".", more);
  }

  lemma {:induction false} LexQuotedChain(parts: seq<string>)
    requires |parts| > 0
    ensures LexChain(Join(QuoteAll(parts), ".")) == Some(parts)
  {
    hide LexChain, DoubleQuotes;
    var s := Join(QuoteAll(parts), ".");
    if |parts| == 1 {
      LexLast(parts[0]);
      assert parts == [parts[0]];
    } else {
      LexQuotedChain(parts[1..]);
      var more := Join(QuoteAll(parts[1..]), ".");
      LexFirst(parts[0], more);
      assert QuoteAll(parts)[1..] == QuoteAll(parts[1..]);
      assert s == "\"" + DoubleQuotes(parts[0]) + "\"" + "." + more;
      assert [parts[0]] + parts[1..] == parts;
    }
  }

  /** A database reads the quoted name as exactly the dot-separated parts of the configured one. */
  lemma QuoteIdentRoundTrip(name: string)
    ensures LexChain(QuoteIdent(name)) == Some(Split(name, '.'))
  {
    LexQuotedChain(Split(name, '.'));
  }

  /** So two configured names never denote the same table text. */
  lemma QuoteIdentInjective(a: string, b: string)
    ensures QuoteIdent(a) == QuoteIdent(b) <==> a == b
  {
    QuoteIdentRoundTrip(a);
    QuoteIdentRoundTrip(b);
    JoinSplit(a, '.');
    JoinSplit(b, '.');
  }
}
