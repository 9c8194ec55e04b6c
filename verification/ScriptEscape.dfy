/** The escaping that lets a JSON text sit inside a script element (src/callback_page.rs). */
module ScriptEscape {
  import opened Wrappers
  import opened Text

  /** `str::replace` of a single character. */
  function Replace(s: string, from: char, to: string): string {
    if s == "" then ""
    else (if s[0] == from then to else [s[0]]) + Replace(s[1..], from, to)
  }

  function EscapeForScript(json: string): string {
    Replace(Replace(Replace(json, '<', "\\u003c"), '>', "\\u003e"), '&', "\\u0026")
  }

  /** The same escaping as one pass over the text. */
  function EscapeChar(c: char): string {
    if c == '<' then "\\u003c" else if c == '>' then "\\u003e" else if c == '&' then "\\u0026" else [c]
  }

  function EscapePass(s: string): string {
    if s == "" then "" else EscapeChar(s[0]) + EscapePass(s[1..])
  }

  predicate Special(c: char) {
    c in {'<', '>', '&'}
  }

  lemma ReplaceFirst(c: char, rest: string, from: char, to: string)
    ensures Replace([c] + rest, from, to) == (if c == from then to else [c]) + Replace(rest, from, to)
  {
    assert ([c] + rest)[1..] == rest;
  }

  lemma {:induction false} ReplaceAppend(a: string, b: string, from: char, to: string)
    ensures Replace(a + b, from, to) == Replace(a, from, to) + Replace(b, from, to)
  {
    if a == "" {
      assert a + b == b;
    } else {
      var c, t := a[0], a[1..];
      HeadTail(a);
      ReplaceAppendHead(c, t, b, from, to) by { ReplaceAppend(t, b, from, to); }
    }
  }

  lemma ReplaceAppendHead(c: char, t: string, b: string, from: char, to: string)
    requires Replace(t + b, from, to) == Replace(t, from, to) + Replace(b, from, to)
    ensures Replace(([c] + t) + b, from, to) == Replace([c] + t, from, to) + Replace(b, from, to)
  {
    hide Replace;
    AppendAssoc([c], t, b);
    ReplaceFirst(c, t, from, to);
    ReplaceFirst(c, t + b, from, to);
    AppendAssoc(if c == from then to else [c], Replace(t, from, to), Replace(b, from, to));
  }

  lemma {:induction false} ReplaceAbsent(s: string, from: char, to: string)
    requires from !in s
    ensures Replace(s, from, to) == s
  {
    if s != "" {
      ReplaceAbsent(s[1..], from, to);
      assert [s[0]] + s[1..] == s;
    }
  }

  lemma ReplaceOne(c: char, from: char, to: string)
    ensures Replace([c], from, to) == if c == from then to else [c]
  {
    assert [c][1..] == "";
    assert Replace("", from, to) == "";
  }

  lemma EscapeOne(c: char)
    ensures EscapeForScript([c]) == EscapeChar(c)
  {
    ReplaceOne(c, '<', "\\u003c");
    ReplaceOne(c, '>', "\\u003e");
    ReplaceOne(c, '&', "\\u0026");
    ReplaceAbsent("\\u003c", '>', "\\u003e");
    ReplaceAbsent("\\u003c", '&', "\\u0026");
    ReplaceAbsent("\\u003e", '&', "\\u0026");
  }

  /** The three replacements in sequence do not disturb one another. */
  lemma {:induction false} EscapeIsOnePass(s: string)
    ensures EscapeForScript(s) == EscapePass(s)
  {
    if s != "" {
      EscapeIsOnePass(s[1..]);
      EscapeOne(s[0]);
      var a, b := [s[0]], s[1..];
      assert a + b == s;
      ReplaceAppend(a, b, '<', "\\u003c");
      var a1, b1 := Replace(a, '<', "\\u003c"), Replace(b, '<', "\\u003c");
      ReplaceAppend(a1, b1, '>', "\\u003e");
      var a2, b2 := Replace(a1, '>', "\\u003e"), Replace(b1, '>', "\\u003e");
      ReplaceAppend(a2, b2, '&', "\\u0026");
    }
  }

  /** Nothing that could end the element or start another one is left. */
  lemma {:induction false} EscapedHasNoSpecial(s: string)
    ensures forall c :: c in EscapeForScript(s) ==> !Special(c)
  {
    EscapeIsOnePass(s);
    if s != "" {
      EscapedHasNoSpecial(s[1..]);
      EscapeIsOnePass(s[1..]);
      assert forall c :: c in EscapeChar(s[0]) ==> !Special(c);
    }
  }

  // --- The lexical grammar of JSON: sections 2 and 7 of RFC 8259 -------------

  /** A quotation mark, a structural character or literal text, or one UTF-16 code unit or scalar of a string. */
  datatype Token = Open | Close | Unit(value: int) | Bare(c: char)

  function HexValue(c: char): Option<int> {
    if '0' <= c <= '9' then Some(c as int - '0' as int)
    else if 'a' <= c <= 'f' then Some(c as int - 'a' as int + 10)
    else if 'A' <= c <= 'F' then Some(c as int - 'A' as int + 10)
    else None
  }

  function HexQuad(s: string): Option<int> {
    if |s| < 4 then None
    else
      match (HexValue(s[0]), HexValue(s[1]), HexValue(s[2]), HexValue(s[3]))
      case (Some(a), Some(b), Some(c), Some(d)) => Some(((a * 16 + b) * 16 + c) * 16 + d)
      case _ => None
  }

  /** The characters an escape may name with one letter. */
  function SimpleEscape(c: char): Option<int> {
    if c in {'"', '\\', '/'} then Some(c as int)
    else if c == 'b' then Some(0x08)
    else if c == 'f' then Some(0x0C)
    else if c == 'n' then Some(0x0A)
    else if c == 'r' then Some(0x0D)
    else if c == 't' then Some(0x09)
    else None
  }

  /** What may stand outside strings: white space, structural characters, numbers and the three literals. */
  predicate BareChar(c: char) {
    || c in {' ', '\t', '\n', '\r', '{', '}', '[', ']', ':', ',', '-', '+', '.', 'E'}
    || '0' <= c <= '9' || 'a' <= c <= 'z'
  }

  function Prepend(t: Token, r: Option<seq<Token>>): Option<seq<Token>> {
    if r.None? then None else Some([t] + r.value)
  }

  /** Every string is decoded on the way; no token stream means the text is not JSON. */
  function Lex(s: string, inString: bool): Option<seq<Token>>
    decreases |s|
  {
    if s == "" then if inString then None else Some([])
    else if s[0] == '"' then Prepend(if inString then Close else Open, Lex(s[1..], !inString))
    else if !inString then
      if BareChar(s[0]) then Prepend(Bare(s[0]), Lex(s[1..], false)) else None
    else if s[0] == '\\' then
      if |s| < 2 then None
      else if s[1] == 'u' then
        var quad := HexQuad(s[2..]);
        if quad.None? then None else Prepend(Unit(quad.value), Lex(s[6..], true))
      else
        var simple := SimpleEscape(s[1]);
        if simple.None? then None else Prepend(Unit(simple.value), Lex(s[2..], true))
    else if s[0] as int < 0x20 then None
    else Prepend(Unit(s[0] as int), Lex(s[1..], true))
  }

  lemma EscapePassFirst(c: char, rest: string)
    requires !Special(c)
    ensures EscapePass([c] + rest) == [c] + EscapePass(rest)
  {
    assert ([c] + rest)[1..] == rest;
  }

  lemma {:induction false} EscapePassPlain(plain: string, rest: string)
    requires forall c :: c in plain ==> !Special(c)
    ensures EscapePass(plain + rest) == plain + EscapePass(rest)
  {
    if plain == "" {
      assert plain + rest == rest;
      assert plain + EscapePass(rest) == EscapePass(rest);
    } else {
      var c, t := plain[0], plain[1..];
      HeadTail(plain);
      EscapePassPlainHead(c, t, rest) by { EscapePassPlain(t, rest); }
    }
  }

  lemma EscapePassPlainHead(c: char, t: string, rest: string)
    requires !Special(c) && EscapePass(t + rest) == t + EscapePass(rest)
    ensures EscapePass(([c] + t) + rest) == ([c] + t) + EscapePass(rest)
  {
    hide EscapePass;
    AppendAssoc([c], t, rest);
    EscapePassFirst(c, t + rest);
    AppendAssoc([c], t, EscapePass(rest));
  }

  lemma LexEscapedSpecial(c: char, rest: string)
    requires Special(c)
    ensures Lex(EscapeChar(c) + rest, true) == Prepend(Unit(c as int), Lex(rest, true))
  {
    var s := EscapeChar(c) + rest;
    assert s[2..][..4] == EscapeChar(c)[2..];
    assert s[6..] == rest;
  }

  /** Lexing an escape looks no further than its own characters. */
  lemma LexItem(s: string, e: string, n: nat)
    requires s != "" && s[0] == '\\' && Lex(s, true).Some?
    requires |s| >= 2 && n == if s[1] == 'u' then 6 else 2
    requires n <= |s| && n <= |e| && e[..n] == s[..n]
    requires Lex(e[n..], true) == Lex(s[n..], true)
    ensures Lex(e, true) == Lex(s, true)
  {
    hide HexQuad, SimpleEscape;
    SamePrefix(s, e, n);
    if n == 6 {
      SameQuad(s, e);
    }
  }

  lemma SamePrefix(s: string, e: string, n: nat)
    requires n <= |s| && n <= |e| && e[..n] == s[..n]
    ensures forall i :: 0 <= i < n ==> s[i] == e[i]
  {
    assert forall i :: 0 <= i < n ==> s[i] == s[..n][i] && e[i] == e[..n][i];
  }

  lemma SameQuad(s: string, e: string)
    requires 6 <= |s| && 6 <= |e| && e[..6] == s[..6]
    ensures HexQuad(e[2..]) == HexQuad(s[2..])
  {
    SamePrefix(s, e, 6);
    var a, b := s[2..], e[2..];
    assert a[0] == b[0] && a[1] == b[1] && a[2] == b[2] && a[3] == b[3];
  }

  lemma LexLength(s: string)
    requires s != "" && s[0] == '\\' && Lex(s, true).Some?
    ensures |s| >= if s[1] == 'u' then 6 else 2
  {
  }

  lemma LexPlain(s: string, n: nat)
    requires s != "" && s[0] == '\\' && Lex(s, true).Some?
    requires n == if s[1] == 'u' then 6 else 2
    ensures |s| >= n && (forall c :: c in s[..n] ==> !Special(c)) && Lex(s[n..], true).Some?
  {
    LexLength(s);
    assert forall i :: 0 <= i < n ==> !Special(s[i]);
  }

  lemma {:induction false} LexEscapePass(s: string, inString: bool)
    requires Lex(s, inString).Some?
    ensures Lex(EscapePass(s), inString) == Lex(s, inString)
    decreases |s|
  {
    if s == "" {
    } else if inString && Special(s[0]) {
      LexEscapePass(s[1..], true);
      LexEscapedSpecial(s[0], EscapePass(s[1..]));
    } else if inString && s[0] == '\\' {
      LexLength(s);
      var n := if s[1] == 'u' then 6 else 2;
      LexPlain(s, n);
      LexEscapePass(s[n..], true);
      LexKept(s, n);
    } else {
      LexEscapePass(s[1..], if s[0] == '"' then !inString else inString);
      EscapePassFirst(s[0], s[1..]);
      assert s == [s[0]] + s[1..];
      var e := EscapePass(s);
      assert e[0] == s[0] && e[1..] == EscapePass(s[1..]);
    }
  }

  lemma LexKept(s: string, n: nat)
    requires s != "" && s[0] == '\\' && Lex(s, true).Some?
    requires |s| >= 2 && n == (if s[1] == 'u' then 6 else 2) && n <= |s|
    requires forall c :: c in s[..n] ==> !Special(c)
    requires Lex(EscapePass(s[n..]), true) == Lex(s[n..], true)
    ensures Lex(EscapePass(s), true) == Lex(s, true)
  {
    hide Lex, EscapePass, Special;
    EscapePassPlain(s[..n], s[n..]);
    assert s == s[..n] + s[n..];
    var e := EscapePass(s);
    assert e[n..] == EscapePass(s[n..]) && e[..n] == s[..n];
    LexItem(s, e, n);
  }

  /**
   Every JSON text keeps its token stream, strings decoded: it parses to the same value as before.
   Escaping twice is the same as escaping once.
   */
  lemma EscapePreservesJson(json: string)
    requires Lex(json, false).Some?
    ensures Lex(EscapeForScript(json), false) == Lex(json, false)
    ensures EscapeForScript(EscapeForScript(json)) == EscapeForScript(json)
  {
    EscapeIsOnePass(json);
    LexEscapePass(json, false);
    var e := EscapeForScript(json);
    EscapedHasNoSpecial(json);
    ReplaceAbsent(e, '<', "\\u003c");
    ReplaceAbsent(e, '>', "\\u003e");
    ReplaceAbsent(e, '&', "\\u0026");
  }
}
