/** The URL-safe alphabet without padding: section 5 of RFC 4648, decoded strictly. */
module Base64Url {
  import opened Wrappers

  type byte = x: int | 0 <= x < 256

  type sextet = d: int | 0 <= d < 64

  function Letter(d: sextet): (c: char)
    ensures IsLetter(c)
  {
    if d < 26 then ('A' as int + d) as char
    else if d < 52 then ('a' as int + (d - 26)) as char
    else if d < 62 then ('0' as int + (d - 52)) as char
    else if d == 62 then '-'
    else '_'
  }

  predicate IsLetter(c: char) {
    'A' <= c <= 'Z' || 'a' <= c <= 'z' || '0' <= c <= '9' || c == '-' || c == '_'
  }

  function Sextet(c: char): (d: sextet)
    requires IsLetter(c)
    ensures Letter(d) == c
  {
    if 'A' <= c <= 'Z' then c as int - 'A' as int
    else if 'a' <= c <= 'z' then c as int - 'a' as int + 26
    else if '0' <= c <= '9' then c as int - '0' as int + 52
    else if c == '-' then 62
    else 63
  }

  predicate AllLetters(s: string) {
    forall i :: 0 <= i < |s| ==> IsLetter(s[i])
  }

  // How three bytes spread over four sextets, and back.
  function First(x: byte): sextet { x / 4 }
  function Second(x: byte, y: byte): sextet { x % 4 * 16 + y / 16 }
  function Third(y: byte, z: byte): sextet { y % 16 * 4 + z / 64 }
  function Fourth(z: byte): sextet { z % 64 }

  function High(p: sextet, q: sextet): byte { p * 4 + q / 16 }
  function Middle(q: sextet, r: sextet): byte { q % 16 * 16 + r / 4 }
  function Low(r: sextet, t: sextet): byte { r % 4 * 64 + t }

  lemma LetterInjective(d: sextet)
    ensures Sextet(Letter(d)) == d
  {
  }

  /** The sextets of a byte string, the last one padded with zero bits. */
  function Spread(b: seq<byte>): (ds: seq<sextet>) {
    if |b| == 0 then []
    else if |b| == 1 then [First(b[0]), Second(b[0], 0)]
    else if |b| == 2 then [First(b[0]), Second(b[0], b[1]), Third(b[1], 0)]
    else [First(b[0]), Second(b[0], b[1]), Third(b[1], b[2]), Fourth(b[2])] + Spread(b[3..])
  }

  /** The bytes of a sextet string; a lone last sextet or non-zero padding bits are refused. */
  function Pack(ds: seq<sextet>): Option<seq<byte>> {
    if |ds| == 0 then Some([])
    else if |ds| == 1 then None
    else
      var x := High(ds[0], ds[1]);
      if |ds| == 2 then if Second(x, 0) == ds[1] then Some([x]) else None
      else
        var y := Middle(ds[1], ds[2]);
        if |ds| == 3 then if Third(y, 0) == ds[2] then Some([x, y]) else None
        else
          match Pack(ds[4..])
          case None => None
          case Some(rest) => Some([x, y, Low(ds[2], ds[3])] + rest)
  }

  function Encode(b: seq<byte>): (s: string)
    ensures AllLetters(s)
  {
    var ds := Spread(b);
    seq(|ds|, i requires 0 <= i < |ds| => Letter(ds[i]))
  }

  function Decode(s: string): Option<seq<byte>> {
    if AllLetters(s) then Pack(Sextets(s)) else None
  }

  function Sextets(s: string): (ds: seq<sextet>)
    requires AllLetters(s)
  {
    seq(|s|, i requires 0 <= i < |s| => Sextet(s[i]))
  }

  lemma PackSpreadGroup(x: byte, y: byte, z: byte)
    ensures High(First(x), Second(x, y)) == x
    ensures Middle(Second(x, y), Third(y, z)) == y
    ensures Low(Third(y, z), Fourth(z)) == z
  {
  }

  lemma SpreadPackGroup(p: sextet, q: sextet, r: sextet, t: sextet)
    ensures First(High(p, q)) == p
    ensures Second(High(p, q), Middle(q, r)) == q
    ensures Third(Middle(q, r), Low(r, t)) == r
    ensures Fourth(Low(r, t)) == t
  {
  }

  lemma {:induction false} PackSpread(b: seq<byte>)
    ensures Pack(Spread(b)) == Some(b)
  {
    hide First, Second, Third, Fourth, High, Middle, Low;
    if |b| > 0 {
      var y, z := if |b| > 1 then b[1] else 0, if |b| > 2 then b[2] else 0;
      PackSpreadGroup(b[0], y, z);
      if |b| < 3 {
        assert b == if |b| == 1 then [b[0]] else [b[0], y];
      } else {
        PackSpread(b[3..]);
        assert Spread(b)[4..] == Spread(b[3..]);
        assert [b[0], y, z] + b[3..] == b;
      }
    }
  }

  lemma {:induction false} SpreadPack(ds: seq<sextet>)
    requires Pack(ds).Some?
    ensures Spread(Pack(ds).value) == ds
  {
    hide First, Second, Third, Fourth, High, Middle, Low;
    if |ds| > 0 {
      var r, t := if |ds| > 2 then ds[2] else 0, if |ds| > 3 then ds[3] else 0;
      SpreadPackGroup(ds[0], ds[1], r, t);
      if |ds| >= 4 {
        SpreadPack(ds[4..]);
        assert Pack(ds).value[3..] == Pack(ds[4..]).value;
        assert [ds[0], ds[1], r, t] + ds[4..] == ds;
      }
    }
  }

  /** Every byte string survives encoding and decoding. */
  lemma DecodeEncode(b: seq<byte>)
    ensures Decode(Encode(b)) == Some(b)
  {
    hide Letter, Sextet;
    assert Sextets(Encode(b)) == Spread(b) by {
      forall i | 0 <= i < |Spread(b)| {
        LetterInjective(Spread(b)[i]);
      }
    }
    PackSpread(b);
  }

  /** The test vectors of section 10 of RFC 4648, and the two letters that differ in the URL-safe alphabet. */
  lemma Vectors()
    ensures Encode([0x66]) == "Zg" && Encode([0x66, 0x6F]) == "Zm8" && Encode([0x66, 0x6F, 0x6F]) == "Zm9v"
    ensures Encode([0x66, 0x6F, 0x6F, 0x62]) == "Zm9vYg" && Encode([0xFB, 0xFF]) == "-_8"
  {
    assert Spread([0x66]) == [25, 32] && Spread([0x66, 0x6F]) == [25, 38, 60] && Spread([0x66, 0x6F, 0x6F]) == [25, 38, 61, 47];
    assert [0x66, 0x6F, 0x6F, 0x62][3..] == [0x62];
    assert Spread([0x62]) == [24, 32];
    assert Spread([0x66, 0x6F, 0x6F, 0x62]) == [25, 38, 61, 47] + [24, 32];
    assert Spread([0xFB, 0xFF]) == [62, 63, 60];
  }

  /** The alphabet of section 5 of RFC 4648: three runs and two signs. */
  lemma Alphabet(d: sextet)
    ensures Letter(0) == 'A' && Letter(25) == 'Z' && Letter(26) == 'a' && Letter(51) == 'z'
    ensures Letter(52) == '0' && Letter(61) == '9' && Letter(62) == '-' && Letter(63) == '_'
    ensures d < 61 && d != 25 && d != 51 ==> Letter(d + 1) as int == Letter(d) as int + 1
  {
  }

  /** Three bytes are one number, and so are four sextets: the same, most significant first. */
  lemma SpreadNumber(x: byte, y: byte, z: byte)
    ensures ((First(x) * 64 + Second(x, y)) * 64 + Third(y, z)) * 64 + Fourth(z) == (x * 256 + y) * 256 + z
  {
  }

  /** Only canonical text decodes: no two texts stand for the same bytes. */
  lemma EncodeDecode(s: string)
    requires Decode(s).Some?
    ensures Encode(Decode(s).value) == s
  {
    SpreadPack(Sextets(s));
  }
}
