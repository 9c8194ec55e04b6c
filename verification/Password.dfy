/**
 PBKDF2 password hashing and its self-describing text form (src/password.rs).
 HMAC-SHA256 is a parameter: any function from a key and a message to 32 bytes.
 */
module Password {
  import opened Wrappers
  import opened Text
  import opened Base64Url

  const HASH_SIZE := 32
  const KEY_BYTES := 32
  const HASH_PREFIX := "$pbkdf2-sha256$"

  type Bytes = seq<byte>
  type u32 = n: int | 0 <= n < U32_LIMIT
  type Digest = d: Bytes | |d| == HASH_SIZE witness seq(HASH_SIZE, _ => 0)
  type Prf = (Bytes, Bytes) -> Digest

  function Pow2(n: nat): (p: nat)
    ensures p > 0
  {
    if n == 0 then 1 else 2 * Pow2(n - 1)
  }

  /** The exclusive or of the lowest `n` binary digits. */
  function XorLow(a: nat, b: nat, n: nat): (r: nat)
    ensures r < Pow2(n)
  {
    if n == 0 then 0 else (a + b) % 2 + 2 * XorLow(a / 2, b / 2, n - 1)
  }

  function Xor(a: byte, b: byte): byte {
    assert Pow2(8) == 256;
    XorLow(a, b, 8)
  }

  /** The k-th binary digit, the lowest first. */
  function Digit(a: nat, k: nat): (d: nat)
    ensures d < 2
  {
    if k == 0 then a % 2 else Digit(a / 2, k - 1)
  }

  lemma XorLowSplit(a: nat, b: nat, n: nat)
    requires n > 0
    ensures XorLow(a, b, n) % 2 == (a + b) % 2 == (a % 2 + b % 2) % 2
    ensures XorLow(a, b, n) / 2 == XorLow(a / 2, b / 2, n - 1)
  {
    LowDigit((a + b) % 2, XorLow(a / 2, b / 2, n - 1));
    DigitSum(a, b);
  }

  lemma LowDigit(x: nat, t: nat)
    requires x < 2
    ensures (x + 2 * t) % 2 == x && (x + 2 * t) / 2 == t
  {
  }

  lemma DigitSum(a: nat, b: nat)
    ensures (a + b) % 2 == (a % 2 + b % 2) % 2
  {
  }

  lemma {:induction false} XorLowDigits(a: nat, b: nat, n: nat, k: nat)
    requires k < n
    ensures Digit(XorLow(a, b, n), k) == (Digit(a, k) + Digit(b, k)) % 2
  {
    hide XorLow;
    XorLowSplit(a, b, n);
    if k > 0 {
      XorLowDigits(a / 2, b / 2, n - 1, k - 1);
    }
  }

  /** Each binary digit is set when exactly one of the two is. */
  lemma XorDigits(a: byte, b: byte, k: nat)
    requires k < 8
    ensures Digit(Xor(a, b), k) == 1 <==> (Digit(a, k) == 1) != (Digit(b, k) == 1)
  {
    hide XorLow, Digit;
    XorLowDigits(a, b, 8, k);
  }

  function XorDigests(a: Digest, b: Digest): Digest {
    seq(HASH_SIZE, i requires 0 <= i < HASH_SIZE => Xor(a[i], b[i]))
  }

  // --- Section 5.2 of RFC 8018 ---------------------------------------------

  /** `U_j`: U_1 is the PRF of the seed, every later one the PRF of its predecessor. */
  function U(prf: Prf, password: Bytes, seed: Bytes, j: nat): Digest
    requires j >= 1
  {
    if j == 1 then prf(password, seed) else prf(password, U(prf, password, seed, j - 1))
  }

  /** `F`: the exclusive or of `U_1` to `U_c`. */
  function F(prf: Prf, password: Bytes, seed: Bytes, c: nat): Digest
    requires c >= 1
  {
    if c == 1 then U(prf, password, seed, 1)
    else XorDigests(F(prf, password, seed, c - 1), U(prf, password, seed, c))
  }

  /** `INT(i)`: four octets, most significant first. */
  function Int32(i: nat): Bytes
    requires i < U32_LIMIT
  {
    [i / 0x100_0000, i / 0x1_0000 % 256, i / 256 % 256, i % 256]
  }

  /** `T_1 || ... || T_n`. */
  function Blocks(prf: Prf, password: Bytes, salt: Bytes, c: nat, n: nat): (t: Bytes)
    requires c >= 1 && n < U32_LIMIT
    ensures |t| == n * HASH_SIZE
  {
    if n == 0 then []
    else Blocks(prf, password, salt, c, n - 1) + F(prf, password, salt + Int32(n), c)
  }

  function CeilDiv(n: nat, d: nat): nat
    requires d > 0
  {
    (n + d - 1) / d
  }

  /** The lengths the standard allows: `dkLen <= (2^32 - 1) * hLen`. */
  predicate Derivable(keyLen: nat) {
    CeilDiv(keyLen, HASH_SIZE) < U32_LIMIT
  }

  /** `DK`: the first `dkLen` octets of the blocks. */
  function DerivedKey(prf: Prf, password: Bytes, salt: Bytes, c: nat, keyLen: nat): (dk: Bytes)
    requires c >= 1 && Derivable(keyLen)
    ensures |dk| == keyLen
  {
    Blocks(prf, password, salt, c, CeilDiv(keyLen, HASH_SIZE))[..keyLen]
  }

  lemma {:induction false} BlocksPrefix(prf: Prf, password: Bytes, salt: Bytes, c: nat, m: nat, n: nat)
    requires c >= 1 && m <= n < U32_LIMIT
    ensures Blocks(prf, password, salt, c, m) <= Blocks(prf, password, salt, c, n)
  {
    if m < n {
      BlocksPrefix(prf, password, salt, c, m, n - 1);
    }
  }

  /** A shorter key is a prefix of a longer one. */
  lemma DerivedKeyPrefix(prf: Prf, password: Bytes, salt: Bytes, c: nat, short: nat, long: nat)
    requires c >= 1 && short <= long && Derivable(long)
    ensures Derivable(short)
    ensures DerivedKey(prf, password, salt, c, short) == DerivedKey(prf, password, salt, c, long)[..short]
  {
    BlocksPrefix(prf, password, salt, c, CeilDiv(short, HASH_SIZE), CeilDiv(long, HASH_SIZE));
  }

  /** The lengths are those of section 5.2, step 1, of RFC 8018: at most (2^32 - 1) blocks of 32 octets. */
  lemma DerivableLengths(keyLen: nat)
    ensures Derivable(keyLen) <==> keyLen <= 0xFFFF_FFFF * 32
  {
  }

  lemma Octets(i: nat)
    ensures i / 256 / 256 == i / 0x1_0000 && i / 0x1_0000 / 256 == i / 0x100_0000
  {
  }

  /** The block index is written most significant octet first. */
  lemma IndexOctets(i: nat)
    requires i < U32_LIMIT
    ensures |Int32(i)| == 4 && Int32(i)[3] == i % 256 && Int32(i)[2] == i / 256 % 256
    ensures i == Int32(i)[0] as int * 0x100_0000 + Int32(i)[1] as int * 0x1_0000 + Int32(i)[2] as int * 256 + Int32(i)[3] as int
  {
    Octets(i);
    var q := i / 256;
    var p := q / 256;
    assert i == q * 256 + i % 256 && q == p * 256 + q % 256 && p == p / 256 * 256 + p % 256;
  }

  // --- The loops -----------------------------------------------------------

  /** What the casts in the source make of the block count and of a zero iteration count. */
  function BlockCount(keyLen: nat): nat {
    CeilDiv(keyLen, HASH_SIZE) % U32_LIMIT
  }

  function Rounds(iterations: u32): u32 {
    if iterations == 0 then 1 else iterations
  }

  /** Each byte of the buffer becomes its exclusive or with the byte of `u` at the same place. */
  method XorInto(t: array<byte>, u: Digest)
    requires t.Length == HASH_SIZE
    modifies t
    ensures t[..] == XorDigests(old(t[..]), u)
  {
    for i := 0 to HASH_SIZE
      invariant forall k :: 0 <= k < i ==> t[k] == Xor(old(t[k]), u[k])
      invariant forall k :: i <= k < HASH_SIZE ==> t[k] == old(t[k])
    {
      t[i] := Xor(t[i], u[i]);
    }
  }

  /** One pass of the outer loop: `t` accumulates every `u` in place. */
  method DeriveBlock(prf: Prf, password: Bytes, seed: Bytes, iterations: u32) returns (block: Bytes)
    ensures block == F(prf, password, seed, Rounds(iterations))
  {
    var u := prf(password, seed);
    var t := new byte[HASH_SIZE](i requires 0 <= i < HASH_SIZE => u[i]);
    assert t[..] == u;
    for round := 1 to Rounds(iterations)
      invariant u == U(prf, password, seed, round)
      invariant t[..] == F(prf, password, seed, round)
    {
      u := prf(password, u);
      XorInto(t, u);
    }
    block := t[..];
  }

  /**
   The derived key of the standard for every length the standard allows; for a longer one the
   32-bit block counter wraps and the result is the shorter string of whole blocks.
   */
  method Pbkdf2Sha256(prf: Prf, password: Bytes, salt: Bytes, iterations: u32, keyLen: nat) returns (out: Bytes)
    ensures Derivable(keyLen) ==> out == DerivedKey(prf, password, salt, Rounds(iterations), keyLen)
    ensures !Derivable(keyLen) ==> out == Blocks(prf, password, salt, Rounds(iterations), BlockCount(keyLen))
    ensures |out| == keyLen <==> Derivable(keyLen)
  {
    hide F, Int32;
    var numBlocks := BlockCount(keyLen);
    out := [];
    for block := 1 to numBlocks + 1
      invariant out == Blocks(prf, password, salt, Rounds(iterations), block - 1)
    {
      var t := DeriveBlock(prf, password, salt + Int32(block), iterations);
      out := out + t;
    }
    LengthOfBlocks(keyLen);
    if keyLen < |out| {
      out := out[..keyLen];
    }
  }

  lemma LengthOfBlocks(keyLen: nat)
    ensures Derivable(keyLen) ==> BlockCount(keyLen) == CeilDiv(keyLen, HASH_SIZE)
    ensures Derivable(keyLen) ==> BlockCount(keyLen) * HASH_SIZE >= keyLen
    ensures !Derivable(keyLen) ==> BlockCount(keyLen) * HASH_SIZE < keyLen
  {
  }

  // --- The stored text -----------------------------------------------------

  function EncodePasswordHash(prf: Prf, iterations: u32, salt: Bytes, password: Bytes): string
  {
    HASH_PREFIX + Decimal(iterations) + "$" + Encode(salt) + "$"
    + Encode(DerivedKey(prf, password, salt, Rounds(iterations), KEY_BYTES))
  }

  datatype HashError = UnknownFormat | Malformed | InvalidIterations | InvalidSalt | InvalidDigest

  datatype StoredHash = StoredHash(iterations: u32, salt: Bytes, key: Bytes)

  function DecodePasswordHash(hash: string): (r: Result<StoredHash, HashError>)
    ensures r.Success? ==> r.value.iterations > 0
  {
    if !(HASH_PREFIX <= hash) then Failure(UnknownFormat)
    else
      var parts := Split(hash[|HASH_PREFIX|..], '$');
      if |parts| != 3 then Failure(Malformed)
      else
        var iterations := ParseUnsigned(parts[0], U32_LIMIT);
        if iterations.None? || iterations.value == 0 then Failure(InvalidIterations)
        else
          var salt := Decode(parts[1]);
          if salt.None? then Failure(InvalidSalt)
          else
            var key := Decode(parts[2]);
            if key.None? then Failure(InvalidDigest)
            else Success(StoredHash(iterations.value, salt.value, key.value))
  }

  /** The constant-time comparison of the source is plain equality of byte strings. */
  method CheckPassword(prf: Prf, hash: string, password: Bytes) returns (accepted: bool)
    ensures accepted <==> Accepts(prf, hash, password)
  {
    var decoded := DecodePasswordHash(hash);
    if decoded.Failure? {
      return false;
    }
    var stored := decoded.value;
    var got := Pbkdf2Sha256(prf, password, stored.salt, stored.iterations, |stored.key|);
    accepted := got == stored.key;
  }

  /** The password's derived key, as long as the stored digest, equals the stored digest. */
  predicate Accepts(prf: Prf, hash: string, password: Bytes) {
    match DecodePasswordHash(hash)
    case Failure(_) => false
    case Success(h) =>
      Derivable(|h.key|) && h.key == DerivedKey(prf, password, h.salt, h.iterations, |h.key|)
  }

  lemma LettersHaveNoDollar(s: string)
    requires AllLetters(s)
    ensures '$' !in s
  {
  }

  lemma DecimalParses(n: nat, bound: nat)
    ensures ParseUnsigned(Decimal(n), bound) == if n < bound then Some(n) else None
  {
    DecimalRoundTrip(n);
    assert Decimal(n)[0] != '+';
  }

  lemma HashText(n: string, salt: string, key: string)
    ensures var hash := HASH_PREFIX + n + "$" + salt + "$" + key;
            HASH_PREFIX <= hash && hash[|HASH_PREFIX|..] == Join([n, salt, key], "$")
  {
    assert [n, salt, key][1..] == [salt, key] && [salt, key][1..] == [key];
    assert Join([salt, key], "$") == salt + "$" + Join([key], "$");
    assert Join([n, salt, key], "$") == n + "$" + (salt + "$" + key);
    var hash := HASH_PREFIX + n + "$" + salt + "$" + key;
    assert hash == HASH_PREFIX + Join([n, salt, key], "$");
  }

  /** Decoding an encoded hash gives back exactly its three parts; only zero iterations are refused. */
  lemma DecodeEncodedHash(prf: Prf, iterations: u32, salt: Bytes, password: Bytes)
    ensures DecodePasswordHash(EncodePasswordHash(prf, iterations, salt, password)) ==
            if iterations == 0 then Failure(InvalidIterations)
            else Success(StoredHash(iterations, salt, DerivedKey(prf, password, salt, iterations, 32)))
  {
    var key := DerivedKey(prf, password, salt, Rounds(iterations), KEY_BYTES);
    hide Encode, Decode, Decimal, ParseUnsigned, DerivedKey, Join, Split;
    var parts := [Decimal(iterations), Encode(salt), Encode(key)];
    HashText(parts[0], parts[1], parts[2]);
    LettersHaveNoDollar(Encode(salt));
    LettersHaveNoDollar(Encode(key));
    SplitJoin(parts, '$');
    DecimalParses(iterations, U32_LIMIT);
    DecodeEncode(salt);
    DecodeEncode(key);
  }

  /**
   And the text of an accepted hash is determined by its parts, except that the iteration count
   may carry a plus sign or leading zeros.
   */
  lemma DecodedHashText(hash: string)
    requires DecodePasswordHash(hash).Success?
    ensures var h := DecodePasswordHash(hash).value;
            exists n :: ParseUnsigned(n, U32_LIMIT) == Some(h.iterations)
                        && hash == "$pbkdf2-sha256$" + n + "$" + Encode(h.salt) + "$" + Encode(h.key)
  {
    var rest := hash[|HASH_PREFIX|..];
    var parts := Split(rest, '$');
    JoinSplit(rest, '$');
    EncodeDecode(parts[1]);
    EncodeDecode(parts[2]);
    HashText(parts[0], parts[1], parts[2]);
    assert parts == [parts[0], parts[1], parts[2]];
    assert hash == HASH_PREFIX + rest;
    var text := HASH_PREFIX + parts[0] + "$" + parts[1] + "$" + parts[2];
    assert text == HASH_PREFIX + text[|HASH_PREFIX|..];
  }

  /**
   A stored hash accepts exactly the passwords that derive the same 32-byte key: for a positive
   iteration count the password it was made from is always one of them.
   */
  lemma EncodedHashAccepts(prf: Prf, iterations: u32, salt: Bytes, password: Bytes, attempt: Bytes)
    ensures Accepts(prf, EncodePasswordHash(prf, iterations, salt, password), attempt) <==>
            && iterations > 0
            && DerivedKey(prf, attempt, salt, iterations, KEY_BYTES) == DerivedKey(prf, password, salt, iterations, KEY_BYTES)
    ensures Accepts(prf, EncodePasswordHash(prf, iterations, salt, password), password) <==> iterations > 0
  {
    DecodeEncodedHash(prf, iterations, salt, password);
  }
}
