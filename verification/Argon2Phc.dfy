/** Printing and parsing Argon2id password hashes, and checking a password against one. */
module Argon2Phc {
  import opened Wrappers
  import opened Text
  import opened Base64

  const MIN_SALT := 8
  const MIN_HASH := 16
  const MAX_MEMORY := 65536
  const MAX_ITERATIONS := 3
  const MAX_PARALLELISM := 2
  const MAX_SALT := 64
  const MAX_HASH := 64
  const MAX_PHC := 512

  datatype Params = Params(memory: nat, iterations: nat, parallelism: nat, saltLength: nat, hashLength: nat)

  predicate ValidParams(params: Params) {
    0 < params.memory <= MAX_MEMORY && 0 < params.iterations <= MAX_ITERATIONS &&
        0 < params.parallelism <= MAX_PARALLELISM &&
    MIN_SALT <= params.saltLength <= MAX_SALT && MIN_HASH <= params.hashLength <= MAX_HASH
  }

  // ---- Decimal numbers

  function Digits(n: nat): (s: string)
    ensures s != ""
  {
    if n < 10 then [('0' as int + n) as char] else Digits(n / 10) + [('0' as int + n % 10) as char]
  }

  function ParseDigits(s: string): Option<nat> {
    if s == "" then Some(0) else
    var high, last := ParseDigits(s[..|s| - 1]), s[|s| - 1];
    if high.None? || !('0' <= last <= '9') then None else Some(high.value * 10 + (last as int - '0' as int))
  }

  lemma {:induction false} ParsesDigits(n: nat)
    ensures ParseDigits(Digits(n)) == Some(n)
  {
    var s := Digits(n);
    if n < 10 {
      assert s[..|s| - 1] == "";
    } else {
      ParsesDigits(n / 10);
      assert s[..|s| - 1] == Digits(n / 10);
    }
  }

  lemma {:induction false} DigitsShape(n: nat)
    ensures forall c | c in Digits(n) :: '0' <= c <= '9'
    ensures n < 100000 ==> |Digits(n)| <= 5
    decreases n
  {
    if n >= 10 {
      DigitsShape(n / 10);
      DigitsAtMost(n);
    }
  }

  lemma DigitsAtMost(n: nat)
    ensures n < 100000 ==> |Digits(n)| <= 5
  {
    if n < 100000 {
      assert n / 10 < 10000 && n / 10 / 10 < 1000 && n / 10 / 10 / 10 < 100 && n / 10 / 10 / 10 / 10 < 10;
      assert |Digits(n / 10 / 10 / 10 / 10)| == 1;
      assert |Digits(n / 10 / 10 / 10)| <= 2;
      assert |Digits(n / 10 / 10)| <= 3;
      assert |Digits(n / 10)| <= 4;
    }
  }

  /** A number after its prefix, of at most ten digits, that neither overflows nor exceeds its maximum. */
  function ParseBounded(field: string, prefix: string, maximum: nat, bits: nat): Option<nat> {
    if !(prefix <= field) then None else
    var digits := field[|prefix|..];
    if digits == "" || |digits| > 10 then None else
    match ParseDigits(digits)
    case None => None
    case Some(value) => if value >= (if bits == 8 then 0x100 else 0x1_0000_0000) || value > maximum then None
        else Some(value)
  }

  // ---- The string

  function Field(params: Params): string {
    "m=" + Digits(params.memory) + "," + "t=" + Digits(params.iterations) + "," + "p=" + Digits(params.parallelism)
  }

  function Print(params: Params, salt: seq<byte>, hash: seq<byte>): string {
    Join(["", "argon2id", "v=19", Field(params), Encode(salt), Encode(hash)], '$')
  }

  function ParseField(field: string): Option<(nat, nat, nat)> {
    var fields := Split(field, ',');
    if |fields| != 3 then None else
    var memory := ParseBounded(fields[0], "m=", MAX_MEMORY, 32);
    var iterations := ParseBounded(fields[1], "t=", MAX_ITERATIONS, 32);
    var parallelism := ParseBounded(fields[2], "p=", MAX_PARALLELISM, 8);
    if memory.None? || iterations.None? || parallelism.None? then None
    else if memory.value == 0 || iterations.value == 0 || parallelism.value == 0 then None
    else Some((memory.value, iterations.value, parallelism.value))
  }

  function ParseBytes(piece: string, least: nat, most: nat): Option<seq<byte>> {
    if |piece| < EncodedLength(least) || |piece| > EncodedLength(most) then None else
    match Decode(piece)
    case None => None
    case Some(bytes) => if least <= |bytes| <= most then Some(bytes) else None
  }

  function Parse(encoded: string): Option<(Params, seq<byte>, seq<byte>)> {
    if encoded == "" || |encoded| > MAX_PHC then None else
    var parts := Split(encoded, '$');
    if |parts| != 6 || parts[0] != "" || parts[1] != "argon2id" || parts[2] != "v=19" then None else
    var field := ParseField(parts[3]);
    if field.None? then None else
    var salt, hash := ParseBytes(parts[4], MIN_SALT, MAX_SALT), ParseBytes(parts[5], MIN_HASH, MAX_HASH);
    if salt.None? || hash.None? then None else
    var params := Params(field.value.0, field.value.1, field.value.2, |salt.value|, |hash.value|);
    if ValidParams(params) then Some((params, salt.value, hash.value)) else None
  }

  // ---- Parsing undoes printing

  lemma ParsesBounded(n: nat, prefix: string, maximum: nat, bits: nat)
    requires n <= maximum < 100000 && (bits == 8 ==> maximum < 0x100)
    ensures ParseBounded(prefix + Digits(n), prefix, maximum, bits) == Some(n)
  {
    ParsesDigits(n);
    DigitsAtMost(n);
    assert (prefix + Digits(n))[|prefix|..] == Digits(n);
  }

  lemma DigitsFree(n: nat, prefix: string, c: char)
    requires Free(prefix, c) && !('0' <= c <= '9')
    ensures Free(prefix + Digits(n), c)
  {
    DigitsShape(n);
  }

  lemma FieldPieces(params: Params)
    ensures Split(Field(params), ',') == ["m=" + Digits(params.memory), "t=" + Digits(params.iterations),
            "p=" + Digits(params.parallelism)]
    ensures Free(Field(params), '$')
  {
    var m, t, p := "m=" + Digits(params.memory), "t=" + Digits(params.iterations), "p=" + Digits(params.parallelism);
    DigitsFree(params.memory, "m=", ',');
    DigitsFree(params.iterations, "t=", ',');
    DigitsFree(params.parallelism, "p=", ',');
    DigitsFree(params.memory, "m=", '$');
    DigitsFree(params.iterations, "t=", '$');
    DigitsFree(params.parallelism, "p=", '$');
    assert Field(params) == m + [','] + (t + [','] + p);
    SplitFirst(m, ',', t + [','] + p);
    SplitFirst(t, ',', p);
    SplitNone(p, ',');
  }

  lemma ParsesField(params: Params)
    requires ValidParams(params)
    ensures ParseField(Field(params)) == Some((params.memory, params.iterations, params.parallelism))
  {
    FieldPieces(params);
    ParsesBounded(params.memory, "m=", MAX_MEMORY, 32);
    ParsesBounded(params.iterations, "t=", MAX_ITERATIONS, 32);
    ParsesBounded(params.parallelism, "p=", MAX_PARALLELISM, 8);
  }

  lemma LengthsGrow(a: nat, b: nat)
    requires a <= b
    ensures EncodedLength(a) <= EncodedLength(b)
  {
  }

  lemma ParsesBytes(bytes: seq<byte>, least: nat, most: nat)
    requires least <= |bytes| <= most
    ensures ParseBytes(Encode(bytes), least, most) == Some(bytes) && Free(Encode(bytes), '$') &&
            |Encode(bytes)| <= EncodedLength(most)
  {
    EncodedShape(bytes);
    DecodeOfEncode(bytes);
    LengthsGrow(least, |bytes|);
    LengthsGrow(|bytes|, most);
    assert Index('$').None?;
  }

  lemma PrintedLength(params: Params, salt: seq<byte>, hash: seq<byte>)
    requires ValidParams(params) && |Encode(salt)| <= 86 && |Encode(hash)| <= 86
    ensures 0 < |Print(params, salt, hash)| <= MAX_PHC
  {
    DigitsAtMost(params.memory);
    DigitsAtMost(params.iterations);
    DigitsAtMost(params.parallelism);
    var pieces := ["", "argon2id", "v=19", Field(params), Encode(salt), Encode(hash)];
    assert |Field(params)| <= 23;
    JoinLength(pieces, '$');
    assert Total(pieces) <= 8 + 4 + 23 + 86 + 86 by { SixTotal(pieces); }
  }

  function Total(pieces: seq<string>): nat { if pieces == [] then 0 else |pieces[0]| + Total(pieces[1..]) }

  lemma SixTotal(pieces: seq<string>)
    requires |pieces| == 6
    ensures Total(pieces) == |pieces[0]| + |pieces[1]| + |pieces[2]| + |pieces[3]| + |pieces[4]| + |pieces[5]|
  {
    assert Total(pieces[1..]) == |pieces[1]| + Total(pieces[2..]) by { assert pieces[1..][1..] == pieces[2..]; }
    assert Total(pieces[2..]) == |pieces[2]| + Total(pieces[3..]) by { assert pieces[2..][1..] == pieces[3..]; }
    assert Total(pieces[3..]) == |pieces[3]| + Total(pieces[4..]) by { assert pieces[3..][1..] == pieces[4..]; }
    assert Total(pieces[4..]) == |pieces[4]| + Total(pieces[5..]) by { assert pieces[4..][1..] == pieces[5..]; }
    assert Total(pieces[5..]) == |pieces[5]| by { assert pieces[5..][1..] == []; }
  }

  lemma {:induction false} JoinLength(pieces: seq<string>, c: char)
    requires pieces != []
    ensures |Join(pieces, c)| == Total(pieces) + |pieces| - 1
  {
    if |pieces| > 1 {
      JoinLength(pieces[1..], c);
    } else {
      assert pieces[1..] == [];
    }
  }

  /** The printed form, piece by piece. */
  ghost predicate SpelledOut(encoded: string, params: Params, salt: seq<byte>, hash: seq<byte>) {
    encoded == "" + "$" + ("argon2id" + "$" + ("v=19" + "$" +
        (("m=" + Digits(params.memory) + "," + "t=" + Digits(params.iterations) + "," + "p=" +
          Digits(params.parallelism)) + "$" + (Encode(salt) + "$" + Encode(hash)))))
  }

  lemma JoinNext(piece: string, pieces: seq<string>, c: char)
    requires pieces != []
    ensures Join([piece] + pieces, c) == piece + [c] + Join(pieces, c)
  {
  }

  lemma PrintedInFull(params: Params, salt: seq<byte>, hash: seq<byte>)
    ensures SpelledOut(Print(params, salt, hash), params, salt, hash)
  {
    SixJoined("", "argon2id", "v=19", Field(params), Encode(salt), Encode(hash), '$');
  }

  lemma SixJoined(a: string, b: string, c: string, d: string, e: string, f: string, mark: char)
    ensures Join([a, b, c, d, e, f], mark) ==
            a + [mark] + (b + [mark] + (c + [mark] + (d + [mark] + (e + [mark] + f))))
  {
    JoinNext(e, [f], mark);
    JoinNext(d, [e, f], mark);
    JoinNext(c, [d, e, f], mark);
    JoinNext(b, [c, d, e, f], mark);
    JoinNext(a, [b, c, d, e, f], mark);
    assert [a, b, c, d, e, f] == [a] + [b, c, d, e, f] && [b, c, d, e, f] == [b] + [c, d, e, f];
    assert [c, d, e, f] == [c] + [d, e, f] && [d, e, f] == [d] + [e, f] && [e, f] == [e] + [f];
  }

  /** Parsing a printed hash returns its parameters, salt and hash, and the printed string fits the limit. */
  lemma PhcRoundTrip(params: Params, salt: seq<byte>, hash: seq<byte>)
    requires ValidParams(params) && |salt| == params.saltLength && |hash| == params.hashLength
    ensures Parse(Print(params, salt, hash)) == Some((params, salt, hash)) && |Print(params, salt, hash)| <= MAX_PHC
  {
    ParsesField(params);
    FieldPieces(params);
    ParsesBytes(salt, MIN_SALT, MAX_SALT);
    ParsesBytes(hash, MIN_HASH, MAX_HASH);
    PrintedLength(params, salt, hash);
    var pieces := ["", "argon2id", "v=19", Field(params), Encode(salt), Encode(hash)];
    SplitOfJoin(pieces, '$');
  }

  /** The parser accepts other spellings, such as leading zeros, but a parsed hash printed again means the same. */
  lemma ReprintKeepsMeaning(encoded: string)
    requires Parse(encoded).Some?
    ensures var (params, salt, hash) := Parse(encoded).value; Parse(Print(params, salt, hash)) == Parse(encoded)
  {
    var (params, salt, hash) := Parse(encoded).value;
    PhcRoundTrip(params, salt, hash);
  }

  // ---- Hashing and verifying

  /** A key derivation: of the password, the salt, the cost parameters and the length of the key. */
  type Derivation = (string, seq<byte>, nat, nat, nat, nat) -> seq<byte>

  ghost predicate Derives(derive: Derivation) {
    forall password, salt, iterations, memory, parallelism, length ::
      |derive(password, salt, iterations, memory, parallelism, length)| == length
  }

  /** Fills a salt from the random source and prints the hash; refuses parameters outside the bounds, and
      fails when the source gives too little. What is printed parses back. */
  method HashPassword(derive: Derivation, password: string, params: Params, random: seq<byte>)
          returns (encoded: Option<string>)
    requires Derives(derive)
    ensures encoded.Some? <==>
            1 <= params.memory <= 65536 && 1 <= params.iterations <= 3 && 1 <= params.parallelism <= 2 &&
            8 <= params.saltLength <= 64 && 16 <= params.hashLength <= 64 && params.saltLength <= |random|
    ensures encoded.Some? ==>
      var salt := random[..params.saltLength];
      var hash := derive(password, salt, params.iterations, params.memory, params.parallelism, params.hashLength);
      Parse(encoded.value) == Some((params, salt, hash)) && SpelledOut(encoded.value, params, salt, hash)
  {
    if !ValidParams(params) {
      return None;
    }
    var salt := new byte[params.saltLength];
    if |random| < salt.Length {
      return None;
    }
    for n := 0 to salt.Length
      invariant salt[..n] == random[..n]
    {
      salt[n] := random[n];
    }
    assert salt[..] == random[..params.saltLength];
    var hash := derive(password, salt[..], params.iterations, params.memory, params.parallelism, params.hashLength);
    PhcRoundTrip(params, salt[..], hash);
    PrintedInFull(params, salt[..], hash);
    encoded := Some(Print(params, salt[..], hash));
  }

  /** Derives the key again with what the string says and compares; `None` is a malformed string. */
  method VerifyPassword(derive: Derivation, password: string, encoded: string) returns (verified: Option<bool>)
    ensures verified == VerdictOn(derive, password, encoded)
  {
    var parsed := Parse(encoded);
    if parsed.None? {
      return None;
    }
    var (params, salt, expected) := parsed.value;
    var actual := derive(password, salt, params.iterations, params.memory, params.parallelism, params.hashLength);
    verified := Some(actual == expected);
  }

  function VerdictOn(derive: Derivation, password: string, encoded: string): Option<bool> {
    match Parse(encoded)
    case None => None
    case Some((params, salt, expected)) =>
      Some(derive(password, salt, params.iterations, params.memory, params.parallelism, |expected|) == expected)
  }

  /** A printed hash verifies exactly the passwords that derive the key it was printed with, and so always
      the password itself. */
  lemma VerifiesExactly(derive: Derivation, password: string, attempt: string, params: Params, salt: seq<byte>)
    requires Derives(derive) && ValidParams(params) && |salt| == params.saltLength
    ensures var hash := derive(password, salt, params.iterations, params.memory, params.parallelism, params.hashLength);
            VerdictOn(derive, attempt, Print(params, salt, hash)) ==
            Some(derive(attempt, salt, params.iterations, params.memory, params.parallelism, params.hashLength) == hash)
  {
    PhcRoundTrip(params, salt,
        derive(password, salt, params.iterations, params.memory, params.parallelism, params.hashLength));
  }
}
