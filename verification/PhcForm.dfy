/** Which strings are read as a password hash, and as what: their form, piece by piece. */
module PhcForm {
  import opened Wrappers
  import opened Text
  import opened Base64
  import opened Argon2Phc

  /** The text is a decimal number, most significant digit first, with or without leading zeros. */
  ghost predicate Decimal(text: string, n: nat)
    decreases |text|
  {
    if text == "" then n == 0
    else '0' <= text[|text| - 1] <= '9' && n % 10 == text[|text| - 1] as int - 48 && Decimal(text[..|text| - 1], n / 10)
  }

  ghost predicate Counts(text: string, n: nat, most: nat) { 1 <= |text| <= 10 && Decimal(text, n) && 1 <= n <= most }

  ghost predicate Codes(text: string, bytes: seq<byte>, least: nat, most: nat) {
    Free(text, '$') && Decode(text) == Some(bytes) && least <= |bytes| <= most &&
    EncodedLength(least) <= |text| <= EncodedLength(most)
  }

  /** The string is put together from these three numbers and two codes. */
  ghost predicate Written(encoded: string, m: string, t: string, p: string, salt: string, hash: string) {
    encoded == "" + ['$'] + ("argon2id" + ['$'] + ("v=19" + ['$'] +
        (("m=" + m + [','] + ("t=" + t + [','] + ("p=" + p))) + ['$'] + (salt + ['$'] + hash))))
  }

  ghost predicate Means(m: string, t: string, p: string, saltText: string, hashText: string, params: Params,
          salt: seq<byte>, hash: seq<byte>)
  {
    Counts(m, params.memory, 65536) && Counts(t, params.iterations, 3) && Counts(p, params.parallelism, 2) &&
    Codes(saltText, salt, 8, 64) && Codes(hashText, hash, 16, 64) && params.saltLength == |salt| &&
    params.hashLength == |hash|
  }

  // ---- Numbers

  lemma {:induction false} DecimalExactly(text: string, n: nat)
    ensures ParseDigits(text) == Some(n) <==> Decimal(text, n)
    decreases |text|
  {
    if text != "" {
      var last := text[|text| - 1];
      DecimalExactly(text[..|text| - 1], n / 10);
      if ParseDigits(text[..|text| - 1]).Some? {
        DecimalExactly(text[..|text| - 1], ParseDigits(text[..|text| - 1]).value);
      }
    }
  }

  lemma {:induction false} DecimalFree(text: string, n: nat, c: char)
    requires Decimal(text, n) && !('0' <= c <= '9')
    ensures Free(text, c)
    decreases |text|
  {
    if text != "" {
      DecimalFree(text[..|text| - 1], n / 10, c);
      assert text == text[..|text| - 1] + [text[|text| - 1]];
    }
  }

  lemma BoundedExactly(prefix: string, text: string, n: nat, most: nat, bits: nat)
    requires most < 0x100 || (bits == 32 && most < 0x1_0000_0000)
    ensures ParseBounded(prefix + text, prefix, most, bits) == Some(n) && n >= 1 <==> Counts(text, n, most)
  {
    assert (prefix + text)[|prefix|..] == text;
    DecimalExactly(text, n);
  }

  lemma BoundedPrefix(field: string, prefix: string, most: nat, bits: nat) returns (text: string)
    requires ParseBounded(field, prefix, most, bits).Some?
    ensures field == prefix + text
  {
    text := field[|prefix|..];
  }

  // ---- Pieces

  lemma {:induction false} SplitFree(s: string, c: char)
    ensures forall i :: 0 <= i < |Split(s, c)| ==> Free(Split(s, c)[i], c)
    decreases |s|
  {
    if s != "" {
      SplitFree(s[1..], c);
    }
  }

  lemma ThreeJoined(a: string, b: string, c: string, mark: char)
    ensures Join([a, b, c], mark) == a + [mark] + (b + [mark] + c)
  {
    JoinNext(b, [c], mark);
    JoinNext(a, [b, c], mark);
    assert [a, b, c] == [a] + [b, c] && [b, c] == [b] + [c];
  }

  lemma FieldIsRead(m: string, t: string, p: string, params: Params)
    requires Counts(m, params.memory, 65536) && Counts(t, params.iterations, 3) && Counts(p, params.parallelism, 2)
    ensures var field := "m=" + m + [','] + ("t=" + t + [','] + ("p=" + p));
            ParseField(field) == Some((params.memory, params.iterations, params.parallelism)) && Free(field, '$')
  {
    DecimalFree(m, params.memory, ',');
    DecimalFree(t, params.iterations, ',');
    DecimalFree(p, params.parallelism, ',');
    DecimalFree(m, params.memory, '$');
    DecimalFree(t, params.iterations, '$');
    DecimalFree(p, params.parallelism, '$');
    ThreeJoined("m=" + m, "t=" + t, "p=" + p, ',');
    SplitOfJoin(["m=" + m, "t=" + t, "p=" + p], ',');
    BoundedExactly("m=", m, params.memory, 65536, 32);
    BoundedExactly("t=", t, params.iterations, 3, 32);
    BoundedExactly("p=", p, params.parallelism, 2, 8);
  }

  lemma ReadField(field: string, params: Params) returns (m: string, t: string, p: string)
    requires ParseField(field) == Some((params.memory, params.iterations, params.parallelism))
    ensures field == "m=" + m + [','] + ("t=" + t + [','] + ("p=" + p))
    ensures Counts(m, params.memory, 65536) && Counts(t, params.iterations, 3) && Counts(p, params.parallelism, 2)
  {
    var fields := Split(field, ',');
    SplitJoins(field, ',');
    ThreeJoined(fields[0], fields[1], fields[2], ',');
    assert fields == [fields[0], fields[1], fields[2]];
    m := BoundedPrefix(fields[0], "m=", 65536, 32);
    t := BoundedPrefix(fields[1], "t=", 3, 32);
    p := BoundedPrefix(fields[2], "p=", 2, 8);
    BoundedExactly("m=", m, params.memory, 65536, 32);
    BoundedExactly("t=", t, params.iterations, 3, 32);
    BoundedExactly("p=", p, params.parallelism, 2, 8);
  }

  lemma CodesExactly(text: string, bytes: seq<byte>, least: nat, most: nat)
    requires Free(text, '$')
    ensures ParseBytes(text, least, most) == Some(bytes) <==> Codes(text, bytes, least, most)
  {
  }

  lemma WrittenIsRead(encoded: string, m: string, t: string, p: string, saltText: string, hashText: string,
          params: Params, salt: seq<byte>, hash: seq<byte>)
    requires 1 <= |encoded| <= 512 && Written(encoded, m, t, p, saltText, hashText)
    requires Means(m, t, p, saltText, hashText, params, salt, hash)
    ensures Parse(encoded) == Some((params, salt, hash))
  {
    var field := "m=" + m + [','] + ("t=" + t + [','] + ("p=" + p));
    FieldIsRead(m, t, p, params);
    SixJoined("", "argon2id", "v=19", field, saltText, hashText, '$');
    SplitOfJoin(["", "argon2id", "v=19", field, saltText, hashText], '$');
    CodesExactly(saltText, salt, 8, 64);
    CodesExactly(hashText, hash, 16, 64);
  }

  lemma ReadIsWritten(encoded: string, params: Params, salt: seq<byte>, hash: seq<byte>)
          returns (m: string, t: string, p: string, saltText: string, hashText: string)
    requires Parse(encoded) == Some((params, salt, hash))
    ensures Written(encoded, m, t, p, saltText, hashText) && Means(m, t, p, saltText, hashText, params, salt, hash)
  {
    var parts := Split(encoded, '$');
    SplitJoins(encoded, '$');
    SplitFree(encoded, '$');
    SixJoined(parts[0], parts[1], parts[2], parts[3], parts[4], parts[5], '$');
    assert parts == [parts[0], parts[1], parts[2], parts[3], parts[4], parts[5]];
    m, t, p := ReadField(parts[3], params);
    saltText, hashText := parts[4], parts[5];
    CodesExactly(saltText, salt, 8, 64);
    CodesExactly(hashText, hash, 16, 64);
  }

  /** A string is read as a hash exactly when it has at most 512 characters and is put together that way. */
  lemma ParseExactly(encoded: string, params: Params, salt: seq<byte>, hash: seq<byte>)
    ensures Parse(encoded) == Some((params, salt, hash)) <==>
            1 <= |encoded| <= 512 &&
            exists m, t, p, saltText, hashText ::
              (Written(encoded, m, t, p, saltText, hashText) &&
               Means(m, t, p, saltText, hashText, params, salt, hash))
  {
    if Parse(encoded) == Some((params, salt, hash)) {
      var m, t, p, saltText, hashText := ReadIsWritten(encoded, params, salt, hash);
    }
    if 1 <= |encoded| <= 512 {
      if m, t, p, saltText, hashText :|
          (Written(encoded, m, t, p, saltText, hashText) &&
           Means(m, t, p, saltText, hashText, params, salt, hash)) {
        WrittenIsRead(encoded, m, t, p, saltText, hashText, params, salt, hash);
      }
    }
  }
}
