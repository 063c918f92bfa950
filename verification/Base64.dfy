/** Unpadded base64 with the standard alphabet (section 4 of RFC 4648). */
module Base64 {
  import opened Wrappers

  newtype byte = b: int | 0 <= b < 256

  function Letter(n: nat): char
    requires n < 64
  {
    if n < 26 then ('A' as int + n) as char
    else if n < 52 then ('a' as int + n - 26) as char
    else if n < 62 then ('0' as int + n - 52) as char
    else if n == 62 then '+' else '/'
  }

  function Index(c: char): Option<nat> {
    if 'A' <= c <= 'Z' then Some(c as int - 'A' as int)
    else if 'a' <= c <= 'z' then Some(c as int - 'a' as int + 26)
    else if '0' <= c <= '9' then Some(c as int - '0' as int + 52)
    else if c == '+' then Some(62)
    else if c == '/' then Some(63)
    else None
  }

  lemma IndexOfLetter(n: nat)
    requires n < 64
    ensures Index(Letter(n)) == Some(n)
  {
  }

  predicate InAlphabet(s: string) { forall c | c in s :: Index(c).Some? }

  function EncodedLength(n: nat): nat { n / 3 * 4 + (n % 3 * 8 + 5) / 6 }

  /** The six-bit values of a run of bytes, most significant first; a short last group is padded with zero bits. */
  function Sextets(bytes: seq<byte>): (v: seq<nat>)
    ensures forall i :: 0 <= i < |v| ==> v[i] < 64
  {
    if |bytes| == 0 then []
    else
      var a := bytes[0] as int;
      if |bytes| == 1 then [a / 4, a % 4 * 16] else
      var b := bytes[1] as int;
      if |bytes| == 2 then [a / 4, a % 4 * 16 + b / 16, b % 16 * 4] else
      var c := bytes[2] as int;
      [a / 4, a % 4 * 16 + b / 16, b % 16 * 4 + c / 64, c % 64] + Sextets(bytes[3..])
  }

  function Letters(v: seq<nat>): (s: string)
    requires forall i :: 0 <= i < |v| ==> v[i] < 64
    ensures |s| == |v|
    ensures forall i :: 0 <= i < |v| ==> s[i] == Letter(v[i])
  {
    seq(|v|, i requires 0 <= i < |v| => Letter(v[i]))
  }

  function Encode(bytes: seq<byte>): string { Letters(Sextets(bytes)) }

  /** The decoder skips line breaks and does not look at the bits a short group leaves over. */
  function Unbroken(s: string): string {
    if s == "" then "" else if s[0] == '\r' || s[0] == '\n' then Unbroken(s[1..]) else [s[0]] + Unbroken(s[1..])
  }

  function Values(s: string): Option<seq<nat>> {
    if s == "" then Some([]) else
    match Index(s[0])
    case None => None
    case Some(first) =>
      match Values(s[1..])
      case None => None
      case Some(rest) => Some([first] + rest)
  }

  function Bytes(v: seq<nat>): Option<seq<byte>>
    requires forall i :: 0 <= i < |v| ==> v[i] < 64
  {
    if |v| == 0 then Some([])
    else if |v| == 1 then None
    else if |v| == 2 then Some([(v[0] * 4 + v[1] / 16) as byte])
    else if |v| == 3 then Some([(v[0] * 4 + v[1] / 16) as byte, (v[1] % 16 * 16 + v[2] / 4) as byte])
    else
      match Bytes(v[4..])
      case None => None
      case Some(rest) => Some([(v[0] * 4 + v[1] / 16) as byte, (v[1] % 16 * 16 + v[2] / 4) as byte,
          (v[2] % 4 * 64 + v[3]) as byte] + rest)
  }

  lemma {:induction false} ValuesSmall(s: string)
    requires Values(s).Some?
    ensures forall i :: 0 <= i < |Values(s).value| ==> Values(s).value[i] < 64
  {
    if s != "" {
      ValuesSmall(s[1..]);
    }
  }

  function Decode(s: string): Option<seq<byte>> {
    match Values(Unbroken(s))
    case None => None
    case Some(v) => ValuesSmall(Unbroken(s)); Bytes(v)
  }

  // ---- Decoding undoes encoding

  lemma {:induction false} SextetCount(bytes: seq<byte>)
    ensures |Sextets(bytes)| == EncodedLength(|bytes|)
    decreases |bytes|
  {
    if |bytes| >= 3 {
      SextetCount(bytes[3..]);
    }
  }

  lemma EncodedShape(bytes: seq<byte>)
    ensures |Encode(bytes)| == EncodedLength(|bytes|) && InAlphabet(Encode(bytes))
  {
    SextetCount(bytes);
    forall c | c in Encode(bytes) ensures Index(c).Some? {
      var i :| 0 <= i < |Encode(bytes)| && Encode(bytes)[i] == c;
      IndexOfLetter(Sextets(bytes)[i]);
    }
  }

  lemma {:induction false} NothingBroken(s: string)
    requires InAlphabet(s)
    ensures Unbroken(s) == s
    decreases |s|
  {
    if s != "" {
      assert s[0] in s && Index(s[0]).Some?;
      assert InAlphabet(s[1..]);
      NothingBroken(s[1..]);
      assert [s[0]] + s[1..] == s;
    }
  }

  lemma {:induction false} ValuesOfLetters(v: seq<nat>)
    requires forall i :: 0 <= i < |v| ==> v[i] < 64
    ensures Values(Letters(v)) == Some(v)
    decreases |v|
  {
    if v != [] {
      IndexOfLetter(v[0]);
      ValuesOfLetters(v[1..]);
      assert Letters(v)[1..] == Letters(v[1..]);
      assert [v[0]] + v[1..] == v;
    }
  }

  lemma Recombine(a: int, b: int, c: int)
    requires 0 <= a < 256 && 0 <= b < 256 && 0 <= c < 256
    ensures a / 4 * 4 + (a % 4 * 16 + b / 16) / 16 == a && a / 4 * 4 + (a % 4 * 16) / 16 == a
    ensures (a % 4 * 16 + b / 16) % 16 * 16 + (b % 16 * 4 + c / 64) / 4 == b &&
            (a % 4 * 16 + b / 16) % 16 * 16 + (b % 16 * 4) / 4 == b
    ensures (b % 16 * 4 + c / 64) % 4 * 64 + c % 64 == c
  {
  }

  lemma OneByte(a: byte)
    ensures Bytes(Sextets([a])) == Some([a])
  {
    Recombine(a as int, 0, 0);
  }

  lemma TwoBytes(a: byte, b: byte)
    ensures Bytes(Sextets([a, b])) == Some([a, b])
  {
    Recombine(a as int, b as int, 0);
    var v := Sextets([a, b]);
    assert v[0] == a as int / 4 && v[1] == a as int % 4 * 16 + b as int / 16 && v[2] == b as int % 16 * 4;
  }

  lemma FullGroup(a: byte, b: byte, c: byte, rest: seq<byte>)
    requires Bytes(Sextets(rest)) == Some(rest)
    ensures Bytes(Sextets([a, b, c] + rest)) == Some([a, b, c] + rest)
  {
    Recombine(a as int, b as int, c as int);
    var bytes := [a, b, c] + rest;
    assert bytes[3..] == rest;
    var v := Sextets(bytes);
    assert v[4..] == Sextets(rest);
    assert v[0] == a as int / 4 && v[1] == a as int % 4 * 16 + b as int / 16 &&
           v[2] == b as int % 16 * 4 + c as int / 64 && v[3] == c as int % 64;
  }

  lemma {:induction false} BytesOfSextets(bytes: seq<byte>)
    ensures Bytes(Sextets(bytes)) == Some(bytes)
    decreases |bytes|
  {
    if |bytes| == 1 {
      OneByte(bytes[0]);
      assert bytes == [bytes[0]];
    } else if |bytes| == 2 {
      TwoBytes(bytes[0], bytes[1]);
      assert bytes == [bytes[0], bytes[1]];
    } else if |bytes| >= 3 {
      BytesOfSextets(bytes[3..]);
      FullGroup(bytes[0], bytes[1], bytes[2], bytes[3..]);
      assert bytes == [bytes[0], bytes[1], bytes[2]] + bytes[3..];
    }
  }

  lemma DecodeOfEncode(bytes: seq<byte>)
    ensures Decode(Encode(bytes)) == Some(bytes)
  {
    EncodedShape(bytes);
    NothingBroken(Encode(bytes));
    ValuesOfLetters(Sextets(bytes));
    BytesOfSextets(bytes);
  }

  lemma Spells(v: seq<nat>, s: string)
    requires (forall i :: 0 <= i < |v| ==> v[i] < 64) && |v| == |s|
    requires forall i :: 0 <= i < |v| ==> s[i] == Letter(v[i])
    ensures Letters(v) == s
  {
  }

  lemma ShortVectors()
    ensures Encode([102]) == "Zg" && Encode([102, 111]) == "Zm8"
  {
    Spells([25, 32], "Zg");
    Spells([25, 38, 60], "Zm8");
  }

  lemma LongVector()
    ensures Encode([102, 111, 111, 98, 97, 114]) == "Zm9vYmFy"
  {
    var foobar: seq<byte> := [102, 111, 111, 98, 97, 114];
    assert foobar[3..] == [98, 97, 114] && foobar[3..][3..] == [];
    assert Sextets(foobar[3..]) == [24, 38, 5, 50];
    assert Sextets(foobar) == [25, 38, 61, 47] + [24, 38, 5, 50];
    Spells([25, 38, 61, 47, 24, 38, 5, 50], "Zm9vYmFy");
  }

  /** Test vectors of section 10 of RFC 4648, without their padding. */
  lemma TestVectors()
    ensures Encode([102]) == "Zg" && Encode([102, 111]) == "Zm8"
    ensures Encode([102, 111, 111, 98, 97, 114]) == "Zm9vYmFy"
  {
    ShortVectors();
    LongVector();
  }
}
