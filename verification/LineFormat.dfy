/** The form of a pkt-line, character by character: which bytes are printed for a line, and which are read as one. */
module LineFormat {
  import opened Wrappers
  import opened Text
  import opened PktLine

  // ---- How a line is printed

  const LOWER := "0123456789abcdef"

  lemma HexDigitIs(n: nat)
    requires n < 16
    ensures HexDigit(n) == LOWER[n]
  {
  }

  lemma FourHexDigits(n: nat)
    requires n < 0x10000
    ensures Hex(n, 4) == [HexDigit(n / 4096), HexDigit(n / 256 % 16), HexDigit(n / 16 % 16), HexDigit(n % 16)]
  {
    assert n / 16 / 16 == n / 256 && n / 16 / 16 / 16 == n / 4096 && n / 4096 < 16;
    assert Hex(n / 4096, 1) == [HexDigit(n / 4096)];
    assert Hex(n / 256, 2) == Hex(n / 4096, 1) + [HexDigit(n / 256 % 16)];
    assert Hex(n / 16, 3) == Hex(n / 256, 2) + [HexDigit(n / 16 % 16)];
  }

  /** A line that fits starts with its whole length, newline and header included, in four lowercase digits. */
  lemma PrintedExactly(payload: string)
    requires |payload| <= MAX_PRINTED
    ensures var n := |payload| + 5;
            n / 4096 < 16 &&
            FormatPktLine(payload) ==
              [LOWER[n / 4096], LOWER[n / 256 % 16], LOWER[n / 16 % 16], LOWER[n % 16]] + payload + "\n"
  {
    var n := |payload| + 5;
    FourHexDigits(n);
    HexDigitIs(n / 4096);
    HexDigitIs(n / 256 % 16);
    HexDigitIs(n / 16 % 16);
    HexDigitIs(n % 16);
  }

  // ---- Which lines are read

  const UPPER := "0123456789ABCDEF"

  /** The character is this digit, in either case. */
  ghost predicate Digit(c: char, k: nat) { k < 16 && (c == LOWER[k] || c == UPPER[k]) }

  /** The value of a digit is read in either case. */
  lemma DigitExactly(c: char, k: nat)
    ensures HexValue(c) == Some(k) <==> Digit(c, k)
  {
  }

  /** The four characters are the hexadecimal digits of this number. */
  ghost predicate Header(digits: string, n: nat) {
    |digits| == 4 &&
    var a, b, c, d := HexValue(digits[0]), HexValue(digits[1]), HexValue(digits[2]), HexValue(digits[3]);
    a.Some? && b.Some? && c.Some? && d.Some? && n == a.value * 4096 + b.value * 256 + c.value * 16 + d.value
  }

  lemma ParsesNext(prefix: string, c: char)
    ensures ParseHex(prefix + [c]) ==
            if ParseHex(prefix).None? || HexValue(c).None? then None
            else Some(ParseHex(prefix).value * 16 + HexValue(c).value)
  {
    assert (prefix + [c])[..|prefix|] == prefix;
  }

  lemma ParsesFour(digits: string)
    requires |digits| == 4
    ensures var a, b, c, d := HexValue(digits[0]), HexValue(digits[1]), HexValue(digits[2]), HexValue(digits[3]);
            ParseHex(digits) ==
              if a.None? || b.None? || c.None? || d.None? then None
              else Some(a.value * 4096 + b.value * 256 + c.value * 16 + d.value)
  {
    assert ParseHex("") == Some(0);
    ParsesNext("", digits[0]);
    ParsesNext("" + [digits[0]], digits[1]);
    ParsesNext("" + [digits[0]] + [digits[1]], digits[2]);
    ParsesNext("" + [digits[0]] + [digits[1]] + [digits[2]], digits[3]);
    assert digits == "" + [digits[0]] + [digits[1]] + [digits[2]] + [digits[3]];
  }

  lemma HeaderExactly(digits: string, n: nat)
    requires |digits| == 4
    ensures ParseHex(digits) == Some(n) <==> Header(digits, n)
  {
    ParsesFour(digits);
  }

  /** The bytes hold this payload, with or without a newline that ends it. */
  ghost predicate Holds(bytes: string, payload: string) {
    bytes == payload + "\n" || (bytes == payload && (payload == "" || payload[|payload| - 1] != '\n'))
  }

  lemma HoldsExactly(bytes: string, payload: string)
    ensures TrimNewline(bytes) == payload <==> Holds(bytes, payload)
  {
    if TrimNewline(bytes) == payload && bytes != payload {
      assert bytes == payload + "\n";
    }
    if bytes == payload + "\n" { assert bytes[..|payload|] == payload; }
  }

  /** A line is read exactly when its header counts at least itself and at most 65520 characters and all of them are
      there. */
  lemma LineExactly(input: string, payload: string, rest: string)
    ensures ReadPktLine(input) == Line(payload, rest) <==>
            |input| >= 4 && exists n: nat :: (Header(input[..4], n) && 4 <= n <= 65520 && n <= |input| &&
                Holds(input[4..n], payload) && rest == input[n..])
  {
    if |input| >= 4 {
      forall n: nat { HeaderExactly(input[..4], n); }
      var length := ParseHex(input[..4]);
      if length.Some? && 4 <= length.value <= |input| { HoldsExactly(input[4..length.value], payload); }
    }
  }

  /** A flush is read exactly when the next four characters are zeros. */
  lemma FlushExactly(input: string, rest: string)
    ensures ReadPktLine(input) == Flush(rest) <==> |input| >= 4 && input[..4] == "0000" && rest == input[4..]
  {
    if |input| >= 4 {
      ParsesFour(input[..4]);
      forall i | 0 <= i < 4 { DigitExactly(input[..4][i], 0); }
      assert input[..4] == [input[0], input[1], input[2], input[3]];
    }
  }
}
