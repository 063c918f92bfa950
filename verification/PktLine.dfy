/** The pkt-line framing of gitprotocol-common(5), as this server prints and reads it. A string stands for
    the bytes of a stream. */
module PktLine {
  import opened Wrappers
  import opened Text

  const MAX_LINE := 65520
  const MAX_PRINTED := 65515

  // ---- Lengths in hexadecimal

  function HexValue(c: char): Option<nat> {
    if '0' <= c <= '9' then Some(c as int - '0' as int)
    else if 'a' <= c <= 'f' then Some(c as int - 'a' as int + 10)
    else if 'A' <= c <= 'F' then Some(c as int - 'A' as int + 10)
    else None
  }

  /** At least `width` digits, more when the number needs them. */
  function Hex(n: nat, width: nat): (digits: string)
    ensures |digits| >= width && |digits| >= 1
    decreases n + width
  {
    if n < 16 && width <= 1 then [HexDigit(n)]
    else Hex(n / 16, if width == 0 then 0 else width - 1) + [HexDigit(n % 16)]
  }

  function ParseHex(digits: string): Option<nat> {
    if digits == "" then Some(0) else
    var high, low := ParseHex(digits[..|digits| - 1]), HexValue(digits[|digits| - 1]);
    if high.None? || low.None? then None else Some(high.value * 16 + low.value)
  }

  lemma {:induction false} ParsesHex(n: nat, width: nat)
    ensures ParseHex(Hex(n, width)) == Some(n)
    decreases n + width
  {
    var digits := Hex(n, width);
    if n < 16 && width <= 1 {
      assert digits[..|digits| - 1] == "";
    } else {
      ParsesHex(n / 16, if width == 0 then 0 else width - 1);
      assert digits[..|digits| - 1] == Hex(n / 16, if width == 0 then 0 else width - 1);
    }
  }

  lemma FourDigits(n: nat)
    requires n < 0x10000
    ensures |Hex(n, 4)| == 4
  {
    assert n / 16 < 0x1000 && n / 16 / 16 < 0x100 && n / 16 / 16 / 16 < 0x10;
    assert |Hex(n / 16 / 16 / 16, 1)| == 1;
    assert |Hex(n / 16 / 16, 2)| == 2;
    assert |Hex(n / 16, 3)| == 3;
  }

  // ---- One line

  function FormatPktLine(payload: string): string { Hex(|payload| + 5, 4) + payload + "\n" }

  datatype ReadResult = Failed | Flush(rest: string) | Line(payload: string, rest: string)

  function TrimNewline(s: string): string {
    if s != "" && s[|s| - 1] == '\n' then s[..|s| - 1] else s
  }

  function ReadPktLine(input: string): (result: ReadResult)
    ensures result.Flush? ==> |result.rest| + 4 == |input|
    ensures result.Line? ==> |result.payload| + |result.rest| + 4 <= |input| && |result.payload| <= MAX_LINE - 4
  {
    if |input| < 4 then Failed else
    match ParseHex(input[..4])
    case None => Failed
    case Some(length) =>
      if length == 0 then Flush(input[4..])
      else if length < 4 || length > MAX_LINE || |input| < length then Failed
      else Line(TrimNewline(input[4..length]), input[length..])
  }

  /** Reading undoes printing and leaves the rest of the stream alone, exactly for the payloads that fit. */
  lemma RoundTripExactly(payload: string, rest: string)
    ensures ReadPktLine(FormatPktLine(payload) + rest) == Line(payload, rest) <==> |payload| <= MAX_PRINTED
  {
    var length := |payload| + 5;
    var input := FormatPktLine(payload) + rest;
    ParsesHex(length, 4);
    if length < 0x10000 {
      FourDigits(length);
      assert input[..4] == Hex(length, 4);
      if length <= MAX_LINE {
        assert input[4..length] == payload + "\n";
        assert TrimNewline(payload + "\n") == payload;
        assert input[length..] == rest;
      }
    }
  }

  /** Reads lines from a stream it consumes. */
  class Reader {
    var rest: string

    constructor (input: string)
      ensures rest == input
    {
      rest := input;
    }

    method ReadLine() returns (ok: bool, flush: bool, payload: string)
      modifies this
      ensures var result := ReadPktLine(old(rest));
              (ok <==> !result.Failed?) && (result.Flush? ==> flush && rest == result.rest) &&
              (result.Line? ==> !flush && payload == result.payload && rest == result.rest)
      ensures ok ==> |rest| < |old(rest)|
    {
      payload := "";
      if |rest| < 4 {
        return false, false, "";
      }
      var header := rest[..4];
      var length := ParseHex(header);
      if length.None? {
        return false, false, "";
      }
      if length.value == 0 {
        rest := rest[4..];
        return true, true, "";
      }
      if length.value < 4 || length.value > MAX_LINE || |rest| < length.value {
        return false, false, "";
      }
      payload := rest[4..length.value];
      rest := rest[length.value..];
      if payload != "" && payload[|payload| - 1] == '\n' {
        payload := payload[..|payload| - 1];
      }
      return true, false, payload;
    }
  }

  // ---- A flushed run of lines

  const FLUSH := "0000"

  function FormatLines(payloads: seq<string>): string {
    if payloads == [] then FLUSH else FormatPktLine(payloads[0]) + FormatLines(payloads[1..])
  }

  function ReadLines(input: string): Option<(seq<string>, string)>
    decreases |input|
  {
    match ReadPktLine(input)
    case Failed => None
    case Flush(rest) => Some(([], rest))
    case Line(payload, rest) =>
      match ReadLines(rest)
      case None => None
      case Some((payloads, end)) => Some(([payload] + payloads, end))
  }

  lemma ReadsFlush(rest: string)
    ensures ReadPktLine(FLUSH + rest) == Flush(rest)
  {
    var input := FLUSH + rest;
    assert input[..4] == "0000" && input[4..] == rest;
    assert "0000"[..3] == "000" && "000"[..2] == "00" && "00"[..1] == "0" && "0"[..0] == "";
    assert ParseHex("0") == Some(0);
    assert ParseHex("00") == Some(0);
    assert ParseHex("000") == Some(0);
  }

  /** A run of lines that fit is read back line by line, up to its flush and no further. */
  lemma {:induction false} RunRoundTrip(payloads: seq<string>, rest: string)
    requires forall i :: 0 <= i < |payloads| ==> |payloads[i]| <= MAX_PRINTED
    ensures ReadLines(FormatLines(payloads) + rest) == Some((payloads, rest))
    decreases |payloads|
  {
    if payloads == [] {
      ReadsFlush(rest);
    } else {
      var tail := FormatLines(payloads[1..]) + rest;
      assert FormatLines(payloads) + rest == FormatPktLine(payloads[0]) + tail;
      RoundTripExactly(payloads[0], tail);
      RunRoundTrip(payloads[1..], rest);
      assert [payloads[0]] + payloads[1..] == payloads;
    }
  }
}
