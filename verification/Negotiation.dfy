/** The opening of a proc-receive session: the version and the features that the client offers, and those that
    the server takes up. */
module Negotiation {
  import opened Wrappers
  import opened Text
  import opened PktLine

  datatype Features = Features(atomic: bool, pushOptions: bool)

  predicate PlainFeature(feature: string) {
    feature != "" && forall c | c in feature :: c > ' ' && c != 0x7f as char
  }

  predicate PiecesApart(pieces: seq<string>) {
    forall i, j :: 0 <= i < j < |pieces| ==> pieces[i] != pieces[j]
  }

  /** Splits at the first separator only. */
  function Cut(s: string, c: char): (string, Option<string>)
    decreases |s|
  {
    if s == "" then ("", None)
    else if s[0] == c then ("", Some(s[1..]))
    else var (before, after) := Cut(s[1..], c); ([s[0]] + before, after)
  }

  function ParseNegotiation(line: string): Option<Features> {
    var payload := TrimNewline(line);
    if '\r' in payload || '\n' in payload then None else
    var (version, offered) := Cut(payload, '\0');
    if version != "version=1" then None
    else if offered.None? || offered.value == "" then Some(Features(false, false))
    else if '\0' in offered.value then None
    else
      var features := Split(offered.value, ' ');
      if (forall feature | feature in features :: PlainFeature(feature)) && PiecesApart(features)
      then Some(Features("atomic" in features, "push-options" in features)) else None
  }

  function Accepted(features: Features): seq<string> {
    (if features.pushOptions then ["push-options"] else []) + (if features.atomic then ["atomic"] else [])
  }

  function Taken(features: Features): string {
    if Accepted(features) == [] then "version=1" else "version=1" + "\0" + Join(Accepted(features), ' ')
  }

  function Greeting(features: Features): string { FormatPktLine(Taken(features)) + FLUSH }

  // ---- What is understood

  ghost predicate PlainWord(word: string) {
    word != "" && forall i :: 0 <= i < |word| ==> word[i] as int > 32 && word[i] as int != 127
  }

  /** The line names version 1 and offers these words, each once and each plain, separated by single spaces.
      A line that offers nothing may or may not have the separator, and any line may end in a newline. */
  ghost predicate Offers(line: string, words: seq<string>) {
    (forall i :: 0 <= i < |words| ==> PlainWord(words[i])) &&
    (forall i, j :: 0 <= i < j < |words| ==> words[i] != words[j]) &&
    var opening := "version=1" + ['\0'] + Join(words, ' ');
    line == opening || line == opening + "\n" || (words == [] && (line == "version=1" || line == "version=1\n"))
  }

  lemma {:induction false} CutNone(s: string, c: char)
    requires Free(s, c)
    ensures Cut(s, c) == (s, None)
    decreases |s|
  {
    if s != "" {
      CutNone(s[1..], c);
      assert [s[0]] + s[1..] == s;
    }
  }

  lemma {:induction false} CutFirst(a: string, c: char, b: string)
    requires Free(a, c)
    ensures Cut(a + [c] + b, c) == (a, Some(b))
    decreases |a|
  {
    var s := a + [c] + b;
    if a == "" {
      assert s[1..] == b;
    } else {
      CutFirst(a[1..], c, b);
      assert s[1..] == a[1..] + [c] + b && [a[0]] + a[1..] == a;
    }
  }

  lemma {:induction false} CutParts(s: string, c: char)
    ensures var (before, after) := Cut(s, c);
            Free(before, c) && s == if after.None? then before else before + [c] + after.value
    decreases |s|
  {
    if s == "" {
    } else if s[0] == c {
      assert "" + [c] + s[1..] == s;
    } else {
      CutParts(s[1..], c);
      var (before, after) := Cut(s[1..], c);
      assert s == [s[0]] + s[1..];
      if after.Some? {
        assert s == [s[0]] + before + [c] + after.value;
      }
    }
  }

  lemma {:induction false} JoinFree(words: seq<string>, c: char)
    requires c != ' ' && forall i :: 0 <= i < |words| ==> Free(words[i], c)
    ensures Free(Join(words, ' '), c)
  {
    if |words| > 1 {
      JoinFree(words[1..], c);
    }
  }

  lemma PlainFree(words: seq<string>, c: char)
    requires c as int <= 32 && forall i :: 0 <= i < |words| ==> PlainWord(words[i])
    ensures forall i :: 0 <= i < |words| ==> Free(words[i], c)
  {
  }

  lemma PlainChar(c: char)
    ensures c > ' ' && c != 0x7f as char <==> c as int > 32 && c as int != 127
  {
  }

  lemma PlainIsPlain(word: string)
    ensures PlainFeature(word) <==> PlainWord(word)
  {
    if PlainWord(word) {
      forall c | c in word ensures c > ' ' && c != 0x7f as char {
        var i :| 0 <= i < |word| && word[i] == c;
        PlainChar(c);
      }
    }
    if PlainFeature(word) {
      forall i | 0 <= i < |word| ensures word[i] as int > 32 && word[i] as int != 127 {
        assert word[i] in word;
        PlainChar(word[i]);
      }
    }
  }

  lemma VersionFree(c: char)
    requires c as int < 32
    ensures Free("version=1", c)
  {
  }

  /** What follows the version, when it holds neither a line end nor another separator. */
  lemma OpeningParses(line: string, offered: string)
    requires Free(offered, '\0') && Free(offered, '\r') && Free(offered, '\n')
    requires TrimNewline(line) == "version=1" + ['\0'] + offered
    ensures Cut(TrimNewline(line), '\0') == ("version=1", Some(offered))
    ensures '\r' !in TrimNewline(line) && '\n' !in TrimNewline(line)
  {
    VersionFree('\0');
    VersionFree('\r');
    VersionFree('\n');
    CutFirst("version=1", '\0', offered);
  }

  lemma Trimmed(text: string)
    requires text != "" && text[|text| - 1] != '\n'
    ensures TrimNewline(text) == text && TrimNewline(text + "\n") == text
  {
  }

  lemma {:induction false} JoinEnds(words: seq<string>)
    requires words != [] && forall i :: 0 <= i < |words| ==> words[i] != ""
    ensures Join(words, ' ') != ""
  {
  }

  lemma WordsParse(line: string, words: seq<string>)
    requires words != [] && Offers(line, words)
    ensures ParseNegotiation(line) == Some(Features("atomic" in words, "push-options" in words))
  {
    var offered := Join(words, ' ');
    PlainFree(words, '\0');
    PlainFree(words, '\r');
    PlainFree(words, '\n');
    PlainFree(words, ' ');
    JoinFree(words, '\0');
    JoinFree(words, '\r');
    JoinFree(words, '\n');
    JoinEnds(words);
    var opening := "version=1" + ['\0'] + offered;
    assert opening[|opening| - 1] == offered[|offered| - 1];
    Trimmed(opening);
    OpeningParses(line, offered);
    SplitOfJoin(words, ' ');
    forall word | word in words ensures PlainFeature(word) { PlainIsPlain(word); }
  }

  lemma BareIsAll(version: string, line: string)
    requires version != "" && Free(version, '\0') && Free(version, '\r') && Free(version, '\n')
    requires line == version || line == version + "\n"
    ensures Cut(TrimNewline(line), '\0') == (version, None)
    ensures '\r' !in TrimNewline(line) && '\n' !in TrimNewline(line)
  {
    Trimmed(version);
    CutNone(version, '\0');
  }

  lemma MarkedTrims(version: string, line: string)
    requires line == version + ['\0'] + "" || line == version + ['\0'] + "" + "\n"
    ensures TrimNewline(line) == version + ['\0'] + ""
  {
    Trimmed(version + ['\0'] + "");
  }

  lemma NothingParses(line: string)
    requires Offers(line, [])
    ensures ParseNegotiation(line) == Some(Features(false, false))
  {
    var version := "version=1";
    VersionFree('\0');
    VersionFree('\r');
    VersionFree('\n');
    if line == version || line == version + "\n" {
      BareIsAll(version, line);
    } else {
      MarkedTrims(version, line);
      OpeningParses(line, "");
    }
  }

  lemma ParsedOffers(line: string) returns (words: seq<string>)
    requires ParseNegotiation(line).Some?
    ensures Offers(line, words)
  {
    var payload := TrimNewline(line);
    var (version, offered) := Cut(payload, '\0');
    CutParts(payload, '\0');
    assert line == payload || line == payload + "\n";
    if offered.None? || offered.value == "" {
      words := [];
      assert offered.Some? ==> payload == "version=1" + ['\0'] + "";
    } else {
      words := Split(offered.value, ' ');
      SplitJoins(offered.value, ' ');
      forall i | 0 <= i < |words| ensures PlainWord(words[i]) { PlainIsPlain(words[i]); }
    }
  }

  /** A line is understood exactly when it offers some words that way, and what is understood is whether the two
      known features are among them. */
  lemma NegotiationMeans(line: string, features: Features)
    ensures ParseNegotiation(line) == Some(features) <==>
            exists words :: Offers(line, words) && features == Features("atomic" in words, "push-options" in words)
  {
    forall words | Offers(line, words)
      ensures ParseNegotiation(line) == Some(Features("atomic" in words, "push-options" in words))
    {
      if words == [] { NothingParses(line); } else { WordsParse(line, words); }
    }
    if ParseNegotiation(line).Some? {
      var words := ParsedOffers(line);
    }
  }

  // ---- What is answered

  /** The features the server takes up are those the client offered, in a fixed order. */
  ghost predicate TakesUp(payload: string, features: Features) {
    payload ==
      if features.pushOptions && features.atomic then "version=1" + ['\0'] + "push-options atomic"
      else if features.pushOptions then "version=1" + ['\0'] + "push-options"
      else if features.atomic then "version=1" + ['\0'] + "atomic"
      else "version=1"
  }

  /** What the server writes first is read as one line that takes up these features, and a flush. */
  ghost predicate Greets(written: string, features: Features) {
    ReadPktLine(written).Line? && TakesUp(ReadPktLine(written).payload, features) &&
    ReadPktLine(ReadPktLine(written).rest).Flush?
  }

  /** What follows the greeting. */
  ghost function AfterGreeting(written: string): string {
    if ReadPktLine(written).Line? && ReadPktLine(ReadPktLine(written).rest).Flush?
    then ReadPktLine(ReadPktLine(written).rest).rest else written
  }

  lemma JoinTwo(a: string, b: string)
    ensures Join([a, b], ' ') == a + " " + b
  {
    assert [a, b][1..] == [b];
  }

  lemma TakenUp(features: Features)
    ensures TakesUp(Taken(features), features) && |Taken(features)| <= 40
  {
    JoinTwo("push-options", "atomic");
    assert Accepted(features) ==
           if features.pushOptions && features.atomic then ["push-options", "atomic"]
           else if features.pushOptions then ["push-options"] else if features.atomic then ["atomic"] else [];
  }

  lemma GreetingGreets(features: Features, after: string)
    ensures Greets(Greeting(features) + after, features) && AfterGreeting(Greeting(features) + after) == after
  {
    TakenUp(features);
    assert Greeting(features) + after == FormatPktLine(Taken(features)) + (FLUSH + after);
    RoundTripExactly(Taken(features), FLUSH + after);
    ReadsFlush(after);
  }
}
