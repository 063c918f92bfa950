/** One proc-receive session of githooks(5): the push it reads, the calls it makes, and what it reports. */
module ProcReceive {
  import opened Wrappers
  import opened Text
  import opened RefTransaction
  import opened UpdateRef
  import opened PktLine
  import opened Negotiation

  // ---- The pushed commands

  predicate PlainLine(payload: string) { Free(payload, '\0') && Free(payload, '\r') && Free(payload, '\n') }

  /** The length of the object identifiers, told by the first command. */
  function DetectLength(lines: seq<string>): Option<nat> {
    if lines == [] then None else
    var fields := Split(lines[0], ' ');
    if |fields| != 3 || (|fields[0]| != 40 && |fields[0]| != 64) then None else Some(|fields[0]|)
  }

  // ---- What a session reads

  predicate Acceptable(payload: string, command: bool) { PlainLine(payload) && (command ==> payload != "") }

  predicate AllAcceptable(lines: seq<string>, commands: bool) {
    forall i :: 0 <= i < |lines| ==> Acceptable(lines[i], commands)
  }

  function ReadNegotiation(input: string): Option<(Features, string)> {
    var first := ReadPktLine(input);
    if !first.Line? || ParseNegotiation(first.payload).None? then None else
    var second := ReadPktLine(first.rest);
    if !second.Flush? then None else Some((ParseNegotiation(first.payload).value, second.rest))
  }

  /** The commands of the push and what follows them. */
  function ReadCommands(input: string): Option<(seq<Command>, string)> {
    var run := ReadLines(input);
    if run.None? || !AllAcceptable(run.value.0, true) then None else
    var oidLength := DetectLength(run.value.0);
    if oidLength.None? then None else
    var commands := Commands(run.value.0, oidLength.value);
    if commands.None? then None else Some((commands.value, run.value.1))
  }

  /** The whole request: negotiation, commands and, when they were offered, push options. */
  function ReadRequest(input: string): Option<(Features, seq<Command>)> {
    var negotiation := ReadNegotiation(input);
    if negotiation.None? then None else
    var (features, rest) := negotiation.value;
    var commands := ReadCommands(rest);
    if commands.None? then None else
    var options := ReadLines(commands.value.1);
    if features.pushOptions && (options.None? || !AllAcceptable(options.value.0, false)) then None
    else Some((features, commands.value.0))
  }

  /** Each command of a push came in a line of its own that fits. */
  ghost predicate Push(lines: seq<string>, oidLength: nat, commands: seq<Command>) {
    oidLength >= 40 && LinesParse(lines, oidLength, commands) && RefsApart(commands) && commands != [] &&
    forall i :: 0 <= i < |lines| ==> |lines[i]| <= MAX_LINE - 4
  }

  lemma {:induction false} LinesFit(input: string)
    requires ReadLines(input).Some?
    ensures forall i :: 0 <= i < |ReadLines(input).value.0| ==> |ReadLines(input).value.0[i]| <= MAX_LINE - 4
    decreases |input|
  {
    var first := ReadPktLine(input);
    if first.Line? {
      LinesFit(first.rest);
    }
  }

  lemma CommandsArePush(input: string) returns (lines: seq<string>, oidLength: nat)
    requires ReadCommands(input).Some?
    ensures Push(lines, oidLength, ReadCommands(input).value.0)
  {
    lines := ReadLines(input).value.0;
    oidLength := DetectLength(lines).value;
    LinesFit(input);
    ParseAllMeans(lines, oidLength, ReadCommands(input).value.0);
  }

  // ---- The report

  function Status(command: Command, accepted: bool): string {
    if accepted then "ok " + command.refName else "ng " + command.refName + " receive rejected"
  }

  function Statuses(commands: seq<Command>, accepted: bool): (statuses: seq<string>)
    ensures |statuses| == |commands|
    ensures forall i :: 0 <= i < |commands| ==> statuses[i] == Status(commands[i], accepted)
  {
    seq(|commands|, i requires 0 <= i < |commands| => Status(commands[i], accepted))
  }

  /** A status is shorter than the command it answers, so it fits whenever the command did. */
  lemma StatusFits(line: string, oidLength: nat, command: Command, accepted: bool)
    requires ParseLine(line, oidLength) == Some(command) && oidLength >= 40 && |line| <= MAX_LINE - 4
    ensures |Status(command, accepted)| < |line| && |Status(command, accepted)| <= MAX_PRINTED
  {
    ParsePrint(line, command, oidLength);
    assert |line| == oidLength + 1 + oidLength + 1 + |command.refName|;
    assert |" receive rejected"| == 17;
  }

  /** What is reported can be read back: one status for each command, in order, all of them alike. */
  lemma ReportIsRead(lines: seq<string>, oidLength: nat, commands: seq<Command>, accepted: bool, rest: string)
    requires Push(lines, oidLength, commands)
    ensures ReadLines(FormatLines(Statuses(commands, accepted)) + rest) == Some((Statuses(commands, accepted), rest))
  {
    forall i | 0 <= i < |commands| ensures |Statuses(commands, accepted)[i]| <= MAX_PRINTED {
      StatusFits(lines[i], oidLength, commands[i], accepted);
    }
    RunRoundTrip(Statuses(commands, accepted), rest);
  }

  // ---- The session

  datatype Call = PrepareCall(commands: seq<Command>) | FinalizeCall(commands: seq<Command>, committed: bool)

  /** How a session ends. Only the last three have made Git execute a transaction. */
  datatype End = Malformed | Refused | Uncompiled | NotApplied | Unresolved | Applied

  predicate Reports(end: End) { end.Refused? || end.Uncompiled? || end.NotApplied? || end.Applied? }

  function Report(end: End, commands: seq<Command>): string {
    if Reports(end) then FormatLines(Statuses(commands, end.Applied?)) else ""
  }

  /** The rest of what was written is one line for each command, in order, and a flush: "ok" and the ref when the
      push went through, "ng" and the ref when it did not. */
  ghost predicate Lists(after: string, commands: seq<Command>, done: bool) {
    ReadLines(after).Some? && ReadLines(after).value.1 == "" &&
    var lines := ReadLines(after).value.0;
    |lines| == |commands| && forall i :: 0 <= i < |lines| ==>
      lines[i] == if done then "ok " + commands[i].refName else "ng " + commands[i].refName + " receive rejected"
  }

  ghost predicate GreetsOffer(written: string, words: seq<string>) {
    Greets(written, Features("atomic" in words, "push-options" in words))
  }

  /** What the client reads: which of its features are taken up, and, if it is told at all, what became of each
      command. */
  ghost predicate Tells(input: string, written: string, commands: seq<Command>, done: Option<bool>) {
    ReadPktLine(input).Line? &&
    (exists words :: Offers(ReadPktLine(input).payload, words) && GreetsOffer(written, words)) &&
    if done.None? then AfterGreeting(written) == "" else Lists(AfterGreeting(written), commands, done.value)
  }

  /** These lines were read from the input, and this is what remains of it. */
  ghost predicate ReadSoFar(input: string, lines: seq<string>, rest: string) {
    match ReadLines(rest)
    case None => ReadLines(input).None?
    case Some((more, end)) => ReadLines(input) == Some((lines + more, end))
  }

  lemma ReadSoFarStarts(input: string)
    ensures ReadSoFar(input, [], input)
  {
    if ReadLines(input).Some? { assert [] + ReadLines(input).value.0 == ReadLines(input).value.0; }
  }

  lemma ReadSoFarNext(input: string, lines: seq<string>, before: string, payload: string, rest: string)
    requires ReadSoFar(input, lines, before) && ReadPktLine(before) == Line(payload, rest)
    ensures ReadSoFar(input, lines + [payload], rest)
  {
    if ReadLines(rest).Some? {
      assert lines + [payload] + ReadLines(rest).value.0 == lines + ([payload] + ReadLines(rest).value.0);
    }
  }

  lemma NotAcceptable(input: string, lines: seq<string>, payload: string, rest: string, commands: bool)
    requires ReadSoFar(input, lines + [payload], rest) && !Acceptable(payload, commands)
    ensures ReadLines(input).None? || !AllAcceptable(ReadLines(input).value.0, commands)
  {
    if ReadLines(input).Some? {
      assert (lines + [payload] + ReadLines(rest).value.0)[|lines|] == payload;
    }
  }

  class Session {
    const reader: Reader
    var output: string
    var refs: Refs
    var calls: seq<Call>

    constructor (reader: Reader, refs: Refs)
      ensures this.reader == reader && output == "" && this.refs == refs && calls == []
    {
      this.reader := reader;
      output, this.refs, calls := "", refs, [];
    }

    method WriteResults(commands: seq<Command>, accepted: bool)
      modifies this`output
      ensures output == old(output) + FormatLines(Statuses(commands, accepted))
    {
      var statuses := Statuses(commands, accepted);
      for n := 0 to |commands|
        invariant output + FormatLines(statuses[n..]) == old(output) + FormatLines(statuses)
      {
        assert statuses[n..][1..] == statuses[n + 1..];
        var status := if accepted then "ok " + commands[n].refName
            else "ng " + commands[n].refName + " receive rejected";
        assert output + (FormatPktLine(statuses[n]) + FormatLines(statuses[n + 1..])) ==
               output + FormatPktLine(statuses[n]) + FormatLines(statuses[n + 1..]);
        output := output + FormatPktLine(status);
      }
      output := output + FLUSH;
    }

    /** Reads the lines up to the next flush, and gives up at the first that is not acceptable. */
    method ReadRun(commands: bool) returns (ok: bool, lines: seq<string>)
      modifies reader
      ensures ok <==> ReadLines(old(reader.rest)).Some? && AllAcceptable(ReadLines(old(reader.rest)).value.0, commands)
      ensures ok ==> ReadLines(old(reader.rest)) == Some((lines, reader.rest))
      ensures ok ==> forall i :: 0 <= i < |lines| ==> |lines[i]| <= MAX_LINE - 4
    {
      lines := [];
      ReadSoFarStarts(reader.rest);
      while true
        invariant AllAcceptable(lines, commands) && forall i :: 0 <= i < |lines| ==> |lines[i]| <= MAX_LINE - 4
        invariant ReadSoFar(old(reader.rest), lines, reader.rest)
        decreases |reader.rest|
      {
        ghost var before := reader.rest;
        var read, flush, payload := reader.ReadLine();
        if !read {
          return false, lines;
        }
        if flush {
          assert lines + [] == lines;
          return true, lines;
        }
        ReadSoFarNext(old(reader.rest), lines, before, payload, reader.rest);
        if (commands && payload == "") || '\0' in payload || '\r' in payload || '\n' in payload {
          NotAcceptable(old(reader.rest), lines, payload, reader.rest, commands);
          return false, lines;
        }
        lines := lines + [payload];
      }
    }

    method Negotiate() returns (features: Option<Features>)
      modifies this`output, reader
      ensures features.Some? <==> ReadNegotiation(old(reader.rest)).Some?
      ensures features.Some? ==>
              ReadNegotiation(old(reader.rest)) == Some((features.value, reader.rest)) &&
              output == old(output) + Greeting(features.value)
      ensures features.None? ==> output == old(output)
    {
      var ok, flush, line := reader.ReadLine();
      if !ok || flush {
        return None;
      }
      features := ParseNegotiation(line);
      if features.None? {
        return None;
      }
      ok, flush, line := reader.ReadLine();
      if !ok || !flush {
        return None;
      }
      output := output + Greeting(features.value);
    }

    /** Reads the request up to the point where the push may be prepared. */
    method ReadPush() returns (request: Option<(Features, seq<Command>)>)
      modifies this`output, reader
      ensures request == ReadRequest(old(reader.rest))
      ensures request.Some? ==> output == old(output) + Greeting(request.value.0)
      ensures request.None? ==> output == old(output) || exists features :: output == old(output) + Greeting(features)
    {
      var features := Negotiate();
      if features.None? {
        return None;
      }
      var ok, lines := ReadRun(true);
      if !ok {
        return None;
      }
      var oidLength := DetectLength(lines);
      if oidLength.None? {
        return None;
      }
      var commands := ParseReceiveCommands(lines, oidLength.value);
      if commands.None? {
        return None;
      }
      if features.value.pushOptions {
        ok, lines := ReadRun(false);
        if !ok {
          return None;
        }
      }
      request := Some((features.value, commands.value));
    }

    /** Compiles the push, has Git execute it, and tells the lifecycle how that ended. */
    method Transact(commands: seq<Command>, accepts: bool) returns (compiled: bool, committed: bool)
      requires exists lines, oidLength :: Push(lines, oidLength, commands)
      modifies this`refs, this`calls
      ensures compiled <==> CanCompile(commands)
      ensures !compiled ==> refs == old(refs) && calls == old(calls)
      ensures compiled ==>
              (committed <==> accepts && AllExpected(old(refs), commands)) &&
              calls == old(calls) + [FinalizeCall(commands, committed)]
      ensures compiled ==> if committed then AllSwapped(old(refs), refs, commands) else refs == old(refs)
    {
      var text := BuildUpdateRefTransaction(commands);
      if text.None? {
        return false, false;
      }
      PushMeaning(refs, commands, accepts);
      var (after, done) := UpdateRefStdin(refs, text.value, accepts);
      refs := after;
      calls := calls + [FinalizeCall(commands, done)];
      return true, done;
    }

    /** Drives a push that was read through the lifecycle and Git, and reports how that ended. */
    method Decide(commands: seq<Command>, prepares: bool, accepts: bool, finalizes: bool) returns (end: End)
      requires exists lines, oidLength :: Push(lines, oidLength, commands)
      modifies this
      ensures !end.Malformed? && Ended(end, commands, old(refs), refs, prepares, accepts, finalizes)
      ensures calls == old(calls) + [PrepareCall(commands)] +
              if prepares && Changing(commands)
              then [FinalizeCall(commands, accepts && AllExpected(old(refs), commands))] else []
      ensures output == old(output) + Report(end, commands)
    {
      PushCompiles(commands);
      calls := calls + [PrepareCall(commands)];
      if !prepares {
        WriteResults(commands, false);
        return Refused;
      }
      var compiled, committed := Transact(commands, accepts);
      if !compiled {
        WriteResults(commands, false);
        return Uncompiled;
      }
      if !finalizes {
        assert output + "" == output;
        return Unresolved;
      }
      WriteResults(commands, committed);
      end := if committed then Applied else NotApplied;
    }

    /** Runs the session. The lifecycle is told how the transaction ended exactly when one was executed. `prepares`
        and `finalizes` are the answers of the lifecycle it drives, and `accepts` says whether Git has no reason of
        its own to refuse the transaction. */
    method Run(prepares: bool, accepts: bool, finalizes: bool) returns (end: End, commands: seq<Command>)
      modifies this, reader
      ensures end.Malformed? <==> ReadRequest(old(reader.rest)).None?
      ensures end.Malformed? ==>
              refs == old(refs) && calls == old(calls) &&
              (output == old(output) || exists features :: output == old(output) + Greeting(features))
      ensures !end.Malformed? ==>
        commands == ReadRequest(old(reader.rest)).value.1 &&
        Ended(end, commands, old(refs), refs, prepares, accepts, finalizes) &&
        calls == old(calls) + [PrepareCall(commands)] + (
          if prepares && Changing(commands) then [FinalizeCall(commands, accepts && AllExpected(old(refs), commands))]
          else []) &&
        output == old(output) + Greeting(ReadRequest(old(reader.rest)).value.0) + Report(end, commands)
      ensures !end.Malformed? ==>
        old(output) <= output &&
        Tells(old(reader.rest), output[|old(output)|..], commands,
              if end.Unresolved? then None
              else Some(prepares && Changing(commands) && accepts && AllExpected(old(refs), commands) && finalizes))
    {
      var request := ReadPush();
      if request.None? {
        return Malformed, [];
      }
      commands := request.value.1;
      RequestIsPush(old(reader.rest));
      end := Decide(commands, prepares, accepts, finalizes);
      RunTells(old(reader.rest), old(output), output, request.value.0, commands, end, old(refs), refs, prepares,
          accepts, finalizes);
    }
  }

  lemma RequestIsPush(input: string)
    requires ReadRequest(input).Some?
    ensures exists lines, oidLength :: Push(lines, oidLength, ReadRequest(input).value.1)
  {
    var lines, oidLength := CommandsArePush(ReadNegotiation(input).value.1);
  }

  lemma PushMeaning(refs: Refs, commands: seq<Command>, accepts: bool)
    requires CanCompile(commands) && exists lines, oidLength :: Push(lines, oidLength, commands)
    ensures var (after, committed) := UpdateRefStdin(refs, TransactionText(commands), accepts);
            (committed <==> accepts && AllExpected(refs, commands)) &&
                (committed ==> AllSwapped(refs, after, commands)) && (!committed ==> after == refs)
  {
    var lines, oidLength :| Push(lines, oidLength, commands);
    forall i | 0 <= i < |commands| ensures Effective(commands[i], oidLength) {
      assert ParseLine(lines[i], oidLength) == Some(commands[i]);
    }
    CompiledMeaning(refs, commands, oidLength, accepts);
  }

  /** Every command changes something. */
  ghost predicate Changing(commands: seq<Command>) {
    forall i :: 0 <= i < |commands| ==> !(AllZeroText(commands[i].oldObject) && AllZeroText(commands[i].newObject))
  }

  lemma PushCompiles(commands: seq<Command>)
    requires exists lines, oidLength :: Push(lines, oidLength, commands)
    ensures CanCompile(commands) <==> Changing(commands)
  {
    var lines, oidLength :| Push(lines, oidLength, commands);
    forall i | 0 <= i < |commands| ensures ValidCommand(commands[i], oidLength) {
      assert ParseLine(lines[i], oidLength) == Some(commands[i]);
    }
    ParsedCompiles(commands, oidLength);
  }

  /** How a session ends, and with which refs: they all move, in a transaction that found every expected
      value, or none does; success is reported only after that and after the lifecycle was told. */
  ghost predicate Ended(end: End, commands: seq<Command>, before: Refs, after: Refs, prepares: bool, accepts: bool,
          finalizes: bool)
  {
    (end.Refused? <==> !prepares) && (end.Uncompiled? <==> prepares && !Changing(commands)) &&
    (end.Unresolved? <==> prepares && Changing(commands) && !finalizes) &&
    (end.Applied? <==> prepares && Changing(commands) && finalizes && accepts && AllExpected(before, commands)) &&
    (if end.Applied? || (end.Unresolved? && accepts && AllExpected(before, commands)) then
        AllSwapped(before, after, commands) else after == before)
  }

  /** A session that prepared but did not compile never tells the lifecycle, and so leaves the Plugin's
      effect lock to the end of its process. It happens exactly when the push, although it parsed, holds a
      command with two absent values, which Git never sends. */
  lemma UncompiledExactly(input: string)
    requires ReadRequest(input).Some?
    ensures var commands := ReadRequest(input).value.1;
            !CanCompile(commands) <==> exists i ::
                0 <= i < |commands| && AllZeroText(commands[i].oldObject) && AllZeroText(commands[i].newObject)
  {
    RequestIsPush(input);
    PushCompiles(ReadRequest(input).value.1);
  }

  /** Whatever a session reports is one status for each command of the push, in order, all of them alike,
      and reads back as such. */
  lemma ReportReadsBack(input: string, end: End, rest: string)
    requires ReadRequest(input).Some? && Reports(end)
    ensures var commands := ReadRequest(input).value.1;
            ReadLines(Report(end, commands) + rest) == Some((Statuses(commands, end.Applied?), rest))
  {
    RequestIsPush(input);
    var commands := ReadRequest(input).value.1;
    var lines, oidLength :| Push(lines, oidLength, commands);
    ReportIsRead(lines, oidLength, commands, end.Applied?, rest);
  }

  lemma ReportLists(input: string, commands: seq<Command>, end: End)
    requires ReadRequest(input).Some? && commands == ReadRequest(input).value.1 && Reports(end)
    ensures Lists(Report(end, commands), commands, end.Applied?)
  {
    ReportReadsBack(input, end, "");
    assert Report(end, commands) + "" == Report(end, commands);
    ListsStatuses(Report(end, commands), commands, end.Applied?);
  }

  lemma ListsStatuses(after: string, commands: seq<Command>, done: bool)
    requires ReadLines(after) == Some((Statuses(commands, done), ""))
    ensures Lists(after, commands, done)
  {
    var lines := ReadLines(after).value.0;
    forall i | 0 <= i < |lines|
      ensures lines[i] ==
              if done then "ok " + commands[i].refName else "ng " + commands[i].refName + " receive rejected"
    {
      assert lines[i] == Statuses(commands, done)[i] == Status(commands[i], done);
    }
  }

  lemma RequestOffers(input: string, features: Features) returns (words: seq<string>)
    requires ReadRequest(input).Some? && features == ReadRequest(input).value.0
    ensures ReadPktLine(input).Line? && Offers(ReadPktLine(input).payload, words) &&
            features == Features("atomic" in words, "push-options" in words)
  {
    var line := ReadPktLine(input).payload;
    NegotiationMeans(line, features);
    words :| Offers(line, words) && features == Features("atomic" in words, "push-options" in words);
  }

  /** What a session has written tells the client how it ended. */
  lemma WritingTells(input: string, features: Features, commands: seq<Command>, end: End)
    requires ReadRequest(input) == Some((features, commands)) && (Reports(end) || end.Unresolved?)
    ensures Tells(input, Greeting(features) + Report(end, commands), commands,
                  if end.Unresolved? then None else Some(end.Applied?))
  {
    var words := RequestOffers(input, features);
    var after := Report(end, commands);
    GreetingGreets(features, after);
    if Reports(end) { ReportLists(input, commands, end); }
    assert GreetsOffer(Greeting(features) + after, words);
  }

  /** What is written in a run tells the client whether everything went well, in terms of what was answered. */
  lemma RunTells(input: string, before: string, output: string, features: Features, commands: seq<Command>, end: End,
          refs: Refs, after: Refs, prepares: bool, accepts: bool, finalizes: bool)
    requires ReadRequest(input) == Some((features, commands)) && !end.Malformed?
    requires Ended(end, commands, refs, after, prepares, accepts, finalizes)
    requires output == before + Greeting(features) + Report(end, commands)
    ensures before <= output
    ensures Tells(input, output[|before|..], commands,
                  if end.Unresolved? then None
                  else Some(prepares && Changing(commands) && accepts && AllExpected(refs, commands) && finalizes))
  {
    EndTold(end, commands, refs, after, prepares, accepts, finalizes);
    WritingTells(input, features, commands, end);
    Written(before, Greeting(features), Report(end, commands), output);
  }

  lemma Written(before: string, first: string, second: string, output: string)
    requires output == before + first + second
    ensures before <= output && output[|before|..] == first + second
  {
  }

  lemma EndTold(end: End, commands: seq<Command>, refs: Refs, after: Refs, prepares: bool, accepts: bool,
          finalizes: bool)
    requires Ended(end, commands, refs, after, prepares, accepts, finalizes) && !end.Malformed?
    ensures Reports(end) || end.Unresolved?
    ensures end.Applied? <==> prepares && Changing(commands) && accepts && AllExpected(refs, commands) && finalizes
  {
  }

  // ---- A client that speaks the protocol

  lemma Negotiates(line: string, features: Features, rest: string)
    requires ParseNegotiation(line) == Some(features) && |line| <= MAX_PRINTED
    ensures ReadNegotiation(FormatPktLine(line) + (FLUSH + rest)) == Some((features, rest))
  {
    RoundTripExactly(line, FLUSH + rest);
    ReadsFlush(rest);
  }

  function PrintLines(commands: seq<Command>): (lines: seq<string>)
    ensures |lines| == |commands| && forall i :: 0 <= i < |lines| ==> lines[i] == PrintLine(commands[i])
  {
    seq(|commands|, i requires 0 <= i < |commands| => PrintLine(commands[i]))
  }

  /** A push of valid commands on different refs, each of which fits in a line. */
  ghost predicate Sendable(commands: seq<Command>, oidLength: nat) {
    (oidLength == 40 || oidLength == 64) && commands != [] && RefsApart(commands) &&
    forall i :: 0 <= i < |commands| ==>
      ValidCommand(commands[i], oidLength) && |PrintLine(commands[i])| <= MAX_PRINTED
  }

  lemma PrintedIsPlain(command: Command, oidLength: nat)
    requires ValidCommand(command, oidLength) && oidLength > 0
    ensures Acceptable(PrintLine(command), true)
    ensures Split(PrintLine(command), ' ') == [command.oldObject, command.newObject, command.refName]
  {
    HexIsWord(command.oldObject, oidLength);
    HexIsWord(command.newObject, oidLength);
    ThreeWords(command.oldObject, command.newObject, command.refName);
  }

  lemma CommandsAreRead(commands: seq<Command>, oidLength: nat, rest: string)
    requires Sendable(commands, oidLength)
    ensures ReadCommands(FormatLines(PrintLines(commands)) + rest) == Some((commands, rest))
  {
    var lines := PrintLines(commands);
    RunRoundTrip(lines, rest);
    forall i | 0 <= i < |commands|
      ensures Acceptable(lines[i], true) && ParseLine(lines[i], oidLength) == Some(commands[i])
    {
      PrintedIsPlain(commands[i], oidLength);
      ParsePrint(lines[i], commands[i], oidLength);
    }
    PrintedIsPlain(commands[0], oidLength);
    ParseAllMeans(lines, oidLength, commands);
  }

  /** What a client sends: what it offers, the commands of its push and, when it offered them, push options. */
  function RequestText(line: string, commands: seq<Command>, options: Option<seq<string>>): string {
    FormatPktLine(line) + (FLUSH +
    (FormatLines(PrintLines(commands)) + if options.Some? then FormatLines(options.value) else ""))
  }

  lemma RequestIsRead(line: string, features: Features, commands: seq<Command>, oidLength: nat,
          options: Option<seq<string>>)
    requires ParseNegotiation(line) == Some(features) && |line| <= MAX_PRINTED && Sendable(commands, oidLength)
    requires features.pushOptions <==> options.Some?
    requires options.Some? ==>
             forall i :: 0 <= i < |options.value| ==> PlainLine(options.value[i]) && |options.value[i]| <= MAX_PRINTED
    ensures ReadRequest(RequestText(line, commands, options)) == Some((features, commands))
  {
    var last := if options.Some? then FormatLines(options.value) else "";
    Negotiates(line, features, FormatLines(PrintLines(commands)) + last);
    CommandsAreRead(commands, oidLength, last);
    if options.Some? {
      RunRoundTrip(options.value, "");
      assert last + "" == last;
    }
  }

  /** Whatever a client offers and pushes, the server reads it as it was sent. */
  lemma ClientIsUnderstood(line: string, words: seq<string>, commands: seq<Command>, oidLength: nat,
          options: Option<seq<string>>)
    requires Offers(line, words) && |line| <= MAX_PRINTED && Sendable(commands, oidLength)
    requires "push-options" in words <==> options.Some?
    requires options.Some? ==>
             forall i :: 0 <= i < |options.value| ==> PlainLine(options.value[i]) && |options.value[i]| <= MAX_PRINTED
    ensures ReadRequest(RequestText(line, commands, options)) ==
            Some((Features("atomic" in words, "push-options" in words), commands))
  {
    var features := Features("atomic" in words, "push-options" in words);
    NegotiationMeans(line, features);
    RequestIsRead(line, features, commands, oidLength, options);
  }

  // ---- Which requests are read

  /** The lines are one valid command each, on different refs, all with identifiers of one of the two lengths. */
  ghost predicate CommandLines(lines: seq<string>, oidLength: nat, commands: seq<Command>) {
    (oidLength == 40 || oidLength == 64) && commands != [] && LinesParse(lines, oidLength, commands) &&
    RefsApart(commands)
  }

  /** The input is an offer, a flush, the commands of a push and, when they were offered, plain push options. */
  ghost predicate Requested(input: string, words: seq<string>, oidLength: nat, commands: seq<Command>) {
    var first := ReadPktLine(input);
    first.Line? && Offers(first.payload, words) &&
    var second := ReadPktLine(first.rest);
    second.Flush? && ReadLines(second.rest).Some? &&
    CommandLines(ReadLines(second.rest).value.0, oidLength, commands) &&
    ("push-options" in words ==>
      var options := ReadLines(ReadLines(second.rest).value.1);
      options.Some? && forall i :: 0 <= i < |options.value.0| ==> PlainLine(options.value.0[i]))
  }

  lemma CommandLinesRead(input: string, oidLength: nat, commands: seq<Command>)
    requires ReadLines(input).Some? && CommandLines(ReadLines(input).value.0, oidLength, commands)
    ensures ReadCommands(input) == Some((commands, ReadLines(input).value.1))
  {
    var lines := ReadLines(input).value.0;
    forall i | 0 <= i < |lines| ensures Acceptable(lines[i], true) && lines[i] == PrintLine(commands[i]) {
      ParsePrint(lines[i], commands[i], oidLength);
      PrintedIsPlain(commands[i], oidLength);
    }
    ParsePrint(lines[0], commands[0], oidLength);
    PrintedIsPlain(commands[0], oidLength);
    ParseAllMeans(lines, oidLength, commands);
  }

  lemma ReadCommandLines(input: string) returns (oidLength: nat)
    requires ReadCommands(input).Some?
    ensures ReadLines(input).Some? && ReadCommands(input).value.1 == ReadLines(input).value.1
    ensures CommandLines(ReadLines(input).value.0, oidLength, ReadCommands(input).value.0)
  {
    var lines := ReadLines(input).value.0;
    oidLength := DetectLength(lines).value;
    ParseAllMeans(lines, oidLength, ReadCommands(input).value.0);
  }

  lemma RequestedIsRead(input: string, words: seq<string>, oidLength: nat, commands: seq<Command>)
    requires Requested(input, words, oidLength, commands)
    ensures ReadRequest(input) == Some((Features("atomic" in words, "push-options" in words), commands))
  {
    var first := ReadPktLine(input);
    NegotiationMeans(first.payload, Features("atomic" in words, "push-options" in words));
    CommandLinesRead(ReadPktLine(first.rest).rest, oidLength, commands);
  }

  lemma ReadIsRequested(input: string) returns (words: seq<string>, oidLength: nat)
    requires ReadRequest(input).Some?
    ensures Requested(input, words, oidLength, ReadRequest(input).value.1)
    ensures ReadRequest(input).value.0 == Features("atomic" in words, "push-options" in words)
  {
    words := RequestOffers(input, ReadRequest(input).value.0);
    oidLength := ReadCommandLines(ReadPktLine(ReadPktLine(input).rest).rest);
  }

  /** A session goes on exactly when its input is such a request, and with what that request says. */
  lemma RequestExactly(input: string, features: Features, commands: seq<Command>)
    ensures ReadRequest(input) == Some((features, commands)) <==>
            exists words, oidLength ::
              (Requested(input, words, oidLength, commands) &&
               features == Features("atomic" in words, "push-options" in words))
  {
    if ReadRequest(input) == Some((features, commands)) {
      var words, oidLength := ReadIsRequested(input);
    }
    if words, oidLength :|
        (Requested(input, words, oidLength, commands) &&
         features == Features("atomic" in words, "push-options" in words)) {
      RequestedIsRead(input, words, oidLength, commands);
    }
  }

  // ---- A push that prepares and does not compile

  const ABSENT: string := seq(40, _ => '0')

  lemma AbsentIsZero()
    ensures ValidObjectId(ABSENT, 40) && AllZeroText(ABSENT)
  {
  }

  /** A client that offers nothing and pushes one command. */
  function RequestOf(command: Command): string { RequestText("version=1", [command], None) }

  /** Such a push parses for every valid ref, so the session prepares it, but it never compiles. */
  lemma NothingPushed(refName: string)
    requires ValidRefName(refName) && |refName| <= MAX_PRINTED - 82
    ensures var command := Command(ABSENT, ABSENT, refName);
            ReadRequest(RequestOf(command)) == Some((Features(false, false), [command])) && !CanCompile([command])
  {
    var commands := [Command(ABSENT, ABSENT, refName)];
    AbsentIsZero();
    assert Offers("version=1", []);
    NothingParses("version=1");
    RequestIsRead("version=1", Features(false, false), commands, 40, None);
    assert !Compilable(commands[0]);
  }

  /** One such push. */
  lemma UncompiledHappens()
    ensures var request := ReadRequest(RequestOf(Command(ABSENT, ABSENT, "refs/heads/main")));
            request.Some? && !CanCompile(request.value.1)
  {
    var refName := "refs/heads/main";
    assert refName[..11] == "refs/heads/";
    NothingPushed(refName);
  }
}
