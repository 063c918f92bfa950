/** The pushed commands, the text they are compiled to for git update-ref(1), and what that text means. */
module RefTransaction {
  import opened Wrappers
  import opened Text

  type Refs = map<string, string>

  datatype Command = Command(oldObject: string, newObject: string, refName: string)

  predicate AllZeroText(oid: string) { oid != "" && forall c | c in oid :: c == '0' }

  predicate HexLower(c: char) { '0' <= c <= '9' || 'a' <= c <= 'f' }

  predicate ValidObjectId(oid: string, length: nat) { |oid| == length && forall c | c in oid :: HexLower(c) }

  predicate HasPrefix(s: string, prefix: string) { prefix <= s }

  predicate ValidRefName(refName: string) {
    (HasPrefix(refName, "refs/heads/") || HasPrefix(refName, "refs/tags/")) &&
    Free(refName, ' ') && Free(refName, '\t') && Free(refName, '\r') && Free(refName, '\n') && Free(refName, '\0')
  }

  // ---- Parsing the pushed commands

  predicate ValidCommand(command: Command, oidLength: nat) {
    ValidObjectId(command.oldObject, oidLength) && ValidObjectId(command.newObject, oidLength) &&
        ValidRefName(command.refName)
  }

  function ParseLine(line: string, oidLength: nat): Option<Command> {
    var fields := Split(line, ' ');
    if |fields| != 3 || fields[0] == "" || fields[1] == "" || fields[2] == "" then None else
    var command := Command(fields[0], fields[1], fields[2]);
    if ValidCommand(command, oidLength) then Some(command) else None
  }

  function PrintLine(command: Command): string { command.oldObject + " " + command.newObject + " " + command.refName }

  predicate RefsApart(commands: seq<Command>) {
    forall i, j :: 0 <= i < j < |commands| ==> commands[i].refName != commands[j].refName
  }

  lemma HexIsWord(oid: string, length: nat)
    requires ValidObjectId(oid, length)
    ensures Free(oid, ' ') && Free(oid, '\n') && Free(oid, '\0') && Free(oid, '\r')
  {
    forall c | c in oid ensures c != ' ' && c != '\n' && c != '\0' && c != '\r' {
      assert HexLower(c);
    }
  }

  lemma ThreeWords(a: string, b: string, c: string)
    requires Free(a, ' ') && Free(b, ' ') && Free(c, ' ')
    ensures Split(a + " " + b + " " + c, ' ') == [a, b, c]
  {
    assert a + " " + b + " " + c == a + [' '] + (b + [' '] + c);
    SplitFirst(a, ' ', b + [' '] + c);
    SplitFirst(b, ' ', c);
    SplitNone(c, ' ');
  }

  lemma JoinThree(fields: seq<string>, separator: char)
    requires |fields| == 3
    ensures Join(fields, separator) == fields[0] + [separator] + (fields[1] + [separator] + fields[2])
  {
    assert fields[1..] == [fields[1], fields[2]] && fields[1..][1..] == [fields[2]];
    assert Join(fields[1..], separator) == fields[1] + [separator] + Join([fields[2]], separator);
  }

  /** Parsing accepts exactly the printed form of a valid command. */
  lemma ParsePrint(line: string, command: Command, oidLength: nat)
    requires oidLength > 0
    ensures ParseLine(line, oidLength) == Some(command) <==>
            ValidCommand(command, oidLength) && line == PrintLine(command)
  {
    if ParseLine(line, oidLength) == Some(command) {
      var fields := Split(line, ' ');
      SplitJoins(line, ' ');
      JoinThree(fields, ' ');
      assert PrintLine(command) == fields[0] + [' '] + (fields[1] + [' '] + fields[2]);
    }
    if ValidCommand(command, oidLength) && line == PrintLine(command) {
      HexIsWord(command.oldObject, oidLength);
      HexIsWord(command.newObject, oidLength);
      ThreeWords(command.oldObject, command.newObject, command.refName);
      assert |command.refName| > 0;
    }
  }

  predicate LinesParse(lines: seq<string>, oidLength: nat, commands: seq<Command>) {
    |commands| == |lines| && forall i :: 0 <= i < |lines| ==> ParseLine(lines[i], oidLength) == Some(commands[i])
  }

  function ParseAll(lines: seq<string>, oidLength: nat): Option<seq<Command>> {
    if lines == [] then Some([]) else
    match ParseLine(lines[0], oidLength)
    case None => None
    case Some(first) =>
      match ParseAll(lines[1..], oidLength)
      case None => None
      case Some(rest) => Some([first] + rest)
  }

  lemma {:induction false} ParseAllMeans(lines: seq<string>, oidLength: nat, commands: seq<Command>)
    ensures ParseAll(lines, oidLength) == Some(commands) <==> LinesParse(lines, oidLength, commands)
    decreases |lines|
  {
    if lines != [] && commands != [] {
      ParseAllMeans(lines[1..], oidLength, commands[1..]);
      assert commands == [commands[0]] + commands[1..];
      if LinesParse(lines[1..], oidLength, commands[1..]) && ParseLine(lines[0], oidLength) == Some(commands[0]) {
        forall i | 0 <= i < |lines| ensures ParseLine(lines[i], oidLength) == Some(commands[i]) {
          if i > 0 { assert lines[1..][i - 1] == lines[i] && commands[1..][i - 1] == commands[i]; }
        }
      }
      if LinesParse(lines, oidLength, commands) {
        forall i | 0 <= i < |lines[1..]| ensures ParseLine(lines[1..][i], oidLength) == Some(commands[1..][i]) {
          assert lines[1..][i] == lines[i + 1] && commands[1..][i] == commands[i + 1];
        }
      }
    }
  }

  /** The commands of a push: at least one, each well formed, no ref twice. */
  function Commands(lines: seq<string>, oidLength: nat): Option<seq<Command>> {
    match ParseAll(lines, oidLength)
    case None => None
    case Some(commands) => if commands != [] && RefsApart(commands) then Some(commands) else None
  }

  /** Reads a push: at least one command, each well formed, no ref twice. */
  method ParseReceiveCommands(lines: seq<string>, oidLength: nat) returns (parsed: Option<seq<Command>>)
    ensures parsed == Commands(lines, oidLength)
  {
    var commands := [];
    ghost var all := ParseAll(lines, oidLength);
    if all.Some? { ParseAllMeans(lines, oidLength, all.value); }
    var seen: set<string> := {};
    for n := 0 to |lines|
      invariant LinesParse(lines[..n], oidLength, commands) && RefsApart(commands)
      invariant forall name :: name in seen <==> exists i :: 0 <= i < n && commands[i].refName == name
    {
      var command := ParseLine(lines[n], oidLength);
      if command.None? {
        return None;
      }
      if command.value.refName in seen {
        var i :| 0 <= i < n && commands[i].refName == command.value.refName;
        assert ParseLine(lines[i], oidLength) == Some(commands[i]);
        return None;
      }
      seen := seen + {command.value.refName};
      commands := commands + [command.value];
    }
    assert lines[..|lines|] == lines;
    ParseAllMeans(lines, oidLength, commands);
    parsed := if commands == [] then None else Some(commands);
  }

  // ---- Compiling a transaction

  predicate Compilable(command: Command) {
    ValidRefName(command.refName) && command.oldObject != "" && command.newObject != "" &&
    |command.oldObject| == |command.newObject| && !(AllZeroText(command.newObject) && AllZeroText(command.oldObject))
  }

  function Instruction(command: Command): string {
    if AllZeroText(command.newObject) then "delete " + command.refName + " " + command.oldObject
    else "update " + command.refName + " " + command.newObject + " " + command.oldObject
  }

  function Instructions(commands: seq<Command>): (lines: seq<string>)
    ensures |lines| == |commands|
    ensures forall i :: 0 <= i < |commands| ==> lines[i] == Instruction(commands[i])
  {
    seq(|commands|, i requires 0 <= i < |commands| => Instruction(commands[i]))
  }

  function TransactionText(commands: seq<Command>): string {
    Unlines(["start"] + Instructions(commands) + ["prepare", "commit"])
  }

  function StartedText(commands: seq<Command>): string { Unlines(["start"] + Instructions(commands)) }

  lemma NextInstruction(commands: seq<Command>, n: nat)
    requires n < |commands|
    ensures StartedText(commands[..n + 1]) == StartedText(commands[..n]) + Instruction(commands[n]) + "\n"
  {
    UnlinesAppend(["start"] + Instructions(commands[..n]), [Instruction(commands[n])]);
    assert ["start"] + Instructions(commands[..n + 1]) ==
           ["start"] + Instructions(commands[..n]) + [Instruction(commands[n])];
    assert [Instruction(commands[n])][1..] == [];
    assert Unlines([Instruction(commands[n])]) == Instruction(commands[n]) + "\n";
  }

  lemma TextEnds(commands: seq<Command>)
    ensures TransactionText(commands) == StartedText(commands) + "prepare\ncommit\n"
  {
    UnlinesAppend(["start"] + Instructions(commands), ["prepare", "commit"]);
    EndLines();
  }

  lemma TextStarts()
    ensures StartedText([]) == "start\n"
  {
    assert ["start"] + Instructions([]) == ["start"] && ["start"][1..] == [];
    assert "start" + "\n" + "" == "start\n";
  }

  predicate CanCompile(commands: seq<Command>) {
    RefsApart(commands) && forall i :: 0 <= i < |commands| ==> Compilable(commands[i])
  }

  method CompileOne(command: Command) returns (line: Option<string>)
    ensures line == if Compilable(command) then Some(Instruction(command)) else None
  {
    if !ValidRefName(command.refName) || command.oldObject == "" || command.newObject == "" ||
        |command.oldObject| != |command.newObject| {
      return None;
    }
    if AllZeroText(command.newObject) {
      if AllZeroText(command.oldObject) {
        return None;
      }
      return Some("delete " + command.refName + " " + command.oldObject);
    }
    line := Some("update " + command.refName + " " + command.newObject + " " + command.oldObject);
  }

  /** The checks made for the first commands have passed, and these are their refs. */
  ghost predicate Checked(commands: seq<Command>, n: nat, seen: set<string>)
    requires n <= |commands|
  {
    CanCompile(commands[..n]) && seen == set i | 0 <= i < n :: commands[i].refName
  }

  lemma ChecksNext(commands: seq<Command>, n: nat, seen: set<string>)
    requires n < |commands| && Checked(commands, n, seen)
    ensures Compilable(commands[n]) && commands[n].refName !in seen ==>
            Checked(commands, n + 1, seen + {commands[n].refName})
    ensures !Compilable(commands[n]) || commands[n].refName in seen ==> !CanCompile(commands)
  {
    var more := commands[..n + 1];
    assert forall i :: 0 <= i < n ==> more[i] == commands[..n][i];
    if commands[n].refName !in seen {
      assert forall i :: 0 <= i < n ==> commands[i].refName != commands[n].refName;
    }
  }

  /** Compiles a push to one transaction, unless it is empty, repeats a ref, or holds a command that changes nothing. */
  method BuildUpdateRefTransaction(commands: seq<Command>) returns (text: Option<string>)
    ensures text.Some? <==> commands != [] && CanCompile(commands)
    ensures text.Some? ==> text.value == TransactionText(commands)
  {
    if commands == [] {
      return None;
    }
    var built := "start\n";
    var seen: set<string> := {};
    TextStarts();
    for n := 0 to |commands|
      invariant Checked(commands, n, seen)
      invariant built == StartedText(commands[..n])
    {
      ChecksNext(commands, n, seen);
      var line := CompileOne(commands[n]);
      if line.None? || commands[n].refName in seen {
        return None;
      }
      seen := seen + {commands[n].refName};
      NextInstruction(commands, n);
      built := built + line.value + "\n";
    }
    assert commands[..|commands|] == commands;
    TextEnds(commands);
    built := built + "prepare\ncommit\n";
    text := Some(built);
  }

  lemma EndLines()
    ensures Unlines(["prepare", "commit"]) == "prepare\ncommit\n"
  {
    assert ["prepare", "commit"][1..] == ["commit"] && ["commit"][1..] == [];
    assert "prepare" + "\n" + ("commit" + "\n" + "") == "prepare\ncommit\n";
  }
}
