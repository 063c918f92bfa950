/** What git-update-ref(1) does with the commands it reads from standard input, and that a compiled push
    means one compare-and-swap of all its refs. */
module UpdateRef {
  import opened Wrappers
  import opened Text
  import opened RefTransaction

  datatype Change = Change(refName: string, value: Option<string>, expected: string)
  datatype Order = Start | Queue(change: Change) | PrepareAll | CommitAll
  datatype Phase = Idle | Started(changes: seq<Change>) | Locked(changes: seq<Change>)
  datatype Process = Process(refs: Refs, phase: Phase)

  /** Reads one line. Any other form, including a zero expected value for a deletion, is a fatal error. */
  function ReadOrder(line: string): Option<Order> {
    var words := Split(line, ' ');
    if words == ["start"] then Some(Start)
    else if words == ["prepare"] then Some(PrepareAll)
    else if words == ["commit"] then Some(CommitAll)
    else if |words| == 4 && words[0] == "update" then
      Some(Queue(Change(words[1], if AllZeroText(words[2]) then None else Some(words[2]), words[3])))
    else if |words| == 3 && words[0] == "delete" &&
        !AllZeroText(words[2]) then Some(Queue(Change(words[1], None, words[2])))
    else None
  }

  predicate Verified(refs: Refs, change: Change) {
    if AllZeroText(change.expected) then change.refName !in refs
    else change.refName in refs && refs[change.refName] == change.expected
  }

  predicate ChangesApart(changes: seq<Change>) {
    forall i, j :: 0 <= i < j < |changes| ==> changes[i].refName != changes[j].refName
  }

  /** All refs of a transaction can be locked with the values it expects. */
  predicate Lockable(refs: Refs, changes: seq<Change>) {
    ChangesApart(changes) && forall i :: 0 <= i < |changes| ==> Verified(refs, changes[i])
  }

  function Write(refs: Refs, change: Change): Refs {
    if change.value.None? then refs - {change.refName} else refs[change.refName := change.value.value]
  }

  function WriteAll(refs: Refs, changes: seq<Change>): Refs
    decreases |changes|
  {
    if changes == [] then refs else WriteAll(Write(refs, changes[0]), changes[1..])
  }

  function Obey(process: Process, order: Order): Option<Process> {
    match (process.phase, order)
    case (Idle, Start) => Some(process.(phase := Started([])))
    case (Started(changes), Queue(change)) => Some(process.(phase := Started(changes + [change])))
    case (Started(changes), PrepareAll) => if Lockable(process.refs, changes) then
        Some(process.(phase := Locked(changes))) else None
    case (Started(changes), CommitAll) =>
      if Lockable(process.refs, changes) then Some(Process(WriteAll(process.refs, changes), Idle)) else None
    case (Locked(changes), CommitAll) => Some(Process(WriteAll(process.refs, changes), Idle))
    case _ => None
  }

  /** A fatal error, like the end of the input, abandons what is not committed. */
  function Execute(process: Process, lines: seq<string>): (Refs, bool)
    decreases |lines|
  {
    if lines == [] then (process.refs, true) else
    match ReadOrder(lines[0])
    case None => (process.refs, false)
    case Some(order) =>
      match Obey(process, order)
      case None => (process.refs, false)
      case Some(next) => Execute(next, lines[1..])
  }

  /** `accepts` says that Git finds no reason of its own to refuse the transaction, such as an ill-formed or
      conflicting name, a missing object, or a ref that is locked elsewhere. */
  function UpdateRefStdin(refs: Refs, text: string, accepts: bool): (Refs, bool) {
    if accepts then Execute(Process(refs, Idle), Lines(text)) else (refs, false)
  }

  // ---- What a push means

  function NewValue(command: Command): Option<string> { if AllZeroText(command.newObject) then None
          else Some(command.newObject) }

  predicate TextRefIs(refs: Refs, name: string, value: Option<string>) {
    if value.None? then name !in refs else name in refs && refs[name] == value.value
  }

  predicate AllExpected(refs: Refs, commands: seq<Command>) {
    forall i :: 0 <= i < |commands| ==>
      TextRefIs(refs, commands[i].refName, if AllZeroText(commands[i].oldObject) then None
          else Some(commands[i].oldObject))
  }

  ghost predicate AllSwapped(refs: Refs, after: Refs, commands: seq<Command>) {
    (forall i :: 0 <= i < |commands| ==> TextRefIs(after, commands[i].refName, NewValue(commands[i]))) &&
    forall name | name in refs || name in after ::
      (exists i :: 0 <= i < |commands| && commands[i].refName == name) ||
          (name in refs && name in after && after[name] == refs[name])
  }

  // ---- The compiled text is read back as it was meant

  function ChangeOf(command: Command): Change { Change(command.refName, NewValue(command), command.oldObject) }

  function ChangesOf(commands: seq<Command>): (changes: seq<Change>)
    ensures |changes| == |commands|
    ensures forall i :: 0 <= i < |commands| ==> changes[i] == ChangeOf(commands[i])
  {
    seq(|commands|, i requires 0 <= i < |commands| => ChangeOf(commands[i]))
  }

  /** A pushed command that changes something. */
  predicate Effective(command: Command, oidLength: nat) {
    oidLength > 0 && ValidCommand(command, oidLength) &&
        !(AllZeroText(command.newObject) && AllZeroText(command.oldObject))
  }

  lemma DeleteWords(name: string, oid: string)
    requires Free(name, ' ') && Free(oid, ' ')
    ensures Split("delete " + name + " " + oid, ' ') == ["delete", name, oid]
  {
    ThreeWords("delete", name, oid);
    assert "delete " + name + " " + oid == "delete" + " " + name + " " + oid;
  }

  lemma UpdateWords(name: string, new_: string, oid: string)
    requires Free(name, ' ') && Free(new_, ' ') && Free(oid, ' ')
    ensures Split("update " + name + " " + new_ + " " + oid, ' ') == ["update", name, new_, oid]
  {
    assert "update " + name + " " + new_ + " " + oid == "update" + [' '] + (name + " " + new_ + " " + oid);
    SplitFirst("update", ' ', name + " " + new_ + " " + oid);
    ThreeWords(name, new_, oid);
  }

  lemma ReadsDelete(name: string, oid: string)
    requires Free(name, ' ') && Free(oid, ' ') && !AllZeroText(oid)
    ensures ReadOrder("delete " + name + " " + oid) == Some(Queue(Change(name, None, oid)))
  {
    DeleteWords(name, oid);
    var words := ["delete", name, oid];
    assert words[0] == "delete" && words[1] == name && words[2] == oid;
  }

  lemma ReadsUpdate(name: string, new_: string, oid: string)
    requires Free(name, ' ') && Free(new_, ' ') && Free(oid, ' ') && !AllZeroText(new_)
    ensures ReadOrder("update " + name + " " + new_ + " " + oid) == Some(Queue(Change(name, Some(new_), oid)))
  {
    UpdateWords(name, new_, oid);
    var words := ["update", name, new_, oid];
    assert words[0] == "update" && words[1] == name && words[2] == new_ && words[3] == oid;
  }

  lemma ReadsInstruction(command: Command, oidLength: nat)
    requires Effective(command, oidLength)
    ensures ReadOrder(Instruction(command)) == Some(Queue(ChangeOf(command)))
  {
    HexIsWord(command.oldObject, oidLength);
    HexIsWord(command.newObject, oidLength);
    if AllZeroText(command.newObject) {
      ReadsDelete(command.refName, command.oldObject);
    } else {
      ReadsUpdate(command.refName, command.newObject, command.oldObject);
    }
  }

  lemma ReadsWords()
    ensures ReadOrder("start") == Some(Start) && ReadOrder("prepare") == Some(PrepareAll) &&
            ReadOrder("commit") == Some(CommitAll)
  {
    SplitNone("start", ' ');
    SplitNone("prepare", ' ');
    SplitNone("commit", ' ');
    assert ["prepare"] != ["start"] && ["commit"] != ["start"] && ["commit"] != ["prepare"] by {
      assert ["prepare"][0] == "prepare" && ["commit"][0] == "commit" && ["start"][0] == "start";
      assert |"prepare"| != |"start"| && "commit"[0] != "start"[0] && |"commit"| != |"prepare"|;
    }
  }

  lemma InstructionIsLine(command: Command, oidLength: nat)
    requires Effective(command, oidLength)
    ensures Free(Instruction(command), '\n')
  {
    HexIsWord(command.oldObject, oidLength);
    HexIsWord(command.newObject, oidLength);
  }

  lemma LinesOfTransaction(commands: seq<Command>, oidLength: nat)
    requires forall i :: 0 <= i < |commands| ==> Effective(commands[i], oidLength)
    ensures Lines(TransactionText(commands)) == ["start"] + Instructions(commands) + ["prepare", "commit"]
  {
    var lines := ["start"] + Instructions(commands) + ["prepare", "commit"];
    forall line | line in lines ensures Free(line, '\n') {
      var i :| 0 <= i < |lines| && lines[i] == line;
      if 0 < i <= |commands| {
        assert line == Instruction(commands[i - 1]);
        InstructionIsLine(commands[i - 1], oidLength);
      }
    }
    LinesOfUnlines(lines);
  }

  // ---- Executing it

  /** One line: what it orders is done before the rest is read. */
  lemma ExecuteNext(process: Process, order: Order, line: string, rest: seq<string>)
    requires ReadOrder(line) == Some(order)
    ensures Execute(process, [line] + rest) ==
            if Obey(process, order).None? then (process.refs, false) else Execute(Obey(process, order).value, rest)
  {
    var lines := [line] + rest;
    assert lines[0] == line && lines[1..] == rest;
  }

  lemma {:induction false} Queues(refs: Refs, lines: seq<string>, changes: seq<Change>, done: seq<Change>,
          rest: seq<string>)
    requires |lines| == |changes| && forall i :: 0 <= i < |lines| ==> ReadOrder(lines[i]) == Some(Queue(changes[i]))
    ensures Execute(Process(refs, Started(done)), lines + rest) == Execute(Process(refs, Started(done + changes)), rest)
    decreases |lines|
  {
    if lines == [] {
      assert lines + rest == rest && done + changes == done;
    } else {
      ExecuteNext(Process(refs, Started(done)), Queue(changes[0]), lines[0], lines[1..] + rest);
      assert lines + rest == [lines[0]] + (lines[1..] + rest);
      Queues(refs, lines[1..], changes[1..], done + [changes[0]], rest);
      assert done + [changes[0]] + changes[1..] == done + changes;
    }
  }

  lemma ReadsInstructions(commands: seq<Command>, oidLength: nat)
    requires forall i :: 0 <= i < |commands| ==> Effective(commands[i], oidLength)
    ensures forall i :: 0 <= i < |commands| ==>
            ReadOrder(Instructions(commands)[i]) == Some(Queue(ChangesOf(commands)[i]))
  {
    forall i | 0 <= i < |commands| ensures ReadOrder(Instructions(commands)[i]) == Some(Queue(ChangesOf(commands)[i])) {
      ReadsInstruction(commands[i], oidLength);
    }
  }

  /** The two closing orders, whatever lines spell them. */
  lemma Closes(refs: Refs, changes: seq<Change>, prepare: string, commit: string)
    requires ReadOrder(prepare) == Some(PrepareAll) && ReadOrder(commit) == Some(CommitAll)
    ensures Execute(Process(refs, Started(changes)), [prepare, commit]) ==
            if Lockable(refs, changes) then (WriteAll(refs, changes), true) else (refs, false)
  {
    assert [prepare, commit] == [prepare] + [commit] && [commit] == [commit] + [];
    ExecuteNext(Process(refs, Started(changes)), PrepareAll, prepare, [commit]);
    if Lockable(refs, changes) {
      ExecuteNext(Process(refs, Locked(changes)), CommitAll, commit, []);
    }
  }

  /** A whole transaction, whatever lines spell its orders. */
  lemma Transacts(refs: Refs, lines: seq<string>, changes: seq<Change>, start: string, prepare: string, commit: string)
    requires |lines| == |changes| && forall i :: 0 <= i < |lines| ==> ReadOrder(lines[i]) == Some(Queue(changes[i]))
    requires ReadOrder(start) == Some(Start) && ReadOrder(prepare) == Some(PrepareAll) &&
             ReadOrder(commit) == Some(CommitAll)
    ensures Execute(Process(refs, Idle), [start] + lines + [prepare, commit]) ==
            if Lockable(refs, changes) then (WriteAll(refs, changes), true) else (refs, false)
  {
    var ending := [prepare, commit];
    assert [start] + lines + ending == [start] + (lines + ending);
    ExecuteNext(Process(refs, Idle), Start, start, lines + ending);
    Queues(refs, lines, changes, [], ending);
    assert [] + changes == changes;
    Closes(refs, changes, prepare, commit);
  }

  lemma {:induction false} WritesEach(refs: Refs, changes: seq<Change>)
    requires ChangesApart(changes)
    ensures forall i :: 0 <= i < |changes| ==> TextRefIs(WriteAll(refs, changes), changes[i].refName, changes[i].value)
    ensures forall name | forall i :: 0 <= i < |changes| ==> changes[i].refName != name ::
              (name in WriteAll(refs, changes) <==> name in refs) &&
                  (name in refs ==> WriteAll(refs, changes)[name] == refs[name])
    decreases |changes|
  {
    if changes != [] {
      WritesEach(Write(refs, changes[0]), changes[1..]);
      forall i | 0 <= i < |changes| ensures TextRefIs(WriteAll(refs, changes), changes[i].refName, changes[i].value) {
        if i > 0 { assert changes[1..][i - 1] == changes[i]; }
      }
    }
  }

  lemma LockableMeans(refs: Refs, commands: seq<Command>)
    requires RefsApart(commands)
    ensures Lockable(refs, ChangesOf(commands)) <==> AllExpected(refs, commands)
  {
    var changes := ChangesOf(commands);
    forall i | 0 <= i < |commands|
      ensures Verified(refs, changes[i]) <==>
              TextRefIs(refs, commands[i].refName, if AllZeroText(commands[i].oldObject) then None
                  else Some(commands[i].oldObject))
    {
    }
  }

  lemma WrittenMeans(refs: Refs, commands: seq<Command>)
    requires RefsApart(commands)
    ensures AllSwapped(refs, WriteAll(refs, ChangesOf(commands)), commands)
  {
    var changes, after := ChangesOf(commands), WriteAll(refs, ChangesOf(commands));
    WritesEach(refs, changes);
    forall i | 0 <= i < |commands| ensures TextRefIs(after, commands[i].refName, NewValue(commands[i])) {
      assert changes[i] == ChangeOf(commands[i]);
    }
    forall name | (name in refs || name in after) && !exists i :: 0 <= i < |commands| && commands[i].refName == name
      ensures name in refs && name in after && after[name] == refs[name]
    {
      assert forall i :: 0 <= i < |changes| ==> changes[i].refName != name;
    }
  }

  lemma Executes(refs: Refs, commands: seq<Command>, oidLength: nat, accepts: bool)
    requires forall i :: 0 <= i < |commands| ==> Effective(commands[i], oidLength)
    ensures UpdateRefStdin(refs, TransactionText(commands), accepts) ==
            if accepts && Lockable(refs, ChangesOf(commands)) then (WriteAll(refs, ChangesOf(commands)), true)
            else (refs, false)
  {
    LinesOfTransaction(commands, oidLength);
    ReadsWords();
    ReadsInstructions(commands, oidLength);
    Transacts(refs, Instructions(commands), ChangesOf(commands), "start", "prepare", "commit");
  }

  /** The compiled text is one compare-and-swap of all refs of the push: it is refused without any effect
      unless Git accepts it and every ref has the value the push expects, and otherwise it gives every ref
      its new value. */
  lemma CompiledMeaning(refs: Refs, commands: seq<Command>, oidLength: nat, accepts: bool)
    requires RefsApart(commands) && forall i :: 0 <= i < |commands| ==> Effective(commands[i], oidLength)
    ensures var (after, committed) := UpdateRefStdin(refs, TransactionText(commands), accepts);
            (committed <==> accepts && AllExpected(refs, commands)) &&
                (committed ==> AllSwapped(refs, after, commands)) && (!committed ==> after == refs)
  {
    Executes(refs, commands, oidLength, accepts);
    LockableMeans(refs, commands);
    WrittenMeans(refs, commands);
  }

  /** A push that parsed compiles exactly when each of its commands changes something. */
  lemma ParsedCompiles(commands: seq<Command>, oidLength: nat)
    requires oidLength > 0 && RefsApart(commands) && forall i ::
             0 <= i < |commands| ==> ValidCommand(commands[i], oidLength)
    ensures CanCompile(commands) <==>
            forall i :: 0 <= i < |commands| ==>
                !(AllZeroText(commands[i].oldObject) && AllZeroText(commands[i].newObject))
  {
    forall i | 0 <= i < |commands|
      ensures Compilable(commands[i]) <==> !(AllZeroText(commands[i].oldObject) && AllZeroText(commands[i].newObject))
    {
      assert |commands[i].oldObject| == oidLength;
    }
  }
}
