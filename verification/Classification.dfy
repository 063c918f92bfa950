/** Reading back the refs of a prepared batch: did Git apply all of it, none of it, or neither?
    The question is answered by three separately written classifiers. */
module Classification {
  import opened Wrappers
  import opened Tables

  datatype RefName = Unnamed | TagRef(tag: Tag) | OtherRef(name: string)
  datatype ObservedRef = ObservedRef(refName: RefName, oid: ObjectId, found: bool)
  datatype PreparedTransition = PreparedTransition(refName: RefName, expectedOld: ObjectId, proposedNew: ObjectId)
  datatype Disposition = ReceiveCompleted | ReceiveAborted | ReceiveManual

  /** What a resolver reads of one intent: its tag and the ref values it expects and proposes. */
  datatype IntentRefs = IntentRefs(tag: Tag, expectedOld: ObjectId, proposedNew: Option<ObjectId>)

  predicate Matches(ref: ObservedRef, expected: ObjectId) {
    if AllZero(expected) then !ref.found else ref.found && ref.oid == expected
  }

  /** The recovery package also takes the empty string for the absent ref. */
  predicate MatchesOrEmpty(ref: ObservedRef, expected: ObjectId) {
    if expected.Empty? || AllZero(expected) then !ref.found else ref.found && ref.oid == expected
  }

  function Proposed(refs: IntentRefs): ObjectId {
    if refs.proposedNew.Some? then refs.proposedNew.value
    else if refs.expectedOld.Empty? then Empty else Zero
  }

  function Prepare(refs: IntentRefs): PreparedTransition {
    PreparedTransition(TagRef(refs.tag), refs.expectedOld, Proposed(refs))
  }

  function PrepareAll(refs: seq<IntentRefs>): (prepared: seq<PreparedTransition>)
    ensures |prepared| == |refs|
    ensures forall i :: 0 <= i < |refs| ==> prepared[i] == Prepare(refs[i])
  {
    seq(|refs|, i requires 0 <= i < |refs| => Prepare(refs[i]))
  }

  // ---- The meaning: which observation answers each transition

  predicate Named(observed: seq<ObservedRef>) {
    forall i :: 0 <= i < |observed| ==> observed[i].refName != Unnamed
  }

  predicate Unrepeated(observed: seq<ObservedRef>) {
    forall i, j :: 0 <= i < j < |observed| ==> observed[i].refName != observed[j].refName
  }

  predicate ShowsOld(transition: PreparedTransition, observed: seq<ObservedRef>) {
    exists ref | ref in observed :: ref.refName == transition.refName && Matches(ref, transition.expectedOld)
  }

  predicate ShowsNew(transition: PreparedTransition, observed: seq<ObservedRef>) {
    exists ref | ref in observed :: ref.refName == transition.refName && Matches(ref, transition.proposedNew)
  }

  predicate AllOld(prepared: seq<PreparedTransition>, observed: seq<ObservedRef>) {
    forall transition | transition in prepared :: ShowsOld(transition, observed)
  }

  predicate AllNew(prepared: seq<PreparedTransition>, observed: seq<ObservedRef>) {
    forall transition | transition in prepared :: ShowsNew(transition, observed)
  }

  /** The report is usable when it answers every transition once and nothing else. */
  predicate Usable(prepared: seq<PreparedTransition>, observed: seq<ObservedRef>) {
    prepared != [] && |prepared| == |observed| && Named(observed) && Unrepeated(observed)
  }

  function Meaning(prepared: seq<PreparedTransition>, observed: seq<ObservedRef>): Disposition {
    if !Usable(prepared, observed) then ReceiveManual
    else if AllNew(prepared, observed) then ReceiveCompleted
    else if AllOld(prepared, observed) then ReceiveAborted
    else ReceiveManual
  }

  // ---- The three classifiers

  /** Indexes a report by ref name, refusing an unnamed or repeated ref. */
  method IndexByRef(observed: seq<ObservedRef>) returns (ok: bool, byRef: map<RefName, ObservedRef>)
    ensures ok <==> Named(observed) && Unrepeated(observed)
    ensures ok ==> forall name :: name in byRef <==> exists ref | ref in observed :: ref.refName == name
    ensures ok ==> forall ref | ref in observed :: ref.refName in byRef && byRef[ref.refName] == ref
  {
    byRef := map[];
    for n := 0 to |observed|
      invariant Named(observed[..n]) && Unrepeated(observed[..n])
      invariant forall name :: name in byRef <==> exists i :: 0 <= i < n && observed[i].refName == name
      invariant forall i :: 0 <= i < n ==> byRef[observed[i].refName] == observed[i]
    {
      var ref := observed[n];
      if ref.refName == Unnamed || ref.refName in byRef {
        return false, map[];
      }
      byRef := byRef[ref.refName := ref];
    }
    ok := true;
    assert observed[..|observed|] == observed;
  }

  /** mod/git classifies what it read before handing the report over. */
  method ClassifyReceiveResolution(id: Option<Uuid>, prepared: seq<PreparedTransition>, observed: seq<ObservedRef>)
    returns (disposition: Disposition)
    ensures disposition == if id.None? then ReceiveManual else Meaning(prepared, observed)
  {
    if id.None? || |prepared| == 0 || |observed| != |prepared| {
      return ReceiveManual;
    }
    var ok, byRef := IndexByRef(observed);
    if !ok {
      return ReceiveManual;
    }
    var allNew, allOld := true, true;
    for n := 0 to |prepared|
      invariant allNew <==> AllNew(prepared[..n], observed)
      invariant allOld <==> AllOld(prepared[..n], observed)
    {
      assert prepared[n] in prepared;
      assert prepared[..n + 1] == prepared[..n] + [prepared[n]];
      if prepared[n].refName !in byRef {
        assert !ShowsOld(prepared[n], observed) && !ShowsNew(prepared[n], observed);
        return ReceiveManual;
      }
      var ref := byRef[prepared[n].refName];
      var newMatches, oldMatches := Matches(ref, prepared[n].proposedNew), Matches(ref, prepared[n].expectedOld);
      assert newMatches <==> ShowsNew(prepared[n], observed);
      assert oldMatches <==> ShowsOld(prepared[n], observed);
      allNew, allOld := allNew && newMatches, allOld && oldMatches;
      if !newMatches && !oldMatches {
        return ReceiveManual;
      }
    }
    assert prepared[..|prepared|] == prepared;
    disposition := if allNew then ReceiveCompleted else if allOld then ReceiveAborted else ReceiveManual;
  }

  /** The coordinator classifies the report again, against the rows it reads itself. */
  method ClassifyResolution(id: Option<Uuid>, intents: seq<IntentRefs>, observed: seq<ObservedRef>)
    returns (disposition: Disposition)
    ensures disposition == if id.None? then ReceiveManual else Meaning(PrepareAll(intents), observed)
  {
    var prepared := PrepareAll(intents);
    if id.None? || |prepared| == 0 || |prepared| != |observed| {
      return ReceiveManual;
    }
    var ok, byRef := IndexByRef(observed);
    if !ok {
      return ReceiveManual;
    }
    var allOld, allProposed := true, true;
    for n := 0 to |prepared|
      invariant allOld <==> AllOld(prepared[..n], observed)
      invariant allProposed <==> AllNew(prepared[..n], observed)
    {
      assert prepared[n] in prepared;
      assert prepared[..n + 1] == prepared[..n] + [prepared[n]];
      if prepared[n].refName !in byRef {
        assert !ShowsOld(prepared[n], observed) && !ShowsNew(prepared[n], observed);
        return ReceiveManual;
      }
      var ref := byRef[prepared[n].refName];
      assert Matches(ref, prepared[n].proposedNew) <==> ShowsNew(prepared[n], observed);
      assert Matches(ref, prepared[n].expectedOld) <==> ShowsOld(prepared[n], observed);
      if !Matches(ref, prepared[n].expectedOld) && !Matches(ref, prepared[n].proposedNew) {
        return ReceiveManual;
      }
      allOld := allOld && Matches(ref, prepared[n].expectedOld);
      allProposed := allProposed && Matches(ref, prepared[n].proposedNew);
    }
    assert prepared[..|prepared|] == prepared;
    if allProposed {
      return ReceiveCompleted;
    }
    disposition := if allOld then ReceiveAborted else ReceiveManual;
  }

  // ---- The recovery package's matcher

  /** The recovery package reads the empty identifier as the absent ref. */
  function Lenient(oid: ObjectId): ObjectId { if oid.Empty? then Zero else oid }

  function LenientAll(prepared: seq<PreparedTransition>): (lenient: seq<PreparedTransition>)
    ensures |lenient| == |prepared|
    ensures forall i :: 0 <= i < |prepared| ==>
      lenient[i] == PreparedTransition(prepared[i].refName, Lenient(prepared[i].expectedOld),
          Lenient(prepared[i].proposedNew))
  {
    seq(|prepared|, i requires 0 <= i < |prepared| =>
      PreparedTransition(prepared[i].refName, Lenient(prepared[i].expectedOld), Lenient(prepared[i].proposedNew)))
  }

  /** The recovery package classifies from the intent rows alone, with its own matcher. */
  method ClassifyIntents(intents: seq<IntentRefs>, observed: seq<ObservedRef>) returns (disposition: Disposition)
    ensures disposition == Meaning(LenientAll(PrepareAll(intents)), observed)
  {
    ghost var prepared := LenientAll(PrepareAll(intents));
    if |intents| == 0 || |intents| != |observed| {
      return ReceiveManual;
    }
    var ok, refs := IndexByRef(observed);
    if !ok {
      return ReceiveManual;
    }
    var allNew, allOld := true, true;
    for n := 0 to |intents|
      invariant allNew <==> AllNew(prepared[..n], observed)
      invariant allOld <==> AllOld(prepared[..n], observed)
    {
      assert prepared[n] in prepared;
      assert prepared[..n + 1] == prepared[..n] + [prepared[n]];
      var name := TagRef(intents[n].tag);
      if name !in refs {
        assert !ShowsOld(prepared[n], observed) && !ShowsNew(prepared[n], observed);
        return ReceiveManual;
      }
      var proposed := if intents[n].expectedOld.Empty? then Empty else Zero;
      if intents[n].proposedNew.Some? {
        proposed := intents[n].proposedNew.value;
      }
      var newMatches, oldMatches := MatchesOrEmpty(refs[name], proposed),
          MatchesOrEmpty(refs[name], intents[n].expectedOld);
      assert newMatches <==> ShowsNew(prepared[n], observed);
      assert oldMatches <==> ShowsOld(prepared[n], observed);
      if !newMatches && !oldMatches {
        return ReceiveManual;
      }
      allNew, allOld := allNew && newMatches, allOld && oldMatches;
    }
    assert prepared[..|intents|] == prepared;
    disposition := if allNew then ReceiveCompleted else if allOld then ReceiveAborted else ReceiveManual;
  }

  predicate IdentifiersPresent(intents: seq<IntentRefs>) {
    forall intent | intent in intents :: intent.expectedOld != Empty && intent.proposedNew != Some(Empty)
  }

  predicate TagsApart(intents: seq<IntentRefs>) {
    forall i, j :: 0 <= i < j < |intents| ==> intents[i].tag != intents[j].tag
  }

  lemma PresentIsStrict(intents: seq<IntentRefs>)
    requires IdentifiersPresent(intents)
    ensures LenientAll(PrepareAll(intents)) == PrepareAll(intents)
  {
    forall i | 0 <= i < |intents| ensures LenientAll(PrepareAll(intents))[i] == PrepareAll(intents)[i] {
      assert intents[i] in intents;
    }
  }

  /** The ref that would match an identifier. */
  ghost function Showing(tag: Tag, oid: ObjectId): ObservedRef { ObservedRef(TagRef(tag), oid, !AllZero(oid)) }

  ghost function ShowingAll(intents: seq<IntentRefs>, expected: bool): (observed: seq<ObservedRef>)
    ensures |observed| == |intents|
    ensures forall i :: 0 <= i < |intents| ==>
      observed[i] == Showing(intents[i].tag, if expected then intents[i].expectedOld else Proposed(intents[i]))
  {
    seq(|intents|, i requires 0 <= i < |intents| => Showing(intents[i].tag, if expected then intents[i].expectedOld
        else Proposed(intents[i])))
  }

  lemma ShownAt(prepared: seq<PreparedTransition>, observed: seq<ObservedRef>, i: nat)
    requires i < |prepared| == |observed| && Unrepeated(observed) && prepared[i].refName == observed[i].refName
    ensures ShowsOld(prepared[i], observed) <==> Matches(observed[i], prepared[i].expectedOld)
    ensures ShowsNew(prepared[i], observed) <==> Matches(observed[i], prepared[i].proposedNew)
  {
    assert observed[i] in observed;
    assert forall ref | ref in observed && ref.refName == observed[i].refName :: ref == observed[i];
  }

  lemma ShownIsUsable(intents: seq<IntentRefs>, expected: bool)
    requires intents != [] && TagsApart(intents)
    ensures Usable(PrepareAll(intents), ShowingAll(intents, expected)) &&
            Usable(LenientAll(PrepareAll(intents)), ShowingAll(intents, expected))
    ensures if expected then AllOld(PrepareAll(intents), ShowingAll(intents, expected))
            else AllNew(PrepareAll(intents), ShowingAll(intents, expected))
  {
    var prepared, observed := PrepareAll(intents), ShowingAll(intents, expected);
    forall transition | transition in prepared
        ensures if expected then ShowsOld(transition, observed) else ShowsNew(transition, observed) {
      var i :| 0 <= i < |prepared| && prepared[i] == transition;
      ShownAt(prepared, observed, i);
    }
  }

  /** Where an identifier is empty, the recovery package and the coordinator part ways on some report. */
  lemma EmptySplits(intents: seq<IntentRefs>) returns (observed: seq<ObservedRef>)
    requires intents != [] && TagsApart(intents) && !IdentifiersPresent(intents)
    ensures Meaning(PrepareAll(intents), observed) != Meaning(LenientAll(PrepareAll(intents)), observed)
  {
    var intent :| intent in intents && (intent.expectedOld == Empty || intent.proposedNew == Some(Empty));
    var i :| 0 <= i < |intents| && intents[i] == intent;
    var expected := intent.expectedOld == Empty;
    observed := ShowingAll(intents, expected);
    ShownIsUsable(intents, expected);
    var lenient := LenientAll(PrepareAll(intents));
    ShownAt(lenient, observed, i);
    assert lenient[i] in lenient;
  }

  /** Both matchers give every report the same meaning exactly when no identifier is empty. */
  lemma MatchersAgreeExactly(intents: seq<IntentRefs>)
    requires intents != [] && TagsApart(intents)
    ensures (forall observed :: Meaning(PrepareAll(intents), observed) == Meaning(LenientAll(PrepareAll(intents)),
            observed))
            <==> IdentifiersPresent(intents)
  {
    if IdentifiersPresent(intents) {
      PresentIsStrict(intents);
    } else {
      var observed := EmptySplits(intents);
    }
  }

  // ---- The verdict does not depend on the order of the report

  lemma {:induction false} RepeatedMemberAt<T>(s: seq<T>, i: nat, j: nat)
    requires i < j < |s| && s[i] == s[j]
    ensures multiset(s)[s[i]] >= 2
  {
    assert s == s[..j] + s[j..];
    assert s[..j][i] in multiset(s[..j]) && s[j..][0] in multiset(s[j..]);
    assert multiset(s) == multiset(s[..j]) + multiset(s[j..]);
  }

  lemma {:induction false} RepeatedMember<T>(s: seq<T>, x: T) returns (i: nat, j: nat)
    requires multiset(s)[x] >= 2
    ensures i < j < |s| && s[i] == x == s[j]
  {
    assert s == [s[0]] + s[1..];
    assert multiset(s) == multiset{s[0]} + multiset(s[1..]);
    if s[0] == x {
      assert x in multiset(s[1..]);
      var k :| 0 <= k < |s[1..]| && s[1..][k] == x;
      i, j := 0, k + 1;
    } else {
      i, j := RepeatedMember(s[1..], x);
      i, j := i + 1, j + 1;
    }
  }

  lemma ReorderedStaysUsable(prepared: seq<PreparedTransition>, observed: seq<ObservedRef>, reordered: seq<ObservedRef>)
    requires multiset(observed) == multiset(reordered) && Usable(prepared, observed)
    ensures Usable(prepared, reordered)
  {
    assert |observed| == |multiset(observed)| == |multiset(reordered)| == |reordered|;
    forall i | 0 <= i < |reordered| ensures reordered[i] in observed {
      assert reordered[i] in multiset(reordered);
    }
    forall i, j | 0 <= i < j < |reordered| ensures reordered[i].refName != reordered[j].refName {
      if reordered[i].refName == reordered[j].refName {
        var m, n :| 0 <= m < |observed| && 0 <= n < |observed| && observed[m] == reordered[i] &&
            observed[n] == reordered[j];
        assert m == n;
        RepeatedMemberAt(reordered, i, j);
        var a, b := RepeatedMember(observed, reordered[i]);
        assert false;
      }
    }
  }

  lemma ReportOrderIrrelevant(prepared: seq<PreparedTransition>, observed: seq<ObservedRef>,
          reordered: seq<ObservedRef>)
    requires multiset(observed) == multiset(reordered)
    ensures Meaning(prepared, observed) == Meaning(prepared, reordered)
  {
    forall ref ensures ref in observed <==> ref in reordered {
      assert ref in observed <==> ref in multiset(observed);
      assert ref in reordered <==> ref in multiset(reordered);
    }
    if Usable(prepared, observed) {
      ReorderedStaysUsable(prepared, observed, reordered);
    } else if Usable(prepared, reordered) {
      ReorderedStaysUsable(prepared, reordered, observed);
      assert false;
    }
    if Usable(prepared, observed) {
      forall transition | transition in prepared
        ensures ShowsNew(transition, observed) <==> ShowsNew(transition, reordered)
        ensures ShowsOld(transition, observed) <==> ShowsOld(transition, reordered)
      {
      }
    }
  }
}
