/** What a push that passes classification and preflight has established. */
module Planning {
  import opened Wrappers
  import opened Tables
  import opened Classification
  import opened Receive
  import opened Invariant

  ghost predicate TagsDistinct(commands: seq<TagCommand>) {
    forall i, j :: 0 <= i < j < |commands| ==> commands[i].tag != commands[j].tag
  }

  /** Every command is either skipped or effectful; a repeated tag is refused. */
  lemma {:induction false} ClassifiedAll(db: Db, plugin: Uuid, commands: seq<TagCommand>, seen: set<Tag>)
    requires Classify(db, plugin, commands, seen).Some?
    ensures var effectful := Classify(db, plugin, commands, seen).value;
            (forall c :: c in effectful <==> c in commands && ClassifyCommand(db, plugin, c).Effectful?) &&
            (forall c | c in commands :: c in effectful || ClassifyCommand(db, plugin, c).Skipped?) &&
            (forall c | c in effectful :: c.tag !in seen) && TagsDistinct(effectful)
    decreases |commands|
  {
    if commands != [] {
      var rest := seen + {commands[0].tag};
      ClassifiedAll(db, plugin, commands[1..], rest);
      assert commands == [commands[0]] + commands[1..];
      if ClassifyCommand(db, plugin, commands[0]).Effectful? {
        var tail := Classify(db, plugin, commands[1..], rest).value;
        forall j | 0 <= j < |tail| ensures tail[j].tag != commands[0].tag {
          assert tail[j] in tail;
        }
      }
    }
  }

  ghost predicate Selects(population: Population, items: seq<Item>, key: TagKey, revision: Uuid) {
    revision in population.revisions && exists i ::
        0 <= i < |items| && items[i].revision == revision && items[i].key == key
  }

  ghost predicate ItemsDistinct(items: seq<Item>) {
    forall i, j :: 0 <= i < j < |items| ==> items[i].revision != items[j].revision || items[i].key != items[j].key
  }

  lemma SelectsTail(population: Population, items: seq<Item>, key: TagKey, revision: Uuid)
    requires items != []
    ensures Selects(population, items, key, revision) <==>
            (items[0].revision == revision && items[0].key == key && revision in population.revisions) ||
                Selects(population, items[1..], key, revision)
  {
    if Selects(population, items, key, revision) {
      var i :| 0 <= i < |items| && items[i].revision == revision && items[i].key == key;
      if i > 0 { assert items[1..][i - 1] == items[i]; }
    }
    if Selects(population, items[1..], key, revision) {
      var i :| 0 <= i < |items[1..]| && items[1..][i].revision == revision && items[1..][i].key == key;
      assert items[i + 1] == items[1..][i];
    }
  }

  /** The planned revisions are those that select the tag, each with a live projection. */
  lemma {:induction false} SelectedAll(db: Db, key: TagKey, items: seq<Item>, oldCommit: Option<ObjectId>)
    requires SelectingRevisions(db, key, items, oldCommit).Some? && ItemsDistinct(items)
    ensures var plans := SelectingRevisions(db, key, items, oldCommit).value;
            (forall r :: r in RevisionIds(plans) <==> Selects(db.population, items, key, r)) &&
                Distinct(RevisionIds(plans)) &&
            forall plan | plan in plans ::
                Live(db, key, plan.revision, oldCommit) && plan.pointer == db.pointers[PointerId(plan.revision, key)]
    decreases |items|
  {
    var plans := SelectingRevisions(db, key, items, oldCommit).value;
    if items != [] {
      forall r { SelectsTail(db.population, items, key, r); }
      SelectedAll(db, key, items[1..], oldCommit);
      if items[0].key == key && items[0].revision in db.population.revisions {
        var rest := SelectingRevisions(db, key, items[1..], oldCommit).value;
        assert RevisionIds(plans) == [items[0].revision] + RevisionIds(rest);
        assert !Selects(db.population, items[1..], key, items[0].revision);
        assert items[0].revision !in RevisionIds(rest);
      }
    }
  }

  lemma {:induction false} PreflightedAll(db: Db, plugin: Uuid, commands: seq<TagCommand>)
    requires PreflightAll(db, plugin, commands).Some?
    ensures var plans := PreflightAll(db, plugin, commands).value;
            |plans| == |commands| && forall i ::
                0 <= i < |plans| ==> Preflight(db, plugin, commands[i]) == Some(plans[i])
  {
    if commands != [] {
      PreflightedAll(db, plugin, commands[1..]);
      assert commands == [commands[0]] + commands[1..];
    }
  }

  ghost predicate PlanSound(db: Db, plugin: Uuid, plan: Plan) {
    var key := TagKey(plugin, plan.command.tag);
    ClassifyCommand(db, plugin, plan.command).Effectful? && !Blocked(db, key) &&
        Distinct(RevisionIds(plan.revisions)) &&
    (plan.command.operation == TagDelete ==> !ActivelyPublished(db, key)) &&
    (forall r :: r in RevisionIds(plan.revisions) <==> Selects(db.population, db.population.items, key, r)) &&
    forall r | r in plan.revisions ::
        Live(db, key, r.revision, plan.command.oldCommit) && r.pointer == db.pointers[PointerId(r.revision, key)]
  }

  lemma PlannedAll(db: Db, plugin: Uuid, commands: seq<TagCommand>)
    requires PlanBatch(db, plugin, commands).Some? && ItemsDistinct(db.population.items)
    ensures var plans := PlanBatch(db, plugin, commands).value;
            Distinct(PlanTags(plans)) && (forall plan | plan in plans ::
                plan.command in commands && PlanSound(db, plugin, plan)) &&
            forall c | c in commands :: ClassifyCommand(db, plugin, c).Skipped? || c.tag in PlanTags(plans)
  {
    ClassifiedAll(db, plugin, commands, {});
    var effectful := Classify(db, plugin, commands, {}).value;
    PreflightedAll(db, plugin, effectful);
    var plans := PlanBatch(db, plugin, commands).value;
    forall i | 0 <= i < |plans| ensures plans[i].command == effectful[i] && PlanSound(db, plugin, plans[i]) {
      assert effectful[i] in effectful;
      SelectedAll(db, TagKey(plugin, effectful[i].tag), db.population.items, effectful[i].oldCommit);
    }
    forall c | c in effectful ensures c.tag in PlanTags(plans) {
      var i :| 0 <= i < |effectful| && effectful[i] == c;
      assert PlanTags(plans)[i] == c.tag;
    }
  }
}
