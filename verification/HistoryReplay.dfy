/** The append-only history of a Plugin's tags, and what settling a batch appends to it. */
module HistoryReplay {
  import opened Wrappers
  import opened Tables
  import opened Classification
  import opened Receive
  import opened Invariant
  import opened Settlement

  lemma AppendRow(history: seq<HistoryRow>, row: HistoryRow)
    ensures forall key :: Replay(history + [row], key) == if row.key == key then StandingAfter(row)
            else Replay(history, key)
    ensures forall id :: RowsFor(history + [row], id) == RowsFor(history, id) + if row.intent == Some(id) then 1 else 0
    ensures Chained(history) && Continues(row, Replay(history, row.key)) ==> Chained(history + [row])
  {
    var longer := history + [row];
    assert longer[..|history|] == history;
    if Chained(history) && Continues(row, Replay(history, row.key)) {
      forall n | 0 <= n < |longer| ensures Continues(longer[n], Replay(longer[..n], longer[n].key)) {
        assert longer[..n] == history[..n];
      }
    }
  }

  /** What must stand before the rows of a completed batch can be appended. */
  ghost predicate RowsReady(history: seq<HistoryRow>, intents: Intents, batch: Uuid, plugin: Uuid, tags: seq<Tag>) {
    forall tag {:trigger IntentId(batch, tag)} | tag in tags ::
      IntentId(batch, tag) in intents &&
      var intent := intents[IntentId(batch, tag)];
      intent.key == TagKey(plugin, tag) && Replay(history, intent.key) == At(intent.oldCommit) &&
      (intent.operation == Move <==> intent.newCommit.Some?)
  }

  ghost function ReplayAfter(history: seq<HistoryRow>, intents: Intents, batch: Uuid, plugin: Uuid, tags: seq<Tag>,
          key: TagKey): Standing {
    if key.plugin == plugin && key.tag in tags && IntentId(batch, key.tag) in intents
    then StandingAfter(HistoryAfter(IntentId(batch, key.tag), intents[IntentId(batch, key.tag)]))
        else Replay(history, key)
  }

  lemma RowsReadyTail(history: seq<HistoryRow>, intents: Intents, batch: Uuid, plugin: Uuid, tags: seq<Tag>,
          row: HistoryRow)
    requires tags != [] && Distinct(tags) && RowsReady(history, intents, batch, plugin, tags)
    requires row.key == TagKey(plugin, tags[0])
    ensures RowsReady(history + [row], intents, batch, plugin, tags[1..])
  {
    AppendRow(history, row);
    forall tag | tag in tags[1..] ensures tag in tags && tag != tags[0] {
    }
  }

  ghost predicate Replays(history: seq<HistoryRow>, longer: seq<HistoryRow>, intents: Intents, batch: Uuid,
          plugin: Uuid, tags: seq<Tag>)
  {
    forall key :: Replay(longer, key) == ReplayAfter(history, intents, batch, plugin, tags, key)
  }

  ghost predicate Counts(history: seq<HistoryRow>, longer: seq<HistoryRow>, batch: Uuid, tags: seq<Tag>) {
    forall id :: RowsFor(longer, id) == RowsFor(history, id) + if Covers(batch, tags, id) then 1 else 0
  }

  lemma JoinReplays(history: seq<HistoryRow>, mid: seq<HistoryRow>, longer: seq<HistoryRow>, intents: Intents,
          batch: Uuid, plugin: Uuid, tags: seq<Tag>)
    requires tags != [] && tags[0] !in tags[1..] && IntentId(batch, tags[0]) in intents
    requires intents[IntentId(batch, tags[0])].key == TagKey(plugin, tags[0])
    requires mid == history + [HistoryAfter(IntentId(batch, tags[0]), intents[IntentId(batch, tags[0])])]
    requires Replays(mid, longer, intents, batch, plugin, tags[1..])
    ensures Replays(history, longer, intents, batch, plugin, tags)
  {
    AppendRow(history, HistoryAfter(IntentId(batch, tags[0]), intents[IntentId(batch, tags[0])]));
    forall key ensures Replay(longer, key) == ReplayAfter(history, intents, batch, plugin, tags, key) {
      assert key.tag in tags <==> key.tag == tags[0] || key.tag in tags[1..];
      assert Replay(longer, key) == ReplayAfter(mid, intents, batch, plugin, tags[1..], key);
    }
  }

  lemma JoinCounts(history: seq<HistoryRow>, row: HistoryRow, longer: seq<HistoryRow>, batch: Uuid, tags: seq<Tag>)
    requires tags != [] && tags[0] !in tags[1..] && row.intent == Some(IntentId(batch, tags[0]))
    requires Counts(history + [row], longer, batch, tags[1..])
    ensures Counts(history, longer, batch, tags)
  {
    AppendRow(history, row);
    forall id ensures RowsFor(longer, id) == RowsFor(history, id) + if Covers(batch, tags, id) then 1 else 0 {
      CoversHead(batch, tags, id);
    }
  }

  lemma FirstRow(history: seq<HistoryRow>, intents: Intents, batch: Uuid, plugin: Uuid, tags: seq<Tag>, row: HistoryRow)
    requires tags != [] && Chained(history) && RowsReady(history, intents, batch, plugin, tags)
    requires row == HistoryAfter(IntentId(batch, tags[0]), intents[IntentId(batch, tags[0])])
    ensures Chained(history + [row]) && row.key == TagKey(plugin, tags[0]) &&
            row.intent == Some(IntentId(batch, tags[0]))
  {
    assert tags[0] in tags;
    AppendRow(history, row);
  }

  /** Each intent of the batch appends exactly one row, which continues from what stood before. */
  lemma {:induction false} AppendBatch(history: seq<HistoryRow>, intents: Intents, batch: Uuid, plugin: Uuid,
          tags: seq<Tag>)
    requires Chained(history) && Distinct(tags) && RowsReady(history, intents, batch, plugin, tags)
    ensures Chained(history + HistoryRows(intents, batch, tags))
    ensures Replays(history, history + HistoryRows(intents, batch, tags), intents, batch, plugin, tags)
    ensures Counts(history, history + HistoryRows(intents, batch, tags), batch, tags)
    decreases |tags|
  {
    var longer := history + HistoryRows(intents, batch, tags);
    if tags == [] {
      assert longer == history;
    } else {
      assert tags[0] in tags;
      var row := HistoryAfter(IntentId(batch, tags[0]), intents[IntentId(batch, tags[0])]);
      FirstRow(history, intents, batch, plugin, tags, row);
      RowsReadyTail(history, intents, batch, plugin, tags, row);
      AppendBatch(history + [row], intents, batch, plugin, tags[1..]);
      assert longer == history + [row] + HistoryRows(intents, batch, tags[1..]);
      JoinReplays(history, history + [row], longer, intents, batch, plugin, tags);
      JoinCounts(history, row, longer, batch, tags);
    }
  }
}
