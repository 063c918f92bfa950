/** The Plugin service's own changes keep the invariant. */
module ServiceSteps {
  import opened Wrappers
  import opened Tables
  import opened Classification
  import opened Receive
  import opened Lifecycle
  import opened World
  import opened Invariant
  import opened HistoryReplay

  // ---- Changing one Plugin row

  /** What the service's changes leave alone. */
  ghost predicate SameReceives(db: Db, next: Db) {
    next == db.(versions := next.versions, history := next.history, plugins := next.plugins) &&
        next.plugins.Keys == db.plugins.Keys
  }

  lemma SameProjections(db: Db, next: Db, disk: map<StorageKey, Projection>)
    requires ProjectionsOk(db, disk) && SameReceives(db, next)
    ensures ProjectionsOk(next, disk)
  {
  }

  lemma SameBatchRefs(db: Db, next: Db, refs: map<TagKey, ObjectId>, batch: Uuid)
    requires next.intents == db.intents
    ensures RefsOld(next, refs, batch) <==> RefsOld(db, refs, batch)
    ensures RefsNew(next, refs, batch) <==> RefsNew(db, refs, batch)
  {
  }

  lemma SameRows(db: Db, next: Db)
    requires RowsOk(db) && SameReceives(db, next)
    ensures RowsOk(next)
  {
  }

  lemma SameGit(w: World, next: Db)
    requires BatchRefsOk(w.db, w.refs) && StorageOk(w.db, w.refs, w.disk) && SameReceives(w.db, next)
    ensures BatchRefsOk(next, w.refs) && StorageOk(next, w.refs, w.disk)
  {
    forall b { SameBatchRefs(w.db, next, w.refs, b); }
    forall t | t in next.transitions && TransitionOpen(next.transitions[t].state)
      ensures t.intent in next.intents && (RefsOld(next, w.refs, t.intent.batch) || StagedStored(next, w.disk, t))
    {
      if StagedStored(w.db, w.disk, t) { assert StagedStored(next, w.disk, t); }
    }
  }

  lemma SameHistory(db: Db, next: Db)
    requires HistoryOk(db) && next.history == db.history && next.versions == db.versions && next.intents == db.intents
    ensures HistoryOk(next)
  {
    forall key ensures Replay(next.history, key) == StandingOf(next.versions, key) {
      assert Replay(db.history, key) == StandingOf(db.versions, key);
    }
    forall id ensures RowsFor(next.history, id) == if Recorded(next, id) then 1 else 0 {
      assert RowsFor(db.history, id) == if Recorded(db, id) then 1 else 0;
    }
  }

  /** A session is untouched by a change to another Plugin's Versions. */
  lemma OtherSessions(w: World, next: Db, plugin: Uuid)
    requires SessionsOk(w) && SameReceives(w.db, next) && (next.versions == w.db.versions || plugin !in w.sessions)
    requires forall key: TagKey | key.plugin != plugin ::
      (key in next.versions <==> key in w.db.versions) &&
          (key in w.db.versions ==> next.versions[key] == w.db.versions[key])
    ensures SessionsOk(w.(db := next))
  {
    forall p | p in w.sessions ensures SessionOk(next, w.refs, w.disk, p, w.sessions[p]) {
      OtherSession(w, next, p);
    }
  }

  lemma OtherSession(w: World, next: Db, p: Uuid)
    requires p in w.sessions && SessionOk(w.db, w.refs, w.disk, p, w.sessions[p]) && SameReceives(w.db, next)
    requires forall key: TagKey | key.plugin == p ::
      (key in next.versions <==> key in w.db.versions) &&
          (key in w.db.versions ==> next.versions[key] == w.db.versions[key])
    ensures SessionOk(next, w.refs, w.disk, p, w.sessions[p])
  {
    if w.sessions[p].phase.Applying? {
      var prepared := w.sessions[p].phase.prepared;
      forall command | command in w.sessions[p].phase.commands ensures CommandCovered(next, p, command, prepared) {
        assert CommandCovered(w.db, p, command, prepared);
      }
    }
  }

  lemma SameIntents(w: World, next: Db, plugin: Uuid)
    requires IntentsOk(w.db, w.objects) && SameReceives(w.db, next) &&
             (next.versions == w.db.versions || !PluginBlocked(w.db, plugin))
    requires forall key: TagKey | key.plugin != plugin ::
      (key in next.versions <==> key in w.db.versions) &&
          (key in w.db.versions ==> next.versions[key] == w.db.versions[key])
    ensures IntentsOk(next, w.objects)
  {
    PublishedExpected(w.db, next, plugin);
  }

  lemma SamePlugins(db: Db, next: Db, plugin: Uuid, row: Plugin)
    requires PluginsOk(db) && plugin in db.plugins && PluginOk(db.versions, plugin, row) &&
             next == db.(plugins := db.plugins[plugin := row])
    ensures PluginsOk(next)
  {
  }

  lemma PluginRowKeepsInvariant(w: World, plugin: Uuid, row: Plugin)
    requires Inv(w) && plugin in w.db.plugins && PluginOk(w.db.versions, plugin, row)
    ensures Inv(w.(db := w.db.(plugins := w.db.plugins[plugin := row])))
  {
    var next := w.db.(plugins := w.db.plugins[plugin := row]);
    SameRows(w.db, next);
    SameProjections(w.db, next, w.disk);
    SameGit(w, next);
    SameHistory(w.db, next);
    SamePlugins(w.db, next, plugin, row);
    OtherSessions(w, next, plugin);
    SameIntents(w, next, plugin);
    assert AgreementOk(next, w.refs);
  }

  lemma SetDefaultKeepsInvariant(w: World, key: TagKey)
    requires Inv(w)
    ensures Inv(w.(db := SetDefault(w.db, key).0))
  {
    if SetDefault(w.db, key).1.Done? {
      PluginRowKeepsInvariant(w, key.plugin, w.db.plugins[key.plugin].(defaultTag := Some(key.tag)));
    }
  }

  lemma ClearDefaultKeepsInvariant(w: World, plugin: Uuid)
    requires Inv(w)
    ensures Inv(w.(db := ClearDefaultVersion(w.db, plugin).0))
  {
    if ClearDefaultVersion(w.db, plugin).1.Done? {
      PluginRowKeepsInvariant(w, plugin, w.db.plugins[plugin].(defaultTag := None));
    }
  }

  lemma ArchiveKeepsInvariant(w: World, plugin: Uuid)
    requires Inv(w)
    ensures Inv(w.(db := Archive(w.db, plugin).0))
  {
    if Archive(w.db, plugin).1.Done? && w.db.plugins[plugin].status != Archived {
      var row := w.db.plugins[plugin];
      PluginRowKeepsInvariant(w, plugin, row.(status := Archived, archivedFrom := Some(row.status)));
    }
  }

  lemma RestoreKeepsInvariant(w: World, plugin: Uuid)
    requires Inv(w)
    ensures Inv(w.(db := Restore(w.db, plugin).0))
  {
    if Restore(w.db, plugin).1.Done? {
      var row := w.db.plugins[plugin];
      PluginRowKeepsInvariant(w, plugin, row.(status := row.archivedFrom.value, archivedFrom := None));
    }
  }

  // ---- Publishing a Version

  /** A publication that is accepted, and the history row it writes, if any. */
  ghost predicate PublishesAs(w: World, key: TagKey, inspection: Inspection, operation: Option<HistoryOperation>) {
    key.plugin in w.db.plugins && w.db.plugins[key.plugin].status != Archived && RepositoryReadyFor(w.db, key.plugin) &&
    Inspect(w.refs, w.objects, key) == Some(inspection) && ValidInspection(inspection) &&
        !PluginBlocked(w.db, key.plugin) &&
    PublishOperation(w.db, key, inspection) == Some(operation)
  }

  ghost function PublishedHistory(history: seq<HistoryRow>, key: TagKey, inspection: Inspection,
          operation: Option<HistoryOperation>): seq<HistoryRow> {
    if operation.None? then history
    else history + [HistoryRow(key, operation.value, None, Some(inspection.commit), None)]
  }

  lemma PublishedRow(db: Db, key: TagKey, inspection: Inspection, operation: HistoryOperation, next: Db)
    requires HistoryOk(db) && PublishOperation(db, key, inspection) == Some(Some(operation))
    requires key in db.versions && db.versions[key].status == Deleted ==> db.versions[key] == DELETED_VERSION
    requires next.versions == db.versions[key := PublishedVersion(inspection)] && next.intents == db.intents
    requires next.history == PublishedHistory(db.history, key, inspection, Some(operation))
    ensures HistoryOk(next)
  {
    assert Replay(db.history, key) == StandingOf(db.versions, key);
    AppendRow(db.history, HistoryRow(key, operation, None, Some(inspection.commit), None));
    forall k ensures Replay(next.history, k) == StandingOf(next.versions, k) {
      assert Replay(db.history, k) == StandingOf(db.versions, k);
    }
    forall id ensures RowsFor(next.history, id) == if Recorded(next, id) then 1 else 0 {
      assert RowsFor(db.history, id) == if Recorded(db, id) then 1 else 0;
    }
  }

  lemma PublishedHistoryOk(db: Db, key: TagKey, inspection: Inspection, operation: Option<HistoryOperation>, next: Db)
    requires HistoryOk(db) && PublishOperation(db, key, inspection) == Some(operation)
    requires key in db.versions && db.versions[key].status == Deleted ==> db.versions[key] == DELETED_VERSION
    requires next.versions == db.versions[key := PublishedVersion(inspection)] && next.intents == db.intents
    requires next.history == PublishedHistory(db.history, key, inspection, operation)
    ensures HistoryOk(next)
  {
    if operation.Some? {
      PublishedRow(db, key, inspection, operation.value, next);
    } else {
      assert next.versions == db.versions;
      SameHistory(db, next);
    }
  }

  lemma PublishedPlugins(db: Db, next: Db, key: TagKey, inspection: Inspection, row: Plugin)
    requires PluginsOk(db) && key.plugin in db.plugins && key.plugin in db.population.repositories &&
             next.population == db.population
    requires next.versions == db.versions[key := PublishedVersion(inspection)] &&
             next.plugins == db.plugins[key.plugin := row]
    requires db.plugins[key.plugin].status != Archived && row.status == Active &&
             row.archivedFrom == db.plugins[key.plugin].archivedFrom
    requires row.defaultTag == db.plugins[key.plugin].defaultTag || row.defaultTag == Some(key.tag)
    ensures PluginsOk(next)
  {
    assert key in next.versions;
    forall p | p in next.plugins ensures PluginOk(next.versions, p, next.plugins[p]) {
      assert PluginOk(db.versions, p, db.plugins[p]);
      if p == key.plugin {
        assert HasVersion(next.versions, p);
      } else {
        assert HasVersion(next.versions, p) <==> HasVersion(db.versions, p);
      }
    }
  }

  lemma PublishedExpected(db: Db, next: Db, plugin: Uuid)
    requires UnresolvedExpected(db) && next.intents == db.intents &&
             (next.versions == db.versions || !PluginBlocked(db, plugin))
    requires forall key: TagKey | key.plugin != plugin ::
      (key in next.versions <==> key in db.versions) && (key in db.versions ==> next.versions[key] == db.versions[key])
    ensures UnresolvedExpected(next)
  {
    forall id | id in next.intents && IsUnresolved(next.intents[id].state)
        ensures VersionExpected(next, next.intents[id]) {
      assert VersionExpected(db, db.intents[id]);
    }
  }

  lemma PublishedAgreement(w: World, next: Db, key: TagKey, inspection: Inspection)
    requires AgreementOk(w.db, w.refs) && Inspect(w.refs, w.objects, key) == Some(inspection) &&
             next.intents == w.db.intents
    requires next.versions == w.db.versions[key := PublishedVersion(inspection)]
    ensures AgreementOk(next, w.refs)
  {
    forall k | k in next.versions && next.versions[k].status == Available && !Blocked(next, k)
        ensures RefIs(w.refs, k, next.versions[k].raw) {
      assert Blocked(w.db, k) <==> Blocked(next, k);
    }
  }

  ghost function PublishedDb(db: Db, key: TagKey, inspection: Inspection, operation: Option<HistoryOperation>,
          makeDefault: bool): Db
    requires key.plugin in db.plugins
  {
    var row := db.plugins[key.plugin];
    db.(versions := db.versions[key := PublishedVersion(inspection)],
        history := PublishedHistory(db.history, key, inspection, operation),
        plugins := db.plugins[key.plugin := Plugin(row.namespaceId, row.public, Active, row.archivedFrom,
                                                   if makeDefault then Some(key.tag) else row.defaultTag)])
  }

  lemma PublishComputes(w: World, key: TagKey, inspection: Inspection, operation: Option<HistoryOperation>,
          makeDefault: bool)
    requires PublishesAs(w, key, inspection, operation)
    ensures PublishInspected(w.db, key, inspection,
            makeDefault) == Some(PublishedDb(w.db, key, inspection, operation, makeDefault))
  {
    var row := w.db.plugins[key.plugin];
    assert row.status == Draft || row.status == Active;
  }

  lemma PublishedTables(w: World, key: TagKey, inspection: Inspection, operation: Option<HistoryOperation>,
          makeDefault: bool)
    requires TablesOk(w.db) && VersionFactsOk(w.db.versions, w.objects) && PublishesAs(w, key, inspection, operation)
    ensures TablesOk(PublishedDb(w.db, key, inspection, operation, makeDefault))
  {
    var next := PublishedDb(w.db, key, inspection, operation, makeDefault);
    assert key in w.db.versions ==> VersionFacts(w.db.versions[key], w.objects);
    PublishedHistoryOk(w.db, key, inspection, operation, next);
    PublishedPlugins(w.db, next, key, inspection, next.plugins[key.plugin]);
  }

  lemma PublishedGit(w: World, key: TagKey, inspection: Inspection, operation: Option<HistoryOperation>,
          makeDefault: bool)
    requires GitOk(w) && PublishesAs(w, key, inspection, operation)
    ensures GitOk(w.(db := PublishedDb(w.db, key, inspection, operation, makeDefault)))
  {
    var next := PublishedDb(w.db, key, inspection, operation, makeDefault);
    SameGit(w, next);
    PublishedAgreement(w, next, key, inspection);
  }

  lemma PublishingKeepsInvariant(w: World, key: TagKey, inspection: Inspection, operation: Option<HistoryOperation>,
          makeDefault: bool)
    requires Inv(w) && key.plugin !in w.sessions && PublishesAs(w, key, inspection, operation)
    ensures Inv(w.(db := PublishedDb(w.db, key, inspection, operation, makeDefault)))
  {
    var next := PublishedDb(w.db, key, inspection, operation, makeDefault);
    SameRows(w.db, next);
    SameProjections(w.db, next, w.disk);
    SameIntents(w, next, key.plugin);
    PublishedTables(w, key, inspection, operation, makeDefault);
    PublishedGit(w, key, inspection, operation, makeDefault);
    OtherSessions(w, next, key.plugin);
  }

  lemma PublishSucceeds(w: World, key: TagKey, makeDefault: bool)
    requires Publish(w.db, w.refs, w.objects, key, makeDefault).1.Done?
    ensures Inspect(w.refs, w.objects, key).Some? &&
            PublishOperation(w.db, key, Inspect(w.refs, w.objects, key).value).Some?
    ensures var inspection := Inspect(w.refs, w.objects, key).value;
            var operation := PublishOperation(w.db, key, inspection).value;
            PublishesAs(w, key, inspection, operation) &&
            Publish(w.db, w.refs, w.objects, key, makeDefault).0 == PublishedDb(w.db, key, inspection, operation,
                makeDefault)
  {
    var inspection := Inspect(w.refs, w.objects, key).value;
    assert PublishInspected(w.db, key, inspection, makeDefault).Some?;
    PublishComputes(w, key, inspection, PublishOperation(w.db, key, inspection).value, makeDefault);
  }

  lemma PublishKeepsInvariant(w: World, key: TagKey, makeDefault: bool)
    requires Inv(w) && key.plugin !in w.sessions
    ensures Inv(w.(db := Publish(w.db, w.refs, w.objects, key, makeDefault).0))
  {
    if Publish(w.db, w.refs, w.objects, key, makeDefault).1.Done? {
      PublishSucceeds(w, key, makeDefault);
      var inspection := Inspect(w.refs, w.objects, key).value;
      PublishingKeepsInvariant(w, key, inspection, PublishOperation(w.db, key, inspection).value, makeDefault);
    } else {
      PublishRefused(w, key, makeDefault);
    }
  }

  lemma PublishRefused(w: World, key: TagKey, makeDefault: bool)
    requires !Publish(w.db, w.refs, w.objects, key, makeDefault).1.Done?
    ensures Publish(w.db, w.refs, w.objects, key, makeDefault).0 == w.db
  {
  }

  // ---- The service's steps

  lemma ServiceStep(w: World, event: Event)
    requires Inv(w)
    requires event.PublishVersion? || event.SetDefaultVersion? || event.ClearDefaultOf? || event.ArchivePlugin? ||
             event.RestorePlugin?
    ensures Inv(DoService(w, event))
  {
    match event
    case PublishVersion(key, makeDefault) => if key.plugin !in w.sessions { PublishKeepsInvariant(w, key, makeDefault);
        }
    case SetDefaultVersion(key) => SetDefaultKeepsInvariant(w, key);
    case ClearDefaultOf(plugin) => ClearDefaultKeepsInvariant(w, plugin);
    case ArchivePlugin(plugin) => ArchiveKeepsInvariant(w, plugin);
    case RestorePlugin(plugin) => RestoreKeepsInvariant(w, plugin);
  }
}
