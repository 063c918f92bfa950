/** The Plugin service's operations on the Plugin, Version and history rows. Each one runs while it holds
    the Plugin's effect lock. */
module PluginService {
  import opened Wrappers
  import opened Tables
  import opened Receive
  import opened Lifecycle
  import opened Database

  class Service {
    const store: Store
    var refs: map<TagKey, ObjectId>
    const objects: Objects

    constructor (store: Store, refs: map<TagKey, ObjectId>, objects: Objects)
      ensures this.store == store && this.refs == refs && this.objects == objects
    {
      this.store, this.refs, this.objects := store, refs, objects;
    }

    /** Creates or restores the Version, with a history row, or finds it as it is; any other Version is a conflict. */
    method RecordVersion(key: TagKey, inspection: Inspection) returns (ok: bool)
      modifies store`versions, store`history
      ensures ok <==> PublishOperation(old(store.Rows()), key, inspection).Some?
      ensures store.versions == if ok then old(store.versions)[key := PublishedVersion(inspection)]
              else old(store.versions)
      ensures store.history == match PublishOperation(old(store.Rows()), key, inspection)
                               case Some(Some(operation)) => old(store.history) + [HistoryRow(key, operation, None,
                                   Some(inspection.commit), None)]
                               case _ => old(store.history)
    {
      var operation: Option<HistoryOperation> := None;
      if key !in store.versions {
        operation := Some(Published);
      } else if store.versions[key].status == Deleted {
        operation := Some(Restored);
      } else if store.versions[key] != PublishedVersion(inspection) {
        return false;
      } else {
        assert store.versions[key := PublishedVersion(inspection)] == store.versions;
        return true;
      }
      store.versions := store.versions[key := PublishedVersion(inspection)];
      store.history := store.history + [HistoryRow(key, operation.value, None, Some(inspection.commit), None)];
      ok := true;
    }

    method Publish(key: TagKey, makeDefault: bool) returns (status: ServiceStatus)
      modifies store
      ensures store.disk == old(store.disk)
      ensures (store.Rows(), status) == Lifecycle.Publish(old(store.Rows()), refs, objects, key, makeDefault)
      ensures status != Done ==> store.Rows() == old(store.Rows())
      ensures status == Done ==>
              key in refs && key in store.versions && store.versions[key].status == Available &&
              store.versions[key].raw == Some(refs[key])
      ensures store.versions - {key} == old(store.versions) - {key}
    {
      if key.plugin !in store.plugins {
        return NotFound;
      }
      if store.plugins[key.plugin].status == Archived || !RepositoryReadyFor(store.Rows(), key.plugin) {
        return Conflict;
      }
      var inspected := Inspect(refs, objects, key);
      if inspected.None? {
        return Conflict;
      }
      var inspection := inspected.value;
      if !ValidInspection(inspection) {
        return Unavailable;
      }
      if PluginBlocked(store.Rows(), key.plugin) {
        return Conflict;
      }
      var ok := RecordVersion(key, inspection);
      if !ok {
        return Conflict;
      }
      var row := store.plugins[key.plugin];
      if row.status == Draft {
        row := row.(status := Active);
      }
      if makeDefault && row.defaultTag != Some(key.tag) {
        row := row.(defaultTag := Some(key.tag));
      }
      store.plugins := store.plugins[key.plugin := row];
      status := Done;
    }

    method SetDefaultVersion(key: TagKey) returns (status: ServiceStatus)
      modifies store
      ensures store.disk == old(store.disk)
      ensures (store.Rows(), status) == SetDefault(old(store.Rows()), key)
      ensures store.versions == old(store.versions) && store.history == old(store.history)
      ensures if status == Done then key.plugin in store.plugins &&
              store.plugins[key.plugin].defaultTag == Some(key.tag) &&
                                     key in store.versions && store.versions[key].status == Available
              else store.plugins == old(store.plugins)
    {
      if key.plugin !in store.plugins {
        return NotFound;
      }
      var row := store.plugins[key.plugin];
      if row.status == Archived || !RepositoryReadyFor(store.Rows(), key.plugin) ||
          PluginBlocked(store.Rows(), key.plugin) {
        return Conflict;
      }
      if key !in store.versions || store.versions[key].status != Available {
        return Conflict;
      }
      if row.defaultTag == Some(key.tag) {
        assert store.plugins[key.plugin := row.(defaultTag := Some(key.tag))] == store.plugins;
        return Done;
      }
      store.plugins := store.plugins[key.plugin := row.(defaultTag := Some(key.tag))];
      status := Done;
    }

    method ClearDefault(plugin: Uuid) returns (status: ServiceStatus)
      modifies store
      ensures store.disk == old(store.disk)
      ensures (store.Rows(), status) == ClearDefaultVersion(old(store.Rows()), plugin)
      ensures store.versions == old(store.versions) && store.history == old(store.history)
      ensures if status == Done then plugin in store.plugins && store.plugins[plugin].defaultTag.None?
              else store.plugins == old(store.plugins)
    {
      if plugin !in store.plugins {
        return NotFound;
      }
      var row := store.plugins[plugin];
      if row.status == Archived || !RepositoryReadyFor(store.Rows(), plugin) || PluginBlocked(store.Rows(), plugin) {
        return Conflict;
      }
      store.plugins := store.plugins[plugin := row.(defaultTag := None)];
      status := Done;
    }

    method Archive(plugin: Uuid) returns (status: ServiceStatus)
      modifies store
      ensures store.disk == old(store.disk)
      ensures (store.Rows(), status) == Lifecycle.Archive(old(store.Rows()), plugin)
      ensures store.versions == old(store.versions) && store.history == old(store.history)
      ensures if status == Done then plugin in store.plugins && store.plugins[plugin].status == Archived
              else store.plugins == old(store.plugins)
    {
      if plugin !in store.plugins {
        return NotFound;
      }
      var row := store.plugins[plugin];
      if row.status == Archived {
        return Done;
      }
      store.plugins := store.plugins[plugin := row.(status := Archived, archivedFrom := Some(row.status))];
      status := Done;
    }

    method Restore(plugin: Uuid) returns (status: ServiceStatus)
      modifies store
      ensures store.disk == old(store.disk)
      ensures (store.Rows(), status) == Lifecycle.Restore(old(store.Rows()), plugin)
      ensures store.versions == old(store.versions) && store.history == old(store.history)
      ensures if status == Done then plugin in store.plugins && store.plugins[plugin].status != Archived
              else store.plugins == old(store.plugins)
    {
      if plugin !in store.plugins {
        return NotFound;
      }
      var row := store.plugins[plugin];
      if row.status != Archived || row.archivedFrom.None? || row.archivedFrom == Some(Archived) {
        return Conflict;
      }
      store.plugins := store.plugins[plugin := row.(status := row.archivedFrom.value, archivedFrom := None)];
      status := Done;
    }
  }
}
