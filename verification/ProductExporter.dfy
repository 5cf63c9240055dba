/** The event store, the journal and the exporter as objects; each method is the operation of the run model. */
module ProductExporter {
  import opened Wrappers
  import opened ProductMetrics
  import opened ProductTransport
  import opened ProductExport

  class JsonlProductEventStore {
    const maxEvents: nat
    var file: Option<seq<Event>>
    var consentFile: bool
    var consented: bool

    constructor (maxEvents: nat, file: Option<seq<Event>>, consentFile: bool)
      ensures this.maxEvents == maxEvents && this.file == file
      ensures this.consentFile == consentFile && consented == consentFile
    {
      this.maxEvents, this.file := maxEvents, file;
      this.consentFile, consented := consentFile, consentFile;
    }

    function Read(): seq<Event>
      reads this
    {
      file.GetOr([])
    }

    method GrantConsent()
      modifies this
      ensures consentFile && consented && file == old(file)
    {
      consentFile := true;
      consented := true;
    }

    /** False when nothing was stored: no consent, a malformed event, or (an error) a full store. */
    method Append(cfg: Config, event: RawEvent) returns (stored: bool)
      requires cfg.maxEvents == maxEvents
      modifies this`file
      ensures forall journal :: Disk(consentFile, file, journal)
                             == AppendTo(cfg, old(Disk(consentFile, file, journal)), consented, event)
      ensures stored ==> consented && Normalize(event).Some? && Read() == old(Read()) + [Normalize(event).value]
      ensures !stored ==> file == old(file)
    {
      if !consented {
        return false;
      }
      var normalized := Normalize(event);
      if normalized.None? {
        return false;
      }
      var existing := Read();
      if |existing| >= maxEvents {
        return false;
      }
      file := Some(existing + [normalized.value]);
      return true;
    }

    method PurgeBefore(cutoff: int) returns (removed: nat)
      modifies this`file
      ensures Read() == Since(old(Read()), cutoff)
      ensures removed == |old(Read())| - |Read()|
      ensures removed == 0 ==> file == old(file)
    {
      var events, retained := Read(), [];
      for i := 0 to |events|
        invariant file == old(file)
        invariant retained == Since(events[..i], cutoff) && |retained| <= i
        invariant |retained| == i ==> retained == events[..i]
      {
        assert events[..i + 1][..i] == events[..i];
        if events[i].day >= cutoff {
          retained := retained + [events[i]];
        }
      }
      assert events[..|events|] == events;
      removed := |events| - |retained|;
      if removed > 0 {
        file := Some(retained);
      }
    }

    method RevokeConsent()
      modifies this
      ensures !consentFile && !consented && file == None
    {
      consentFile := false;
      consented := false;
      file := None;
    }
  }

  class JsonProductExportJournal {
    const maxEntries: nat
    var entries: Journal

    constructor (maxEntries: nat, entries: Journal)
      ensures this.maxEntries == maxEntries && this.entries == entries
    {
      this.maxEntries, this.entries := maxEntries, entries;
    }

    /** False stands for the raised error of a full journal. */
    method Record(key: Key, count: Option<nat>, status: Status, error: Option<string>, more: bool) returns (ok: bool)
      modifies this
      ensures var r := ProductExport.Record(old(entries), maxEntries, key, count, status, error, more);
              ok == r.Some? && entries == r.GetOr(old(entries))
    {
      var previous: Option<Entry> := None;
      if key in entries {
        previous := Some(entries[key]);
      }
      if previous.None? && |entries| >= maxEntries {
        return false;
      }
      var total := if count.Some? then count.value else if previous.Some? then previous.value.count else 0;
      var attempts := if previous.Some? then previous.value.attempts else 0;
      if more {
        attempts := attempts + 1;
      }
      entries := entries[key := Entry(total, status, attempts, error)];
      return true;
    }
  }

  class ConsentGatedProductEventExporter {
    const store: JsonlProductEventStore
    const journal: JsonProductExportJournal
    const transport: HttpProductEventTransport
    const canDelete: bool
    ghost var removed: set<Key>

    constructor (
      store: JsonlProductEventStore, journal: JsonProductExportJournal, transport: HttpProductEventTransport,
      canDelete: bool)
      ensures this.store == store && this.journal == journal && this.transport == transport
      ensures this.canDelete == canDelete && removed == {}
    {
      this.store, this.journal, this.transport, this.canDelete := store, journal, transport, canDelete;
      removed := {};
    }

    ghost function Cfg(): Config {
      Config(store.maxEvents, journal.maxEntries, canDelete, transport.hasDeleteEndpoint,
             transport.maxAttempts, transport.requireBatchReceipt, transport.requireDeletionReceipt)
    }

    ghost function View(): World
      reads this, store, journal, transport
    {
      World(Disk(store.consentFile, store.file, journal.entries), store.consented, Idle, transport.receiver, removed)
    }

    method Export(wire: seq<Try>) returns (result: ExportResult)
      requires transport.Valid() && transport.maxAttempts <= |wire|
      modifies this, journal, transport
      ensures (View(), result) == ExportAll(Cfg(), old(View()), wire)
    {
      if !store.consented {
        return Disabled;
      }
      var batch := store.Read();
      if batch == [] {
        return Empty;
      }
      var key := Digest(batch);
      var announced := journal.Record(key, Some(|batch|), ExportPending, None, true);
      if !announced {
        return ExportResult.Failed(key);
      }
      removed := removed - {key};
      var sent := transport.SendBatch(batch, key, wire);
      if !sent {
        var _ := journal.Record(key, None, ExportPending, Some("transport_unavailable"), false);
        return ExportResult.Failed(key);
      }
      var _ := journal.Record(key, None, ExportSent, None, false);
      return Sent(|batch|, key);
    }

    method RevokeConsent(wire: seq<Try>) returns (result: RevokeResult)
      requires transport.Valid() && transport.maxAttempts <= |wire|
      modifies this, store, journal, transport
      ensures (View(), result) == RevokeAll(Cfg(), old(View()), wire)
    {
      if !store.consented {
        return Revoked(NotConfigured);
      }
      var batch := store.Read();
      var key := Digest(batch);
      if batch != [] {
        var announced := journal.Record(key, Some(|batch|), DeletionPending, None, false);
        if !announced {
          return NotRevoked;
        }
        removed := removed + {key};
      }
      store.RevokeConsent();
      if batch == [] || !canDelete {
        return Revoked(NotConfigured);
      }
      var deleted := transport.DeleteBatch(key, wire);
      if !deleted {
        var _ := journal.Record(key, None, DeletionFailed, Some("remote_delete_failed"), false);
        return Revoked(RemoteFailed);
      }
      var _ := journal.Record(key, None, Deleted, None, false);
      return Revoked(RemoteDeleted);
    }

    method RetryOne(key: Key, wire: seq<Try>) returns (ok: bool)
      requires transport.Valid() && transport.maxAttempts <= |wire| && key in journal.entries
      modifies journal, transport
      ensures ok == EraseSucceeds(Cfg(), key, wire)
      ensures Some(journal.entries) == RecordDeletion(old(journal.entries), journal.maxEntries, key, ok)
      ensures transport.receiver == Erase(Cfg(), old(transport.receiver), key, wire).0
    {
      ok := transport.DeleteBatch(key, wire);
      if !ok {
        var _ := journal.Record(key, None, DeletionFailed, Some("remote_delete_failed"), false);
      } else {
        var _ := journal.Record(key, None, Deleted, None, false);
      }
    }

    /**
     Goes through every waiting deletion once. Afterwards exactly the failed ones are waiting, the others are deleted,
     and no other entry has changed.
     */
    method RetryPendingDeletions(wires: Wires) returns (attempted: nat, deleted: nat, failed: nat)
      requires transport.Valid() && Wired(Cfg(), wires, PendingDeletions(journal.entries))
      modifies journal, transport
      ensures canDelete ==>
                var before := PendingDeletions(old(journal.entries));
                && attempted == |before| && attempted == deleted + failed
                && failed == |Undeleted(Cfg(), wires, before)|
                && PendingDeletions(journal.entries) == Undeleted(Cfg(), wires, before)
                && Passed(old(journal.entries), journal.entries, before, Undeleted(Cfg(), wires, before))
      ensures !canDelete ==>
                && attempted == 0 && deleted == 0 && failed == |PendingDeletions(journal.entries)|
                && journal.entries == old(journal.entries) && transport.receiver == old(transport.receiver)
    {
      var pending := PendingDeletions(journal.entries);
      if !canDelete {
        return 0, 0, |pending|;
      }
      ghost var cfg, before := Cfg(), journal.entries;
      deleted := 0;
      var todo := pending;
      ghost var lost: set<Key> := {};
      while todo != {}
        invariant PassSoFar(cfg, wires, before, journal.entries, todo, lost, deleted)
      {
        var key :| key in todo;
        ghost var now := journal.entries;
        var ok := RetryOne(key, wires[key]);
        PassStep(cfg, wires, before, now, todo, lost, deleted, key, journal.entries);
        if ok {
          deleted := deleted + 1;
        } else {
          lost := lost + {key};
        }
        todo := todo - {key};
      }
      assert pending - todo == pending;
      PassLeavesTheFailed(before, journal.entries, lost);
      return |pending|, deleted, |pending| - deleted;
    }
  }
}
