/** The locker's table of open ledgers. */
module Lockers {
  import opened Wrappers
  import opened DigestIndex
  import opened Ledgers
  import opened StorageRef

  datatype CreateError = BadSubject | LedgerExists | StorageFailed

  /** What the scan of the base path finds: opening may fail, and so may a read of the rebuild. */
  datatype DirEntry = DirEntry(name: string, isDir: bool, opens: bool, disk: Disk)

  /** What a ledger's directory holds: the entries, how many are integrated, and which read will fail. */
  datatype Stored = Stored(entries: seq<Bytes>, size: nat, fault: nat)

  type Disk = d: Stored | d.size <= |d.entries| witness Stored([], 0, 0)

  /** What the rebuild of an opened ledger reads. */
  function SeenOn(disk: Disk): seq<Bytes> {
    SeenBy(disk.entries, disk.size, disk.fault)
  }

  class Locker {
    var ledgers: map<string, Ledger>

    /** No two subjects share a ledger. */
    ghost predicate Valid()
      reads this, ledgers.Values
    {
      && (forall s :: s in ledgers ==> ledgers[s].Valid())
      && (forall a, b :: a in ledgers && b in ledgers && a != b ==> ledgers[a] != ledgers[b])
    }

    constructor ()
      ensures Valid() && ledgers == map[]
    {
      ledgers := map[];
    }

    /** Opens a ledger for a new subject over whatever is stored under its name. */
    method CreateLedger(subject: string, opens: bool, disk: Disk) returns (r: Result<Ledger, CreateError>)
      requires Valid()
      modifies this
      ensures Valid()
      ensures r == Err(BadSubject) <==> !ValidSubjectID(subject)
      ensures r == Err(LedgerExists) <==> ValidSubjectID(subject) && subject in old(ledgers)
      ensures r.Err? ==> ledgers == old(ledgers)
      ensures r.Ok? <==> ValidSubjectID(subject) && subject !in old(ledgers) && opens
      ensures r.Ok? ==> fresh(r.value) && ledgers == old(ledgers)[subject := r.value]
      ensures r.Ok? ==> r.value.log == disk.entries && r.value.digestIndex == IndexOf(SeenOn(disk))
    {
      if !ValidSubjectID(subject) {
        return Err(BadSubject);
      }
      if subject in ledgers {
        return Err(LedgerExists);
      }
      if !opens {
        return Err(StorageFailed);
      }
      var ledger := new Ledger(disk.entries, disk.size, disk.fault);
      ledgers := ledgers[subject := ledger];
      return Ok(ledger);
    }

    method GetLedger(subject: string) returns (r: Option<Ledger>)
      ensures r.Some? <==> subject in ledgers
      ensures r.Some? ==> r.value == ledgers[subject]
    {
      if subject in ledgers {
        return Some(ledgers[subject]);
      }
      return None;
    }

    /**
     * Restores the table at start-up. It skips what is not a directory, what is open already and
     * what fails to open, so a restart is complete exactly when every directory opens. Ledgers
     * open before keep their identity; each new one holds the stored log and the index of what its
     * rebuild read.
     */
    method OpenExistingLedgers(entries: seq<DirEntry>)
      requires Valid()
      modifies this
      ensures Valid()
      ensures forall s :: s in old(ledgers) ==> s in ledgers && ledgers[s] == old(ledgers)[s]
      ensures forall s :: s in ledgers <==> s in old(ledgers) || exists i :: 0 <= i < |entries| && Opens(entries[i], s)
      ensures forall s :: s in ledgers && s !in old(ledgers) ==> fresh(ledgers[s])
      ensures forall s :: s in ledgers && s !in old(ledgers) ==>
                exists i :: 0 <= i < |entries| && Opens(entries[i], s) && Restored(ledgers[s], entries[i])
    {
      for k := 0 to |entries|
        invariant Valid()
        invariant forall s :: s in old(ledgers) ==> s in ledgers && ledgers[s] == old(ledgers)[s]
        invariant forall s :: s in ledgers <==> s in old(ledgers) || exists i :: 0 <= i < k && Opens(entries[i], s)
        invariant forall s :: s in ledgers && s !in old(ledgers) ==> fresh(ledgers[s])
        invariant forall s :: s in ledgers && s !in old(ledgers) ==>
                    exists i :: 0 <= i < k && Opens(entries[i], s) && Restored(ledgers[s], entries[i])
      {
        var entry := entries[k];
        if !entry.isDir || entry.name in ledgers || !entry.opens {
          continue;
        }
        OpenOne(entry);
      }
    }

    /** Opens one directory's ledger and adds it to the table. */
    method OpenOne(entry: DirEntry)
      requires Valid() && entry.name !in ledgers
      modifies this
      ensures Valid() && entry.name in ledgers && ledgers == old(ledgers)[entry.name := ledgers[entry.name]]
      ensures fresh(ledgers[entry.name]) && Restored(ledgers[entry.name], entry)
    {
      var ledger := new Ledger(entry.disk.entries, entry.disk.size, entry.disk.fault);
      ledgers := ledgers[entry.name := ledger];
    }
  }

  predicate Opens(entry: DirEntry, subject: string) {
    entry.name == subject && entry.isDir && entry.opens
  }

  ghost predicate Restored(ledger: Ledger, entry: DirEntry)
    reads ledger
  {
    ledger.log == entry.disk.entries && ledger.integrated == entry.disk.size && ledger.digestIndex == IndexOf(SeenOn(entry.disk))
  }
}
