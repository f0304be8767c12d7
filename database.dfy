/**
 * The local database as a value: a map from object-store name to the map
 * from key to record that the store holds. Opening with the schema
 * upgrade, `put`, `get`, `delete`, and what one drain of the outbox does
 * to the database.
 */
module Database {
  import opened Wrappers
  import opened Records

  type ObjectStore = map<string, Record>
  type Db = map<StoreName, ObjectStore>

  const DB_NAME: string := "AmasampoDB_v14"
  const DB_VERSION: nat := 14

  /** Every record sits under its own key, in a store meant for its kind. */
  ghost predicate WellFormed(db: Db)
  {
    forall s, k :: s in db && k in db[s] ==> Fits(s, k, db[s][k])
  }

  /** Every outbox entry names a store whose writes go through the outbox. */
  ghost predicate OutboxTargetsSynced(db: Db)
  {
    SYNC_QUEUE in db ==>
      forall k :: k in db[SYNC_QUEUE] ==>
        db[SYNC_QUEUE][k].QueueRec? && db[SYNC_QUEUE][k].item.store in SyncedStores
  }

  /**
   * The upgrade run when the database is opened: every store of the
   * schema that is missing is created empty (with its key path, see
   * `KeyPathOf`); the stores already on disk keep their contents.
   */
  function Upgrade(onDisk: Db): (db: Db)
    ensures db.Keys == AllStores && forall s :: s in db
    ensures forall s :: s in onDisk ==> s in db && db[s] == onDisk[s]
    ensures forall s :: s !in onDisk ==> s in db && db[s] == map[]
  {
    AllStoresComplete();
    map s | s in AllStores :: if s in onDisk then onDisk[s] else map[]
  }

  /** Opening an up-to-date database changes nothing, so the upgrade may run on every open. */
  lemma UpgradeIdempotent(onDisk: Db)
    ensures Upgrade(Upgrade(onDisk)) == Upgrade(onDisk)
  {
  }

  lemma UpgradeWellFormed(onDisk: Db)
    requires WellFormed(onDisk) && OutboxTargetsSynced(onDisk)
    ensures WellFormed(Upgrade(onDisk)) && OutboxTargetsSynced(Upgrade(onDisk))
  {
  }

  /** `store.get(k)`: the record, or an explicit "not found". */
  function Get(db: Db, s: StoreName, k: string): (r: Option<Record>)
    requires s in db
    ensures r.Some? <==> k in db[s]
    ensures r.Some? ==> db[s][k] == r.value
  {
    if k in db[s] then Some(db[s][k]) else None
  }

  /** `store.put(r)`: an upsert under the record's key path value. */
  function Put(db: Db, s: StoreName, r: Record): (d: Db)
    requires s in db && KindFits(s, r)
    ensures d.Keys == db.Keys
    ensures Get(d, s, PrimaryKey(s, r)) == Some(r)
    ensures forall t, k :: t in db && (t != s || k != PrimaryKey(s, r)) ==> Get(d, t, k) == Get(db, t, k)
  {
    db[s := db[s][PrimaryKey(s, r) := r]]
  }

  /** `store.delete(k)`: removes the key; a missing key is a no-op. */
  function Delete(db: Db, s: StoreName, k: string): (d: Db)
    requires s in db
    ensures d.Keys == db.Keys
    ensures Get(d, s, k) == None
    ensures forall t, j :: t in db && (t != s || j != k) ==> Get(d, t, j) == Get(db, t, j)
  {
    db[s := db[s] - {k}]
  }

  /** Putting the same record twice leaves the state one put leaves. */
  lemma PutIdempotent(db: Db, s: StoreName, r: Record)
    requires s in db && KindFits(s, r)
    ensures Put(Put(db, s, r), s, r) == Put(db, s, r)
  {
    assert Put(Put(db, s, r), s, r)[s] == Put(db, s, r)[s];
  }

  lemma DeleteIdempotent(db: Db, s: StoreName, k: string)
    requires s in db
    ensures Delete(Delete(db, s, k), s, k) == Delete(db, s, k)
  {
    assert Delete(Delete(db, s, k), s, k)[s] == Delete(db, s, k)[s];
  }

  /** A put of a new key followed by a delete of that key restores the database. */
  lemma PutThenDelete(db: Db, s: StoreName, r: Record)
    requires s in db && KindFits(s, r) && PrimaryKey(s, r) !in db[s]
    ensures Delete(Put(db, s, r), s, PrimaryKey(s, r)) == db
  {
    assert Delete(Put(db, s, r), s, PrimaryKey(s, r))[s] == db[s];
  }

  /** A delete followed by a put of a record under the same key restores the store's keys. */
  lemma DeleteThenPutKeys(db: Db, s: StoreName, r: Record)
    requires s in db && KindFits(s, r) && PrimaryKey(s, r) in db[s]
    ensures Put(Delete(db, s, PrimaryKey(s, r)), s, r)[s].Keys == db[s].Keys
    ensures Put(Delete(db, s, PrimaryKey(s, r)), s, r) == Put(db, s, r)
  {
    assert Put(Delete(db, s, PrimaryKey(s, r)), s, r)[s] == Put(db, s, r)[s];
  }

  /** Putting the record already stored under its key changes nothing. */
  lemma PutUnchanged(db: Db, s: StoreName, r: Record)
    requires s in db && KindFits(s, r) && PrimaryKey(s, r) in db[s] && db[s][PrimaryKey(s, r)] == r
    ensures Put(db, s, r) == db
  {
    assert Put(db, s, r)[s] == db[s];
  }

  lemma PutWellFormed(db: Db, s: StoreName, r: Record)
    requires WellFormed(db) && s in db && KindFits(s, r)
    requires s == SYNC_QUEUE ==> r.item.store in SyncedStores
    ensures WellFormed(Put(db, s, r))
    ensures OutboxTargetsSynced(db) ==> OutboxTargetsSynced(Put(db, s, r))
  {
    var d := Put(db, s, r);
    var pk := PrimaryKey(s, r);
    assert d == db[s := db[s][pk := r]];
    forall t, k | t in d && k in d[t] ensures Fits(t, k, d[t][k]) {
      if t != s || k != pk {
        assert d[t][k] == db[t][k];
      }
    }
  }

  lemma DeleteWellFormed(db: Db, s: StoreName, k: string)
    requires WellFormed(db) && s in db
    ensures WellFormed(Delete(db, s, k))
    ensures OutboxTargetsSynced(db) ==> OutboxTargetsSynced(Delete(db, s, k))
  {
  }

  // ---- the outbox drain ----

  /** The live records the drain stamps for the entries `done` of the outbox `queue`. */
  ghost function Targets(queue: ObjectStore, done: set<string>): set<(StoreName, string)>
  {
    set k | k in done && k in queue && queue[k].QueueRec? && LookupKey(queue[k].item.data).Some?
      :: (queue[k].item.store, LookupKey(queue[k].item.data).value)
  }

  /** Every targeted record present in the database is stamped `SYNCED`; nothing else changes. */
  ghost function Stamped(db: Db, targets: set<(StoreName, string)>): Db
  {
    map s | s in db :: map k | k in db[s] :: if (s, k) in targets then SetSynced(db[s][k]) else db[s][k]
  }

  /** The database after the outbox entries `done` (keys of `db[SYNC_QUEUE]`) were processed. */
  ghost function Drained(db: Db, done: set<string>): Db
    requires SYNC_QUEUE in db
  {
    Stamped(db, Targets(db[SYNC_QUEUE], done))[SYNC_QUEUE := db[SYNC_QUEUE] - done]
  }

  /**
   * One iteration of the drain loop on the live database `d`: `get` the
   * record the entry names and, if present, `put` it back stamped; then
   * `delete` the entry from the outbox.
   */
  function DrainStep(d: Db, item: SyncItem, key: string): (d': Db)
    requires SYNC_QUEUE in d && item.store in d && LookupKey(item.data).Some?
    ensures d'.Keys == d.Keys
  {
    var st := item.store;
    var lk := LookupKey(item.data).value;
    var d1 := if lk in d[st] then d[st := d[st][lk := SetSynced(d[st][lk])]] else d;
    d1[SYNC_QUEUE := d1[SYNC_QUEUE] - {key}]
  }

  /** The step is exactly a `put` of the stamped record followed by a `delete` of the entry. */
  lemma DrainStepIsPutDelete(d: Db, item: SyncItem, key: string)
    requires WellFormed(d) && SYNC_QUEUE in d && item.store in d && item.store in SyncedStores
    requires LookupKey(item.data).Some? && LookupKey(item.data).value in d[item.store]
    ensures var lk := LookupKey(item.data).value;
      KindFits(item.store, SetSynced(d[item.store][lk])) &&
      DrainStep(d, item, key) == Delete(Put(d, item.store, SetSynced(d[item.store][lk])), SYNC_QUEUE, key)
  {
    var lk := LookupKey(item.data).value;
    SetSyncedFits(item.store, lk, d[item.store][lk]);
  }

  lemma DrainStepWellFormed(d: Db, item: SyncItem, key: string)
    requires WellFormed(d) && OutboxTargetsSynced(d) && SYNC_QUEUE in d && item.store in d
    requires item.store in SyncedStores && LookupKey(item.data).Some?
    ensures WellFormed(DrainStep(d, item, key)) && OutboxTargetsSynced(DrainStep(d, item, key))
  {
    var lk := LookupKey(item.data).value;
    if lk in d[item.store] {
      SetSyncedFits(item.store, lk, d[item.store][lk]);
    }
  }

  lemma DrainedWellFormed(db: Db, done: set<string>)
    requires WellFormed(db) && OutboxTargetsSynced(db) && SYNC_QUEUE in db
    ensures WellFormed(Drained(db, done)) && OutboxTargetsSynced(Drained(db, done))
    ensures Drained(db, done).Keys == db.Keys
  {
    var d := Drained(db, done);
    var T := Targets(db[SYNC_QUEUE], done);
    forall s, k | s in d && k in d[s] ensures Fits(s, k, d[s][k]) {
      if s != SYNC_QUEUE && (s, k) in T {
        SetSyncedFits(s, k, db[s][k]);
      }
    }
  }

  /** Before the first entry is processed the database is the snapshot itself. */
  lemma DrainedNothing(db: Db)
    requires SYNC_QUEUE in db
    ensures Drained(db, {}) == db
  {
    assert Targets(db[SYNC_QUEUE], {}) == {};
    forall s | s in db ensures Drained(db, {})[s] == db[s] {
    }
  }

  lemma TargetsAdd(q: ObjectStore, done: set<string>, k: string)
    requires k in q && q[k].QueueRec? && LookupKey(q[k].item.data).Some?
    ensures Targets(q, done + {k}) == Targets(q, done) + {(q[k].item.store, LookupKey(q[k].item.data).value)}
  {
  }

  /** A store other than the outbox, after the drain: the targeted records stamped. */
  lemma DrainedSlot(db: Db, done: set<string>, s: StoreName)
    requires SYNC_QUEUE in db && s in db && s != SYNC_QUEUE
    ensures s in Drained(db, done)
    ensures Drained(db, done)[s] == map k | k in db[s] :: if (s, k) in Targets(db[SYNC_QUEUE], done) then SetSynced(db[s][k]) else db[s][k]
  {
  }

  /** The targeted store gains one stamped record when one more entry is processed. */
  lemma DrainedTargetSlot(db: Db, done: set<string>, k: string, st: StoreName, lk: string)
    requires SYNC_QUEUE in db && st in db && st != SYNC_QUEUE && k in db[SYNC_QUEUE]
    requires db[SYNC_QUEUE][k].QueueRec? && db[SYNC_QUEUE][k].item.store == st
    requires LookupKey(db[SYNC_QUEUE][k].item.data) == Some(lk)
    ensures lk in db[st] ==> Drained(db, done + {k})[st] == Drained(db, done)[st][lk := SetSynced(db[st][lk])]
    ensures lk !in db[st] ==> Drained(db, done + {k})[st] == Drained(db, done)[st]
  {
    var q := db[SYNC_QUEUE];
    TargetsAdd(q, done, k);
    DrainedSlot(db, done, st);
    DrainedSlot(db, done + {k}, st);
    if lk in db[st] {
      SetSyncedIdempotent(db[st][lk]);
    }
  }

  /** A store the entry does not name is left as it was. */
  lemma DrainedOtherSlot(db: Db, done: set<string>, k: string, s: StoreName)
    requires SYNC_QUEUE in db && s in db && s != SYNC_QUEUE && k in db[SYNC_QUEUE]
    requires db[SYNC_QUEUE][k].QueueRec? && db[SYNC_QUEUE][k].item.store != s
    requires LookupKey(db[SYNC_QUEUE][k].item.data).Some?
    ensures Drained(db, done + {k})[s] == Drained(db, done)[s]
  {
    TargetsAdd(db[SYNC_QUEUE], done, k);
    DrainedSlot(db, done, s);
    DrainedSlot(db, done + {k}, s);
  }

  /** What one `DrainStep` leaves in each store. */
  lemma DrainStepSlot(d: Db, item: SyncItem, key: string, s: StoreName)
    requires SYNC_QUEUE in d && item.store in d && item.store != SYNC_QUEUE && LookupKey(item.data).Some? && s in d
    ensures DrainStep(d, item, key)[s] ==
      if s == SYNC_QUEUE then d[SYNC_QUEUE] - {key}
      else if s == item.store && LookupKey(item.data).value in d[s]
      then d[s][LookupKey(item.data).value := SetSynced(d[s][LookupKey(item.data).value])]
      else d[s]
  {
  }

  /** The named store after one more entry of the snapshot is processed. */
  lemma DrainedStepTarget(db: Db, done: set<string>, k: string)
    requires SYNC_QUEUE in db && k in db[SYNC_QUEUE] && k !in done && db[SYNC_QUEUE][k].QueueRec?
    requires db[SYNC_QUEUE][k].item.store in db && db[SYNC_QUEUE][k].item.store != SYNC_QUEUE
    requires LookupKey(db[SYNC_QUEUE][k].item.data).Some?
    ensures var st := db[SYNC_QUEUE][k].item.store;
      Drained(db, done + {k})[st] == DrainStep(Drained(db, done), db[SYNC_QUEUE][k].item, k)[st]
  {
    var item := db[SYNC_QUEUE][k].item;
    var st := item.store;
    var lk := LookupKey(item.data).value;
    var L := Drained(db, done);
    DrainedTargetSlot(db, done, k, st, lk);
    DrainedSlot(db, done, st);
    DrainStepSlot(L, item, k, st);
    if lk in db[st] {
      SetSyncedIdempotent(db[st][lk]);
    }
  }

  /** A store the entry does not name, after one more entry of the snapshot is processed. */
  lemma DrainedStepOther(db: Db, done: set<string>, k: string, s: StoreName)
    requires SYNC_QUEUE in db && k in db[SYNC_QUEUE] && k !in done && db[SYNC_QUEUE][k].QueueRec?
    requires db[SYNC_QUEUE][k].item.store in db && db[SYNC_QUEUE][k].item.store != SYNC_QUEUE
    requires LookupKey(db[SYNC_QUEUE][k].item.data).Some? && s in db && s != db[SYNC_QUEUE][k].item.store
    ensures Drained(db, done + {k})[s] == DrainStep(Drained(db, done), db[SYNC_QUEUE][k].item, k)[s]
  {
    DrainStepSlot(Drained(db, done), db[SYNC_QUEUE][k].item, k, s);
    if s != SYNC_QUEUE {
      DrainedOtherSlot(db, done, k, s);
    }
  }

  /** Processing one more entry of the snapshot is one `DrainStep` on the database drained so far. */
  lemma {:induction false} DrainedStep(db: Db, done: set<string>, k: string)
    requires SYNC_QUEUE in db && k in db[SYNC_QUEUE] && k !in done && db[SYNC_QUEUE][k].QueueRec?
    requires db[SYNC_QUEUE][k].item.store in db && db[SYNC_QUEUE][k].item.store != SYNC_QUEUE
    requires LookupKey(db[SYNC_QUEUE][k].item.data).Some?
    ensures Drained(db, done + {k}) == DrainStep(Drained(db, done), db[SYNC_QUEUE][k].item, k)
  {
    var R := Drained(db, done + {k});
    var S := DrainStep(Drained(db, done), db[SYNC_QUEUE][k].item, k);
    forall s | s in db ensures R[s] == S[s] {
      if s == db[SYNC_QUEUE][k].item.store {
        DrainedStepTarget(db, done, k);
      } else {
        DrainedStepOther(db, done, k, s);
      }
    }
  }

  /** Re-stamping records that are already stamped changes nothing (a replayed drain is harmless). */
  lemma StampedIdempotent(db: Db, targets: set<(StoreName, string)>)
    ensures Stamped(Stamped(db, targets), targets) == Stamped(db, targets)
  {
    var once := Stamped(db, targets);
    forall s | s in db ensures Stamped(once, targets)[s] == once[s] {
      forall k | k in db[s] && (s, k) in targets ensures SetSynced(once[s][k]) == once[s][k] {
        SetSyncedIdempotent(db[s][k]);
      }
    }
  }

  /** After a full drain the outbox is empty and every record it named is `SYNCED`. */
  lemma DrainedAll(db: Db, s: StoreName, k: string)
    requires SYNC_QUEUE in db && s in db && s != SYNC_QUEUE && k in db[s]
    requires (s, k) in Targets(db[SYNC_QUEUE], db[SYNC_QUEUE].Keys) && HasSyncStatus(db[s][k])
    ensures Drained(db, db[SYNC_QUEUE].Keys)[SYNC_QUEUE] == map[]
    ensures SyncStatusOf(Drained(db, db[SYNC_QUEUE].Keys)[s][k]) == Some(Synced)
  {
  }

  /** The drain touches only records the outbox names. */
  lemma DrainedLeavesOthers(db: Db, done: set<string>, s: StoreName, k: string)
    requires SYNC_QUEUE in db && s in db && s != SYNC_QUEUE && k in db[s]
    requires (s, k) !in Targets(db[SYNC_QUEUE], done)
    ensures Drained(db, done)[s][k] == db[s][k]
  {
  }
}
