/**
 Reconciliation of etcd snapshot records against the snapshots found on disk and S3
 (reconcileSnapshotData in pkg/etcd/snapshot.go).  Times are seconds.

 Record names and the sanitised part of a key are arbitrary functions of the file and of its name;
 what is needed of them is stated where it is used.
 */
module SnapshotRecords {
  import opened Wrappers

  const ERROR_TTL := 24 * 60 * 60
  const S3_RECONCILE_TTL := 60

  /** A snapshot on disk or S3; `source` is the node it was taken on. */
  datatype File = File(name: string, s3: bool, source: string, failedAt: Option<int>)

  /** An ETCDSnapshotFile resource; `storage` names the storage it is kept on. */
  datatype Record = Record(snapshotName: string, s3: bool, storage: string, created: int, errorTime: Option<int>)

  type Records = map<string, Record>
  type Files = map<string, File>

  datatype Naming = Naming(recordName: File -> string, sanitize: string -> string)

  /** What one reconciliation works with: deleted snapshot names, storages looked at, and the time. */
  datatype Pass = Pass(naming: Naming, deleted: set<string>, storages: set<string>, now: int)

  function NameOf(naming: Naming, f: File): string {
    naming.recordName(f)
  }

  function FileKey(naming: Naming, f: File): string {
    (if f.s3 then "s3-" else "local-") + naming.sanitize(f.name)
  }

  function RecordKey(naming: Naming, r: Record): string {
    (if r.s3 then "s3-" else "local-") + naming.sanitize(r.snapshotName)
  }

  /** retainMissingETCDSnapshotFile. */
  predicate Retained(pass: Pass, r: Record) {
    && r.snapshotName !in pass.deleted
    && ((r.errorTime.Some? && pass.now < r.errorTime.value + ERROR_TTL) ||
        (r.s3 && pass.now < r.created + S3_RECONCILE_TTL))
  }

  predicate Selected(pass: Pass, r: Record) {
    r.storage in pass.storages
  }

  /** The record called `n` belongs to the file found under its key. */
  predicate Matches(pass: Pass, files: Files, n: string, r: Record) {
    var k := RecordKey(pass.naming, r);
    k in files && NameOf(pass.naming, files[k]) == n
  }

  /** ToETCDSnapshotFile on a new or an existing record: an S3 section, once present, stays. */
  function Written(f: File, existing: Option<Record>, now: int): Record {
    Record(f.name, f.s3 || (existing.Some? && existing.value.s3), if f.s3 then "s3" else f.source,
           if existing.Some? then existing.value.created else now,
           if f.failedAt.Some? then f.failedAt else if existing.Some? then existing.value.errorTime else None)
  }

  function Lookup(records: Records, n: string): Option<Record> {
    if n in records then Some(records[n]) else None
  }

  /** Records left once those in `done` have been synced. */
  function Synced(pass: Pass, records: Records, files: Files, done: set<string>): Records {
    map n | n in records && !(n in done && !Matches(pass, files, n, records[n]) && !Retained(pass, records[n])) :: records[n]
  }

  /** The file found under key `k` has its record among those in `done`. */
  predicate Claimed(pass: Pass, records: Records, files: Files, done: set<string>, k: string)
    requires k in files
  {
    var n := NameOf(pass.naming, files[k]);
    n in done && n in records && RecordKey(pass.naming, records[n]) == k
  }

  function Unclaimed(pass: Pass, records: Records, files: Files, done: set<string>): Files {
    map k | k in files && !Claimed(pass, records, files, done, k) :: files[k]
  }

  function SelectedNames(pass: Pass, records: Records): set<string> {
    set n | n in records && Selected(pass, records[n])
  }

  predicate Named(naming: Naming, files: Files, n: string) {
    exists k | k in files :: NameOf(naming, files[k]) == n
  }

  predicate HoldsWritten(pass: Pass, before: Records, f: File, after: Records) {
    var n := NameOf(pass.naming, f);
    n in after && after[n] == Written(f, Lookup(before, n), pass.now)
  }

  /** `after` is `before` with a record written for each of the files, and nothing else changed. */
  ghost predicate RecordsFor(pass: Pass, before: Records, files: Files, after: Records) {
    && (forall k | k in files :: HoldsWritten(pass, before, files[k], after))
    && (forall n | n in before :: n in after && (Named(pass.naming, files, n) || after[n] == before[n]))
    && (forall n | n in after :: n in before || Named(pass.naming, files, n))
  }

  /** Files have distinct record names and are stored under their keys. */
  predicate WellNamed(naming: Naming, files: Files) {
    && (forall k | k in files :: FileKey(naming, files[k]) == k)
    && (forall k, l | k in files && l in files && k != l :: NameOf(naming, files[k]) != NameOf(naming, files[l]))
  }

  function Names(listing: seq<string>): set<string> {
    set n | n in listing
  }

  // ---------- The loops ----------

  class Cluster {
    var records: Records

    constructor (records: Records)
      ensures this.records == records
    {
      this.records := records;
    }

    /** One listed record; returns the files that still need a record. */
    method SyncSnapshotFile(n: string, pass: Pass, snapshotFiles: Files) returns (rest: Files)
      requires n in records
      modifies this
      ensures var r := old(records)[n];
              if Matches(pass, snapshotFiles, n, r) then rest == snapshotFiles - {RecordKey(pass.naming, r)} && records == old(records)
              else rest == snapshotFiles && records == if Retained(pass, r) then old(records) else old(records) - {n}
    {
      var r := records[n];
      var sfKey := RecordKey(pass.naming, r);
      if sfKey in snapshotFiles && NameOf(pass.naming, snapshotFiles[sfKey]) == n {
        return snapshotFiles - {sfKey};
      }
      rest := snapshotFiles;
      if Retained(pass, r) {
        return;
      }
      records := records - {n};
    }

    method CreateMissingSnapshotFiles(pass: Pass, files: Files)
      requires WellNamed(pass.naming, files)
      modifies this
      ensures RecordsFor(pass, old(records), files, records)
    {
      ghost var before := records;
      var todo := files;
      while todo != map[]
        invariant todo.Keys <= files.Keys && forall k | k in todo :: todo[k] == files[k]
        invariant RecordsFor(pass, before, files - todo.Keys, records)
        decreases |todo|
      {
        var k :| k in todo;
        ghost var done := files - todo.Keys;
        WriteOneMore(pass, before, files, todo.Keys, k, records);
        var n := NameOf(pass.naming, todo[k]);
        records := records[n := Written(todo[k], Lookup(records, n), pass.now)];
        todo := todo - {k};
      }
      assert files - todo.Keys == files;
    }

    /** The pass over the selected records, in the order they are listed, and over the missing files. */
    method SyncWithStorages(pass: Pass, files: Files, listing: seq<string>)
      requires WellNamed(pass.naming, files)
      requires forall i, j | 0 <= i < j < |listing| :: listing[i] != listing[j]
      requires Names(listing) == SelectedNames(pass, records)
      modifies this
      ensures AfterPass(pass, old(records), files, records)
    {
      ghost var was := records;
      var snapshotFiles := files;
      for i := 0 to |listing|
        invariant records == Synced(pass, was, files, Names(listing[..i]))
        invariant snapshotFiles == Unclaimed(pass, was, files, Names(listing[..i]))
      {
        ghost var done := Names(listing[..i]);
        assert listing[..i + 1] == listing[..i] + [listing[i]];
        assert Names(listing[..i + 1]) == done + {listing[i]};
        assert listing[i] in SelectedNames(pass, was) && listing[i] !in done;
        SyncOneMore(pass, was, files, done, listing[i]);
        snapshotFiles := SyncSnapshotFile(listing[i], pass, snapshotFiles);
      }
      assert listing[..|listing|] == listing;
      CreateMissingSnapshotFiles(pass, snapshotFiles);
    }

    /** Deletes what is stored neither on S3 nor on a current etcd node, in any listing order. */
    method PruneOrphaned(etcdNodes: set<string>)
      modifies this
      ensures records == Pruned(old(records), etcdNodes)
    {
      ghost var was := records;
      var orphaned := set n | n in records && Orphaned(records[n], etcdNodes);
      while orphaned != {}
        invariant forall n | n in orphaned :: n in was && Orphaned(was[n], etcdNodes)
        invariant forall n | n in records :: n in was && records[n] == was[n]
        invariant forall n | n in was && n !in records :: Orphaned(was[n], etcdNodes)
        invariant forall n | n in records && Orphaned(was[n], etcdNodes) :: n in orphaned
        decreases |orphaned|
      {
        var n :| n in orphaned;
        records := records - {n};
        orphaned := orphaned - {n};
      }
    }

    /** The whole reconciliation: agentless servers stop before pruning. */
    method ReconcileSnapshotData(pass: Pass, files: Files, listing: seq<string>, disableAgent: bool, etcdNodes: set<string>)
      returns (ghost synced: Records)
      requires WellNamed(pass.naming, files)
      requires forall i, j | 0 <= i < j < |listing| :: listing[i] != listing[j]
      requires Names(listing) == SelectedNames(pass, records)
      modifies this
      ensures AfterPass(pass, old(records), files, synced)
      ensures records == if disableAgent then synced else Pruned(synced, etcdNodes)
    {
      SyncWithStorages(pass, files, listing);
      synced := records;
      if disableAgent {
        return;
      }
      PruneOrphaned(etcdNodes);
    }
  }

  predicate Orphaned(r: Record, etcdNodes: set<string>) {
    r.storage != "s3" && r.storage !in etcdNodes
  }

  /** The records of S3 and of the current etcd nodes. */
  function Pruned(records: Records, etcdNodes: set<string>): Records {
    map n | n in records && !Orphaned(records[n], etcdNodes) :: records[n]
  }

  lemma WriteOneMore(pass: Pass, before: Records, files: Files, todo: set<string>, k: string, now': Records)
    requires WellNamed(pass.naming, files) && k in todo && todo <= files.Keys
    requires RecordsFor(pass, before, files - todo, now')
    ensures var n := NameOf(pass.naming, files[k]);
            RecordsFor(pass, before, files - (todo - {k}), now'[n := Written(files[k], Lookup(now', n), pass.now)])
  {
    var n := NameOf(pass.naming, files[k]);
    var fewer, more := files - todo, files - (todo - {k});
    var after := now'[n := Written(files[k], Lookup(now', n), pass.now)];
    assert !Named(pass.naming, fewer, n);
    assert Lookup(now', n) == Lookup(before, n);
    assert k in more && Named(pass.naming, more, n);
    forall l | l in more
      ensures HoldsWritten(pass, before, more[l], after)
    {
      if l != k {
        assert l in fewer && fewer[l] == more[l];
        assert HoldsWritten(pass, before, fewer[l], now');
      }
    }
    forall m | Named(pass.naming, fewer, m)
      ensures Named(pass.naming, more, m)
    {
      var l :| l in fewer && NameOf(pass.naming, fewer[l]) == m;
      assert l in more && more[l] == fewer[l];
    }
  }

  lemma SyncOneMore(pass: Pass, records: Records, files: Files, done: set<string>, n: string)
    requires n in records && n !in done
    ensures var now', left := Synced(pass, records, files, done), Unclaimed(pass, records, files, done);
            var r := records[n];
            && n in now' && now'[n] == r && (Matches(pass, left, n, r) <==> Matches(pass, files, n, r))
            && Synced(pass, records, files, done + {n}) ==
                 (if Matches(pass, files, n, r) || Retained(pass, r) then now' else now' - {n})
            && Unclaimed(pass, records, files, done + {n}) ==
                 (if Matches(pass, files, n, r) then left - {RecordKey(pass.naming, r)} else left)
  {
  }

  // ---------- Retention ----------

  /**
   The record written for a failed snapshot carries the time of the failure.  Once its file is gone it
   is kept for the 86,400 seconds of a day from then, and no longer unless it is a fresh S3 record.
   */
  lemma FailedSnapshotIsKeptADay(pass: Pass, f: File, existing: Option<Record>, written: int, failed: int)
    requires f.failedAt == Some(failed)
    ensures var r := Written(f, existing, written);
            && r.errorTime == Some(failed) && r.snapshotName == f.name
            && (f.name !in pass.deleted && pass.now < failed + 86_400 ==> Retained(pass, r))
            && (pass.now >= failed + 86_400 && (!r.s3 || pass.now >= r.created + 60) ==> !Retained(pass, r))
            && (f.name in pass.deleted ==> !Retained(pass, r))
  {
  }

  /** A new S3 record is kept for a minute from its creation, a new local one not at all. */
  lemma NewRecordIsKeptAMinute(pass: Pass, f: File, written: int)
    requires f.failedAt.None? && f.name !in pass.deleted
    ensures var r := Written(f, None, written);
            && r.created == written && r.errorTime.None?
            && (Retained(pass, r) <==> f.s3 && pass.now < written + 60)
  {
  }

  /** A record that is rewritten keeps its creation time, and its error unless there is a newer one. */
  lemma RewrittenRecordKeeps(f: File, existing: Record, now: int)
    ensures var r := Written(f, Some(existing), now);
            && r.created == existing.created
            && (f.failedAt.None? ==> r.errorTime == existing.errorTime)
            && (existing.s3 ==> r.s3)
  {
  }

  // ---------- Convergence ----------

  /** The records that exist before: an S3 section and the S3 storage go together. */
  predicate WellLabelled(records: Records) {
    forall n | n in records :: records[n].s3 <==> records[n].storage == "s3"
  }

  /** Local files come from the node looked at; a record of a file's name is of the file's kind. */
  predicate Compatible(pass: Pass, node: string, records: Records, files: Files) {
    && node != "s3" && pass.storages <= {node, "s3"} && node in pass.storages
    && (forall k | k in files :: if files[k].s3 then "s3" in pass.storages else files[k].source == node)
    && (forall k | k in files && NameOf(pass.naming, files[k]) in records ::
          records[NameOf(pass.naming, files[k])].s3 == files[k].s3)
  }

  /** The records after one error-free pass. */
  ghost predicate AfterPass(pass: Pass, records: Records, files: Files, after: Records) {
    var selected := SelectedNames(pass, records);
    RecordsFor(pass, Synced(pass, records, files, selected), Unclaimed(pass, records, files, selected), after)
  }

  /** The file under key `k` has a selected record of its name and key. */
  predicate HasRecord(pass: Pass, records: Records, files: Files, k: string)
    requires k in files
  {
    var n := NameOf(pass.naming, files[k]);
    n in records && Selected(pass, records[n]) && RecordKey(pass.naming, records[n]) == k
  }

  lemma FileGetsRecord(pass: Pass, node: string, records: Records, files: Files, after: Records, k: string)
    requires WellNamed(pass.naming, files) && Compatible(pass, node, records, files)
    requires AfterPass(pass, records, files, after) && k in files
    ensures HasRecord(pass, after, files, k)
  {
    var selected := SelectedNames(pass, records);
    var n := NameOf(pass.naming, files[k]);
    var synced, left := Synced(pass, records, files, selected), Unclaimed(pass, records, files, selected);
    if Claimed(pass, records, files, selected, k) {
      assert n in synced && synced[n] == records[n];
      assert forall l | l in left :: NameOf(pass.naming, left[l]) != n;
      assert after[n] == records[n];
    } else {
      assert k in left && left[k] == files[k];
      assert after[n] == Written(files[k], Lookup(synced, n), pass.now);
      assert FileKey(pass.naming, files[k]) == k;
    }
  }

  /** MAIN: every snapshot has its record; every other surviving record of these storages is retained. */
  lemma PassConverges(pass: Pass, node: string, records: Records, files: Files, after: Records)
    requires WellNamed(pass.naming, files) && Compatible(pass, node, records, files)
    requires AfterPass(pass, records, files, after)
    ensures forall k | k in files :: HasRecord(pass, after, files, k)
    ensures forall n | n in after && Selected(pass, after[n]) :: Matches(pass, files, n, after[n]) || Retained(pass, after[n])
    ensures forall n | n in records && !Selected(pass, records[n]) :: n in after
  {
    var selected := SelectedNames(pass, records);
    var synced, left := Synced(pass, records, files, selected), Unclaimed(pass, records, files, selected);
    forall k | k in files
      ensures HasRecord(pass, after, files, k)
    {
      FileGetsRecord(pass, node, records, files, after, k);
    }
    forall n | n in after && Selected(pass, after[n])
      ensures Matches(pass, files, n, after[n]) || Retained(pass, after[n])
    {
      if k :| k in left && NameOf(pass.naming, left[k]) == n {
        assert HasRecord(pass, after, files, k);
      } else {
        assert n in synced && after[n] == synced[n] == records[n];
        assert n in selected;
      }
    }
  }

  /** A matched record is left as it was, and a retained one stays. */
  lemma RetainedSurvive(pass: Pass, records: Records, files: Files, after: Records, n: string)
    requires WellNamed(pass.naming, files) && AfterPass(pass, records, files, after) && n in records
    ensures !Selected(pass, records[n]) || Matches(pass, files, n, records[n]) || Retained(pass, records[n]) ==> n in after
    ensures Selected(pass, records[n]) && Matches(pass, files, n, records[n]) ==> after[n] == records[n]
  {
    var selected := SelectedNames(pass, records);
    var synced, left := Synced(pass, records, files, selected), Unclaimed(pass, records, files, selected);
    if Selected(pass, records[n]) && Matches(pass, files, n, records[n]) {
      var k := RecordKey(pass.naming, records[n]);
      assert Claimed(pass, records, files, selected, k);
      assert !Named(pass.naming, left, n);
      assert n in synced && synced[n] == records[n];
    }
  }

  lemma NothingToDelete(pass: Pass, records: Records, files: Files)
    requires forall n | n in records && Selected(pass, records[n]) :: Matches(pass, files, n, records[n]) || Retained(pass, records[n])
    ensures Synced(pass, records, files, SelectedNames(pass, records)) == records
  {
  }

  lemma NothingToCreate(pass: Pass, records: Records, files: Files)
    requires forall k | k in files :: HasRecord(pass, records, files, k)
    ensures Unclaimed(pass, records, files, SelectedNames(pass, records)) == map[]
  {
    var selected := SelectedNames(pass, records);
    forall k | k in files
      ensures Claimed(pass, records, files, selected, k)
    {
      assert HasRecord(pass, records, files, k);
    }
  }

  /** MAIN: a second pass at the same time deletes nothing, creates nothing and changes nothing. */
  lemma SecondPassIsIdle(pass: Pass, node: string, records: Records, files: Files, once: Records, twice: Records)
    requires WellNamed(pass.naming, files) && Compatible(pass, node, records, files)
    requires AfterPass(pass, records, files, once) && AfterPass(pass, once, files, twice)
    ensures Unclaimed(pass, once, files, SelectedNames(pass, once)) == map[]
    ensures twice == once
  {
    PassConverges(pass, node, records, files, once);
    NothingToCreate(pass, once, files);
    NothingToDelete(pass, once, files);
    WritesNothing(pass, once, twice);
  }

  lemma WritesNothing(pass: Pass, before: Records, after: Records)
    requires RecordsFor(pass, before, map[], after)
    ensures after == before
  {
    assert forall n :: !Named(pass.naming, map[], n);
  }

  /**
   Pruning comes after the pass and looks at the nodes labelled as etcd nodes.  Every snapshot keeps
   its record exactly when this node is among them or has no local snapshot.
   */
  lemma PruneKeepsRecordsExactlyWhen(pass: Pass, node: string, records: Records, files: Files, after: Records, etcdNodes: set<string>)
    requires WellNamed(pass.naming, files) && Compatible(pass, node, records, files) && WellLabelled(records)
    requires AfterPass(pass, records, files, after)
    ensures (forall k | k in files :: HasRecord(pass, Pruned(after, etcdNodes), files, k)) <==>
            node in etcdNodes || (forall k | k in files :: files[k].s3)
  {
    var pruned := Pruned(after, etcdNodes);
    forall k | k in files
      ensures HasRecord(pass, pruned, files, k) <==> node in etcdNodes || files[k].s3
    {
      FileGetsRecord(pass, node, records, files, after, k);
      RecordLabel(pass, node, records, files, after, k);
    }
  }

  lemma RecordLabel(pass: Pass, node: string, records: Records, files: Files, after: Records, k: string)
    requires WellNamed(pass.naming, files) && Compatible(pass, node, records, files) && WellLabelled(records)
    requires AfterPass(pass, records, files, after) && k in files && HasRecord(pass, after, files, k)
    ensures after[NameOf(pass.naming, files[k])].storage == if files[k].s3 then "s3" else node
  {
    var selected := SelectedNames(pass, records);
    var n := NameOf(pass.naming, files[k]);
    var synced, left := Synced(pass, records, files, selected), Unclaimed(pass, records, files, selected);
    if Claimed(pass, records, files, selected, k) {
      assert n in synced && forall l | l in left :: NameOf(pass.naming, left[l]) != n;
      assert after[n] == records[n];
    } else {
      assert k in left && left[k] == files[k];
      assert after[n] == Written(files[k], Lookup(synced, n), pass.now);
    }
  }
}
