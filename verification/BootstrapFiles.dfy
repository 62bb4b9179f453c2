/**
 Reconciliation of bootstrap files on disk with the datastore (ReconcileBootstrapData in
 pkg/cluster/bootstrap.go, WriteToDiskFromStorage in pkg/bootstrap/bootstrap.go), from the point
 where both have been read.  Times are nanoseconds and compared in whole seconds.
 */
module BootstrapFiles {

  const SYSTEM_TIME_SKEW := 3
  const SECOND := 1_000_000_000

  datatype File = File(timestamp: int, content: string)

  type Path = string
  type Disk = map<Path, File>

  datatype Result = NewerOnDisk(paths: set<Path>) | Reconciled(updated: bool)

  function Unix(t: int): int {
    t / SECOND
  }

  /** Keys of the datastore that this server has a path for. */
  function Known(files: map<string, File>, paths: map<string, Path>): set<string> {
    set k | k in files && k in paths && paths[k] != ""
  }

  predicate Differs(disk: Disk, path: Path, f: File) {
    path !in disk || disk[path].content != f.content
  }

  /** The differing file on disk is at least three seconds younger. */
  predicate Newer(disk: Disk, path: Path, f: File) {
    path in disk && disk[path].content != f.content && Unix(disk[path].timestamp) - Unix(f.timestamp) >= SYSTEM_TIME_SKEW
  }

  predicate AnyDiffers(disk: Disk, files: map<string, File>, paths: map<string, Path>, keys: set<string>)
    requires keys <= Known(files, paths)
  {
    exists k | k in keys :: Differs(disk, paths[k], files[k])
  }

  function NewerPaths(disk: Disk, files: map<string, File>, paths: map<string, Path>, keys: set<string>): set<Path>
    requires keys <= Known(files, paths)
  {
    set k | k in keys && Newer(disk, paths[k], files[k]) :: paths[k]
  }

  predicate DistinctPaths(files: map<string, File>, paths: map<string, Path>) {
    forall k, l | k in Known(files, paths) && l in Known(files, paths) && k != l :: paths[k] != paths[l]
  }

  predicate Hit(paths: map<string, Path>, keys: set<string>, p: Path)
    requires keys <= paths.Keys
  {
    exists k | k in keys :: paths[k] == p
  }

  /** `after` is `disk` with the files of the given keys written, and nothing else changed. */
  ghost predicate WrittenTo(disk: Disk, files: map<string, File>, paths: map<string, Path>, keys: set<string>, after: Disk)
    requires keys <= Known(files, paths)
  {
    && (forall k | k in keys :: paths[k] in after && after[paths[k]] == files[k])
    && (forall p | p in disk :: p in after && (Hit(paths, keys, p) || after[p] == disk[p]))
    && (forall p | p in after :: p in disk || Hit(paths, keys, p))
  }

  method IsNewerFile(disk: Disk, path: Path, f: File) returns (updated: bool, newerOnDisk: bool)
    ensures updated <==> Differs(disk, path, f)
    ensures newerOnDisk <==> Newer(disk, path, f)
  {
    if path !in disk {
      return true, false;
    }
    if f.content == disk[path].content {
      return false, false;
    }
    if Unix(disk[path].timestamp) - Unix(f.timestamp) >= SYSTEM_TIME_SKEW {
      return true, true;
    }
    return true, false;
  }

  /** How ReconcileBootstrapData may end, and what it leaves on disk. */
  ghost predicate Outcome(disk: Disk, files: map<string, File>, paths: map<string, Path>, clusterReset: bool, r: Result, after: Disk) {
    var known := Known(files, paths);
    var newer := NewerPaths(disk, files, paths, known);
    match r
    case NewerOnDisk(conflicts) =>
      !clusterReset && newer != {} && conflicts == newer && after == disk
    case Reconciled(updated) =>
      && (clusterReset || newer == {})
      && (updated <==> clusterReset || AnyDiffers(disk, files, paths, known))
      && (if updated then WrittenTo(disk, files, paths, known, after) else after == disk)
  }

  lemma WriteOneMore(was: Disk, files: map<string, File>, paths: map<string, Path>, done: set<string>, k: string, disk: Disk)
    requires DistinctPaths(files, paths) && done <= Known(files, paths)
    requires k in Known(files, paths) && k !in done
    requires WrittenTo(was, files, paths, done, disk)
    ensures WrittenTo(was, files, paths, done + {k}, disk[paths[k] := files[k]])
  {
    var keys := done + {k};
    assert Hit(paths, keys, paths[k]);
    forall p | Hit(paths, done, p)
      ensures Hit(paths, keys, p)
    {
      var l :| l in done && paths[l] == p;
      assert l in keys;
    }
  }

  class Server {
    var disk: Disk
    const paths: map<string, Path>

    constructor (disk: Disk, paths: map<string, Path>)
      ensures this.disk == disk && this.paths == paths
    {
      this.disk := disk;
      this.paths := paths;
    }

    method WriteToDiskFromStorage(files: map<string, File>)
      requires DistinctPaths(files, paths)
      modifies this
      ensures WrittenTo(old(disk), files, paths, Known(files, paths), disk)
    {
      ghost var was := disk;
      var todo := files.Keys;
      while todo != {}
        invariant todo <= files.Keys
        invariant WrittenTo(was, files, paths, Known(files, paths) - todo, disk)
        decreases |todo|
      {
        var k :| k in todo;
        ghost var done := Known(files, paths) - todo;
        todo := todo - {k};
        if k in paths && paths[k] != "" {
          assert Known(files, paths) - todo == done + {k};
          WriteOneMore(was, files, paths, done, k, disk);
          disk := disk[paths[k] := files[k]];
        } else {
          assert Known(files, paths) - todo == done;
        }
      }
      assert Known(files, paths) - todo == Known(files, paths);
    }

    /** The comparison loop of ReconcileBootstrapData. */
    method CompareWithDisk(files: map<string, File>) returns (updateDisk: bool, newerOnDisk: set<Path>)
      ensures updateDisk <==> AnyDiffers(disk, files, paths, Known(files, paths))
      ensures newerOnDisk == NewerPaths(disk, files, paths, Known(files, paths))
    {
      updateDisk, newerOnDisk := false, {};
      var todo := files.Keys;
      ghost var done: set<string> := {};
      while todo != {}
        invariant todo <= files.Keys && done <= Known(files, paths) <= done + todo
        invariant updateDisk <==> AnyDiffers(disk, files, paths, done)
        invariant newerOnDisk == NewerPaths(disk, files, paths, done)
        decreases |todo|
      {
        var pathKey :| pathKey in todo;
        todo := todo - {pathKey};
        if pathKey in paths && paths[pathKey] != "" {
          CompareOneMore(disk, files, paths, done, pathKey);
          done := done + {pathKey};
          var updated, newer := IsNewerFile(disk, paths[pathKey], files[pathKey]);
          if newer {
            newerOnDisk := newerOnDisk + {paths[pathKey]};
          }
          updateDisk := updateDisk || updated;
        }
      }
      assert done == Known(files, paths);
    }

    /** The error for conflicting files stops the server. */
    method ReconcileBootstrapData(files: map<string, File>, clusterReset: bool) returns (r: Result)
      requires DistinctPaths(files, paths)
      modifies this
      ensures Outcome(old(disk), files, paths, clusterReset, r, disk)
    {
      var updateDisk, newerOnDisk := CompareWithDisk(files);
      if clusterReset {
        updateDisk := true;
      } else if newerOnDisk != {} {
        return NewerOnDisk(newerOnDisk);
      }
      if updateDisk {
        WriteToDiskFromStorage(files);
        return Reconciled(true);
      }
      return Reconciled(false);
    }
  }

  /**
   The three seconds in nanoseconds: a differing file that is at least three seconds younger on disk is
   a conflict, one that is at most two seconds younger is overwritten.
   */
  lemma ConflictBySkew(disk: Disk, path: Path, f: File)
    requires path in disk && disk[path].content != f.content
    ensures disk[path].timestamp >= f.timestamp + 3_000_000_000 ==> Newer(disk, path, f)
    ensures disk[path].timestamp <= f.timestamp + 2_000_000_000 ==> !Newer(disk, path, f)
    ensures Newer(disk, path, f) <==> disk[path].timestamp / 1_000_000_000 >= f.timestamp / 1_000_000_000 + 3
  {
  }

  /** A path that no key of the datastore leads to, the empty one included, is never touched. */
  lemma OtherPathsStay(disk: Disk, files: map<string, File>, paths: map<string, Path>, reset: bool, r: Result, after: Disk, p: Path)
    requires Outcome(disk, files, paths, reset, r, after)
    requires p == "" || forall k | k in files && k in paths :: paths[k] != p
    ensures p in after <==> p in disk
    ensures p in disk ==> after[p] == disk[p]
  {
    assert !Hit(paths, Known(files, paths), p);
  }

  /** A cluster reset stops for nothing and leaves every known path with the datastore's file. */
  lemma ResetOverwrites(disk: Disk, files: map<string, File>, paths: map<string, Path>, r: Result, after: Disk)
    requires Outcome(disk, files, paths, true, r, after)
    ensures r == Reconciled(true)
    ensures forall k | k in files && k in paths && paths[k] != "" :: paths[k] in after && after[paths[k]] == files[k]
  {
  }

  lemma CompareOneMore(disk: Disk, files: map<string, File>, paths: map<string, Path>, done: set<string>, k: string)
    requires done <= Known(files, paths) && k in Known(files, paths)
    ensures AnyDiffers(disk, files, paths, done + {k}) <==> AnyDiffers(disk, files, paths, done) || Differs(disk, paths[k], files[k])
    ensures NewerPaths(disk, files, paths, done + {k}) ==
            NewerPaths(disk, files, paths, done) + if Newer(disk, paths[k], files[k]) then {paths[k]} else {}
  {
  }

  /** Written files compare equal, so none is newer on disk. */
  lemma WrittenMatches(disk: Disk, files: map<string, File>, paths: map<string, Path>, after: Disk)
    requires WrittenTo(disk, files, paths, Known(files, paths), after)
    ensures !AnyDiffers(after, files, paths, Known(files, paths))
    ensures NewerPaths(after, files, paths, Known(files, paths)) == {}
  {
  }

  /**
   MAIN: without a cluster reset the run either stops with the disk untouched, exactly when some known
   file differs and is at least three seconds newer on disk, or leaves every known path with the
   datastore's content and every other path alone.
   */
  lemma StopsOrMatches(disk: Disk, files: map<string, File>, paths: map<string, Path>, r: Result, after: Disk)
    requires Outcome(disk, files, paths, false, r, after)
    ensures r.NewerOnDisk? <==> exists k | k in Known(files, paths) :: Newer(disk, paths[k], files[k])
    ensures r.NewerOnDisk? ==> after == disk
    ensures r.Reconciled? ==> forall k | k in Known(files, paths) :: paths[k] in after && after[paths[k]].content == files[k].content
    ensures forall p | p in disk && !Hit(paths, Known(files, paths), p) :: p in after && after[p] == disk[p]
  {
    var known := Known(files, paths);
    if k :| k in known && Newer(disk, paths[k], files[k]) {
      assert paths[k] in NewerPaths(disk, files, paths, known);
    }
    if r.Reconciled? && r.updated {
      WrittenMatches(disk, files, paths, after);
    }
    forall k | k in known && r.Reconciled?
      ensures !Differs(after, paths[k], files[k])
    {
    }
  }

  /** MAIN: a second run ends as the first did if that one stopped, and otherwise finds nothing to write. */
  lemma SecondRunIsIdle(disk: Disk, files: map<string, File>, paths: map<string, Path>,
                        reset: bool, first: Result, once: Disk, second: Result, twice: Disk)
    requires Outcome(disk, files, paths, reset, first, once)
    requires Outcome(once, files, paths, false, second, twice)
    ensures twice == once
    ensures second == if first.NewerOnDisk? then first else Reconciled(false)
  {
    if first == Reconciled(true) {
      WrittenMatches(disk, files, paths, once);
    }
  }
}
