/**
 A whole rotation goes through: on any number of servers, every stage request of the cycle is accepted
 in its turn, and the cluster ends as ready for the next rotation as it was for this one.
 */
module EncryptionCycle {
  import opened EncryptionProtocol
  import opened EncryptionSafety
  import opened EncryptionLoads
  import opened EncryptionScans
  import opened EncryptionWaits
  import opened EncryptionDrops
  import opened EncryptionKeys

  /** Every server has, has loaded, and announces the saved configuration. */
  ghost predicate Uniform(st: State, keys: seq<Key>, note: Note) {
    && st.saved == Saved(keys, note)
    && forall t | t in st.servers :: st.servers[t] == Server(keys, note, note, keys, Idle)
  }

  ghost predicate Dated(st: State) {
    forall n | n in st.secrets :: st.secrets[n].revision <= st.revision
  }

  lemma {:induction false} RunKeepsDated(st: State, steps: seq<Step>)
    requires Dated(st) && IsRun(st, steps, true)
    ensures Dated(After(st, steps, true))
    decreases |steps|
  {
    if steps != [] {
      RunKeepsDated(Apply(st, steps[0], true), steps[1..]);
    }
  }

  // ---------- Everybody catches up ----------

  function Restarts(others: seq<ServerId>): seq<Step> {
    if others == [] then [] else [Restart(others[0])] + Restarts(others[1..])
  }

  /** The servers of `others` restart one after the other, and `who` reloads. */
  function CatchUp(who: ServerId, others: seq<ServerId>): seq<Step> {
    Restarts(others) + [Reload(who)]
  }

  /** `others` are all the servers but `who`, in any order. */
  ghost predicate AllBut(st: State, who: ServerId, others: seq<ServerId>) {
    who in st.servers && who !in others && forall t :: t in st.servers <==> t == who || t in others
  }

  lemma {:induction false} RestartsRun(st: State, others: seq<ServerId>)
    requires forall t | t in others :: t in st.servers
    ensures IsRun(st, Restarts(others), true)
    ensures var end := After(st, Restarts(others), true);
            && end.saved == st.saved && end.secrets == st.secrets && end.revision == st.revision
            && end.servers.Keys == st.servers.Keys
            && (forall t | t in others :: end.servers[t] == Server(st.saved.keys, st.saved.note, st.saved.note, st.saved.keys, Idle))
            && (forall t | t in st.servers && t !in others :: end.servers[t] == st.servers[t])
    decreases |others|
  {
    if others != [] {
      var st' := Apply(st, Restart(others[0]), true);
      assert others == [others[0]] + others[1..];
      RestartsRun(st', others[1..]);
      StepThenRun(st, Restart(others[0]), Restarts(others[1..]), true);
    }
  }

  lemma CatchUpRuns(st: State, who: ServerId, others: seq<ServerId>)
    requires AllBut(st, who, others)
    requires st.servers[who].(loaded := st.saved.keys) == Server(st.saved.keys, st.saved.note, st.saved.note, st.saved.keys, Idle)
    ensures IsRun(st, CatchUp(who, others), true)
    ensures var end := After(st, CatchUp(who, others), true);
            && Uniform(end, st.saved.keys, st.saved.note) && end.servers.Keys == st.servers.Keys
            && end.secrets == st.secrets && end.revision == st.revision
  {
    RestartsRun(st, others);
    var mid := After(st, Restarts(others), true);
    StepThenRun(mid, Reload(who), [], true);
    RunsJoin(st, Restarts(others), [Reload(who)], true);
  }

  /** A configuration write is announced, persisted and published, and everybody catches up. */
  lemma PublishRuns(st: State, who: ServerId, others: seq<ServerId>)
    requires AllBut(st, who, others) && st.servers[who].op.InTail? && st.servers[who].op.progress == Announcing
    ensures var steps := [ContinueTail(who), ContinueTail(who), ContinueTail(who)] + CatchUp(who, others);
            && IsRun(st, steps, true)
            && (var end := After(st, steps, true);
                && Uniform(end, st.servers[who].disk, Note(st.servers[who].op.next, st.servers[who].disk))
                && end.servers.Keys == st.servers.Keys && end.secrets == st.secrets && end.revision == st.revision)
  {
    var tail := [ContinueTail(who), ContinueTail(who), ContinueTail(who)];
    TailRuns(st, who, true);
    var mid := After(st, tail, true);
    CatchUpRuns(mid, who, others);
    RunsJoin(st, tail, CatchUp(who, others), true);
  }

  // ---------- The three stages ----------

  /** A request, its later writes, and everybody catching up. */
  function Stage(request: Step, who: ServerId, others: seq<ServerId>): seq<Step> {
    [request] + ([ContinueTail(who), ContinueTail(who), ContinueTail(who)] + CatchUp(who, others))
  }

  /** A key that no list and no secret knows. */
  predicate UnknownKey(st: State, keys: seq<Key>, k: Key) {
    k !in keys && forall n | n in st.secrets :: st.secrets[n].key != k
  }

  lemma PrepareRuns(st: State, who: ServerId, others: seq<ServerId>, keys: seq<Key>, note: Note, k: Key)
    requires Uniform(st, keys, note) && AllBut(st, who, others) && UnknownKey(st, keys, k)
    requires note.stage in {Start, ReencryptFinished} && note.keys == keys
    ensures var steps := Stage(PrepareRequest(who, k), who, others);
            && IsRun(st, steps, true)
            && (var end := After(st, steps, true);
                && Uniform(end, keys + [k], Note(Prepare, keys + [k]))
                && end.servers.Keys == st.servers.Keys && end.secrets == st.secrets && end.revision == st.revision)
  {
    assert Enabled(st, PrepareRequest(who, k), true);
    var st' := Apply(st, PrepareRequest(who, k), true);
    PublishRuns(st', who, others);
    StepThenRun(st, PrepareRequest(who, k), [ContinueTail(who), ContinueTail(who), ContinueTail(who)] + CatchUp(who, others), true);
  }

  lemma RotateRuns(st: State, who: ServerId, others: seq<ServerId>, keys: seq<Key>, k: Key)
    requires Uniform(st, keys + [k], Note(Prepare, keys + [k])) && AllBut(st, who, others)
    ensures var steps := Stage(RotateRequest(who), who, others);
            && IsRun(st, steps, true)
            && (var end := After(st, steps, true);
                && Uniform(end, [k] + keys, Note(Rotate, [k] + keys))
                && end.servers.Keys == st.servers.Keys && end.secrets == st.secrets && end.revision == st.revision)
  {
    var x := keys + [k];
    assert x[..|x| - 1] == keys && RightRotated(x) == [k] + keys;
    assert Enabled(st, RotateRequest(who), true);
    var st' := Apply(st, RotateRequest(who), true);
    PublishRuns(st', who, others);
    StepThenRun(st, RotateRequest(who), [ContinueTail(who), ContinueTail(who), ContinueTail(who)] + CatchUp(who, others), true);
  }

  lemma RequestedScans(st: State, who: ServerId, r: seq<Key>, scan: Scan, skip: bool)
    requires Uniform(st, r, Note(Rotate, r)) && who in st.servers && |r| > 1 && Covers(scan, st)
    ensures Enabled(st, ReencryptRequest(who, skip), true)
    ensures var st' := Apply(st, ReencryptRequest(who, skip), true);
            && Scans(st', who, scan) && st'.saved == st.saved && st'.secrets == st.secrets
            && st'.servers == st.servers[who := Server(r, Note(Rotate, r), Note(ReencryptActive, r), r, Scanning(skip, Listing(st.secrets)))]
  {
    assert Enabled(st, ReencryptRequest(who, skip), true);
  }

  lemma RewrittenToOne(st: State, scan: Scan, secrets: map<SecretName, Stored>, k: Key)
    requires forall i | 0 <= i < |scan| :: scan[i].1 in st.servers && |st.servers[scan[i].1].loaded| > 0 && st.servers[scan[i].1].loaded[0] == k
    requires Rewritten(st, scan, secrets) && forall n | n in st.secrets :: InScan(scan, n)
    ensures forall n | n in secrets :: secrets[n].key == k
  {
    forall n | n in secrets
      ensures secrets[n].key == k
    {
      assert InScan(scan, n);
    }
  }

  /** All updates of a scan, on a cluster whose apiservers all write with `k`. */
  lemma UpdatesToOne(st: State, who: ServerId, scan: Scan, k: Key)
    requires Scans(st, who, scan) && forall n | n in st.secrets :: InScan(scan, n)
    requires forall t | t in st.servers :: |st.servers[t].loaded| > 0 && st.servers[t].loaded[0] == k
    ensures IsRun(st, Updates(who, scan), true)
    ensures var mid := After(st, Updates(who, scan), true);
            && mid.servers == st.servers[who := WithTodo(st.servers[who], map[])] && mid.saved == st.saved
            && mid.secrets.Keys == st.secrets.Keys && forall n | n in mid.secrets :: mid.secrets[n].key == k
  {
    ScansMeans(st, who, scan);
    UpdatesEffect(st, who, scan, true);
    RewrittenToOne(st, scan, After(st, Updates(who, scan), true).secrets, k);
  }

  /** The scan: the request, and one update for each secret, through any apiservers. */
  lemma ScanRuns(st: State, who: ServerId, r: seq<Key>, scan: Scan, skip: bool)
    requires Uniform(st, r, Note(Rotate, r)) && who in st.servers && |r| > 1 && Covers(scan, st)
    ensures var steps := [ReencryptRequest(who, skip)] + Updates(who, scan);
            && IsRun(st, steps, true)
            && (var mid := After(st, steps, true);
                && mid.servers == st.servers[who := Server(r, Note(Rotate, r), Note(ReencryptActive, r), r, Scanning(skip, map[]))]
                && mid.saved == st.saved && mid.secrets.Keys == st.secrets.Keys
                && forall n | n in mid.secrets :: mid.secrets[n].key == r[0])
  {
    RequestedScans(st, who, r, scan, skip);
    var st' := Apply(st, ReencryptRequest(who, skip), true);
    UpdatesToOne(st', who, scan, r[0]);
    StepThenRun(st, ReencryptRequest(who, skip), Updates(who, scan), true);
  }

  function Reencrypt(who: ServerId, others: seq<ServerId>, scan: Scan): seq<Step> {
    ([ReencryptRequest(who, false)] + Updates(who, scan)) + Stage(FinishScan(who), who, others)
  }

  lemma ReencryptRuns(st: State, who: ServerId, others: seq<ServerId>, r: seq<Key>, scan: Scan)
    requires Uniform(st, r, Note(Rotate, r)) && AllBut(st, who, others) && |r| > 1 && Covers(scan, st)
    ensures IsRun(st, Reencrypt(who, others, scan), true)
    ensures var end := After(st, Reencrypt(who, others, scan), true);
            && Uniform(end, DropLast(r), Note(ReencryptFinished, DropLast(r)))
            && end.servers.Keys == st.servers.Keys && end.secrets.Keys == st.secrets.Keys
            && forall n | n in end.secrets :: end.secrets[n].key == r[0]
  {
    var first := [ReencryptRequest(who, false)] + Updates(who, scan);
    ScanRuns(st, who, r, scan, false);
    var mid := After(st, first, true);
    DropRuns(mid, who, others, r);
    RunsJoin(st, first, Stage(FinishScan(who), who, others), true);
  }

  lemma DropRuns(st: State, who: ServerId, others: seq<ServerId>, r: seq<Key>)
    requires AllBut(st, who, others) && |r| > 1
    requires st.servers[who] == Server(r, Note(Rotate, r), Note(ReencryptActive, r), r, Scanning(false, map[]))
    ensures var steps := Stage(FinishScan(who), who, others);
            && IsRun(st, steps, true)
            && (var end := After(st, steps, true);
                && Uniform(end, DropLast(r), Note(ReencryptFinished, DropLast(r)))
                && end.servers.Keys == st.servers.Keys && end.secrets == st.secrets)
  {
    var st' := Apply(st, FinishScan(who), true);
    PublishRuns(st', who, others);
    StepThenRun(st, FinishScan(who), [ContinueTail(who), ContinueTail(who), ContinueTail(who)] + CatchUp(who, others), true);
  }

  /** With skip, the cluster is back at the rotated stage, and every secret is under the new key. */
  lemma SkippedReencryptRuns(st: State, who: ServerId, r: seq<Key>, scan: Scan)
    requires Uniform(st, r, Note(Rotate, r)) && who in st.servers && |r| > 1 && Covers(scan, st)
    ensures var steps := ([ReencryptRequest(who, true)] + Updates(who, scan)) + [FinishScan(who)];
            && IsRun(st, steps, true)
            && (var end := After(st, steps, true);
                && Uniform(end, r, Note(Rotate, r)) && end.servers.Keys == st.servers.Keys
                && end.secrets.Keys == st.secrets.Keys && forall n | n in end.secrets :: end.secrets[n].key == r[0])
  {
    var first := [ReencryptRequest(who, true)] + Updates(who, scan);
    ScanRuns(st, who, r, scan, true);
    var mid := After(st, first, true);
    StepThenRun(mid, FinishScan(who), [], true);
    RunsJoin(st, first, [FinishScan(who)], true);
  }

  // ---------- Whole cycles ----------

  function Cycle(who: ServerId, others: seq<ServerId>, k: Key, scan: Scan): seq<Step> {
    (Stage(PrepareRequest(who, k), who, others) + Stage(RotateRequest(who), who, others)) + Reencrypt(who, others, scan)
  }

  lemma UniformIsInitial(st: State, keys: seq<Key>, note: Note)
    requires Uniform(st, keys, note) && Dated(st) && st.servers != map[] && |keys| > 0
    requires note.stage in {Start, ReencryptFinished} && note.keys == keys
    requires forall n | n in st.secrets :: st.secrets[n].key in keys
    ensures Initial(st)
  {
  }

  lemma PrepareAndRotateRun(st: State, who: ServerId, others: seq<ServerId>, k: Key)
    requires Initial(st) && AllBut(st, who, others) && UnknownKey(st, st.saved.keys, k)
    ensures var steps := Stage(PrepareRequest(who, k), who, others) + Stage(RotateRequest(who), who, others);
            && IsRun(st, steps, true)
            && (var end := After(st, steps, true);
                && Uniform(end, [k] + st.saved.keys, Note(Rotate, [k] + st.saved.keys))
                && end.servers.Keys == st.servers.Keys && end.secrets == st.secrets && end.revision == st.revision)
  {
    var prepare := Stage(PrepareRequest(who, k), who, others);
    PrepareRuns(st, who, others, st.saved.keys, st.saved.note, k);
    var prepared := After(st, prepare, true);
    RotateRuns(prepared, who, others, st.saved.keys, k);
    RunsJoin(st, prepare, Stage(RotateRequest(who), who, others), true);
  }

  lemma CycleReaches(st: State, who: ServerId, others: seq<ServerId>, k: Key, scan: Scan)
    requires Initial(st) && AllBut(st, who, others) && Covers(scan, st) && UnknownKey(st, st.saved.keys, k)
    ensures IsRun(st, Cycle(who, others, k, scan), true)
    ensures var end, left := After(st, Cycle(who, others, k, scan), true), DropLast([k] + st.saved.keys);
            && Uniform(end, left, Note(ReencryptFinished, left))
            && end.servers.Keys == st.servers.Keys && end.secrets.Keys == st.secrets.Keys
            && forall n | n in end.secrets :: end.secrets[n].key == k
  {
    var first := Stage(PrepareRequest(who, k), who, others) + Stage(RotateRequest(who), who, others);
    PrepareAndRotateRun(st, who, others, k);
    var rotated := After(st, first, true);
    CoversUniform(scan, st, rotated, [k] + st.saved.keys);
    ReencryptRuns(rotated, who, others, [k] + st.saved.keys, scan);
    RunsJoin(st, first, Reencrypt(who, others, scan), true);
  }

  lemma CoversUniform(scan: Scan, st: State, later: State, keys: seq<Key>)
    requires Covers(scan, st) && |keys| > 0 && Uniform(later, keys, Note(Rotate, keys))
    requires later.servers.Keys == st.servers.Keys && later.secrets.Keys == st.secrets.Keys
    ensures Covers(scan, later)
  {
  }

  /**
   MAIN: from every cluster between rotations, with any number of servers and any key that is new, the
   whole cycle is a run: each guard accepts.  It ends between rotations again, with the new key first,
   the oldest gone, and every secret under the new key.
   */
  lemma CycleRuns(st: State, who: ServerId, others: seq<ServerId>, k: Key, scan: Scan)
    requires Initial(st) && AllBut(st, who, others) && Covers(scan, st)
    requires k !in st.saved.keys && forall n | n in st.secrets :: st.secrets[n].key != k
    ensures IsRun(st, Cycle(who, others, k, scan), true)
    ensures var end := After(st, Cycle(who, others, k, scan), true);
            && Initial(end) && end.saved.keys == ([k] + st.saved.keys)[..|st.saved.keys|]
            && end.servers.Keys == st.servers.Keys && end.secrets.Keys == st.secrets.Keys
            && forall n | n in end.secrets :: end.secrets[n].key == k
  {
    CycleReaches(st, who, others, k, scan);
    var end, left := After(st, Cycle(who, others, k, scan), true), DropLast([k] + st.saved.keys);
    assert left[0] == k;
    RunKeepsDated(st, Cycle(who, others, k, scan));
    assert who in end.servers;
    UniformIsInitial(end, left, Note(ReencryptFinished, left));
  }

  /** Runs of whole cycles, one for each new key; the scans may differ. */
  function CycleSteps(who: ServerId, others: seq<ServerId>, newKeys: seq<Key>, scans: seq<Scan>): seq<Step>
    requires |newKeys| == |scans|
  {
    if newKeys == [] then []
    else Cycle(who, others, newKeys[0], scans[0]) + CycleSteps(who, others, newKeys[1..], scans[1..])
  }

  /**
   MAIN: any number of cycles with different new keys is a run, and the key list of the cluster is then
   that of as many cycles on the list alone.
   */
  lemma {:induction false} CyclesRun(st: State, who: ServerId, others: seq<ServerId>, newKeys: seq<Key>, scans: seq<Scan>)
    requires Initial(st) && AllBut(st, who, others) && |newKeys| == |scans|
    requires forall i | 0 <= i < |scans| :: Covers(scans[i], st)
    requires forall i, j | 0 <= i < j < |newKeys| :: newKeys[i] != newKeys[j]
    requires forall i | 0 <= i < |newKeys| :: UnknownKey(st, st.saved.keys, newKeys[i])
    ensures IsRun(st, CycleSteps(who, others, newKeys, scans), true)
    ensures var end := After(st, CycleSteps(who, others, newKeys, scans), true);
            Initial(end) && end.saved.keys == Cycles(st.saved.keys, newKeys) && end.servers.Keys == st.servers.Keys
    decreases |newKeys|
  {
    if newKeys != [] {
      var k := newKeys[0];
      assert UnknownKey(st, st.saved.keys, k);
      CycleRuns(st, who, others, k, scans[0]);
      var st' := After(st, Cycle(who, others, k, scans[0]), true);
      RotateKeysMatchesStages(st.saved.keys, k);
      forall i | 0 <= i < |scans[1..]|
        ensures Covers(scans[1..][i], st')
      {
        assert scans[1..][i] == scans[i + 1] && Covers(scans[i + 1], st);
        CoversLater(scans[i + 1], st, st');
      }
      forall i | 0 <= i < |newKeys[1..]|
        ensures UnknownKey(st', st'.saved.keys, newKeys[1..][i])
      {
        assert newKeys[1..][i] == newKeys[i + 1] && UnknownKey(st, st.saved.keys, newKeys[i + 1]);
      }
      CyclesRun(st', who, others, newKeys[1..], scans[1..]);
      RunsJoin(st, Cycle(who, others, k, scans[0]), CycleSteps(who, others, newKeys[1..], scans[1..]), true);
    }
  }

  lemma CoversLater(scan: Scan, st: State, later: State)
    requires Covers(scan, st) && Initial(later) && later.servers.Keys == st.servers.Keys && later.secrets.Keys == st.secrets.Keys
    ensures Covers(scan, later)
  {
  }

  /** A new cluster of the given servers, between rotations. */
  function NewCluster(servers: set<ServerId>, keys: seq<Key>): State {
    var n := Note(Start, keys);
    State(map t | t in servers :: Server(keys, n, n, keys, Idle), Saved(keys, n), map[], 0)
  }

  lemma NewClusterIsInitial(servers: set<ServerId>, keys: seq<Key>)
    requires servers != {} && |keys| > 0
    ensures Initial(NewCluster(servers, keys))
  {
    var t :| t in servers;
    assert t in NewCluster(servers, keys).servers;
  }

  // ---------- What each step leaves alone ----------

  /**
   A stored secret changes or goes only by a client's step on it, or by an update that finds it at the
   revision it was listed with.
   */
  lemma SecretsAreSpared(st: State, step: Step, n: SecretName)
    requires Enabled(st, step, true) && n in st.secrets
    requires n !in Apply(st, step, true).secrets || Apply(st, step, true).secrets[n] != st.secrets[n]
    ensures match step
            case WriteSecret(_, name) => name == n
            case DeleteSecret(name) => name == n
            case UpdateListed(who, _, name) =>
              name == n && st.secrets[n].revision == st.servers[who].op.todo[n] && st.secrets[n].key != st.servers[step.via].loaded[0]
            case _ => false
  {
  }

  /** What a client's step does, and that it touches no server. */
  lemma ClientStepsTakeEffect(st: State, via: ServerId, name: SecretName)
    requires Enabled(st, WriteSecret(via, name), true)
    ensures var written := Apply(st, WriteSecret(via, name), true);
            && name in written.secrets && written.secrets[name].key == st.servers[via].loaded[0]
            && (Dated(st) && name in st.secrets ==> written.secrets[name].revision > st.secrets[name].revision)
            && written.servers == st.servers && written.saved == st.saved
            && Enabled(written, DeleteSecret(name), true)
            && (var deleted := Apply(written, DeleteSecret(name), true);
                name !in deleted.secrets && deleted.servers == st.servers && deleted.saved == st.saved)
  {
  }

  /** A step of one server leaves all others as they are; only publishing changes the datastore copy. */
  lemma StepsAreLocal(st: State, step: Step, t: ServerId)
    requires Enabled(st, step, true) && t in st.servers
    ensures t in Apply(st, step, true).servers
    ensures Apply(st, step, true).servers[t] != st.servers[t] ==>
              !step.WriteSecret? && !step.DeleteSecret? && step.who == t
    ensures Apply(st, step, true).saved != st.saved ==>
              step.ContinueTail? && st.servers[step.who].op.progress == Publishing
  {
  }
}
