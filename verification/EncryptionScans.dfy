/**
 Why a re-encryption has to wait for the apiservers: its updates write with the key an apiserver has
 loaded first, and that may still be the key that is dropped when the scan is over.
 */
module EncryptionScans {
  import opened EncryptionProtocol
  import opened EncryptionSafety
  import opened EncryptionLoads

  /** The listed secrets in the order they are updated, each with the apiserver that handles it. */
  type Scan = seq<(SecretName, ServerId)>

  predicate InScan(scan: Scan, name: SecretName) {
    exists i :: 0 <= i < |scan| && scan[i].0 == name
  }

  /** Each secret once, through an apiserver that has some key. */
  ghost predicate Covers(scan: Scan, st: State) {
    && (forall i, j | 0 <= i < j < |scan| :: scan[i].0 != scan[j].0)
    && (forall n :: n in st.secrets <==> InScan(scan, n))
    && (forall i | 0 <= i < |scan| :: scan[i].1 in st.servers && |st.servers[scan[i].1].loaded| > 0)
  }

  function Updates(who: ServerId, scan: Scan): seq<Step> {
    if scan == [] then [] else [UpdateListed(who, scan[0].1, scan[0].0)] + Updates(who, scan[1..])
  }

  /** A whole re-encryption that nothing interrupts, up to the reload that the dropped key leads to. */
  function Reencryption(who: ServerId, scan: Scan): seq<Step> {
    [ReencryptRequest(who, false)] + (Updates(who, scan) + [FinishScan(who), Reload(who)])
  }

  /** The scanning server has yet to update exactly the secrets of `scan`, unchanged since listed. */
  ghost predicate Scans(st: State, who: ServerId, scan: Scan) {
    && who in st.servers && st.servers[who].op.Scanning? && |st.servers[who].disk| > 0
    && (forall i, j | 0 <= i < j < |scan| :: scan[i].0 != scan[j].0)
    && (forall n :: n in st.servers[who].op.todo <==> InScan(scan, n))
    && (forall n | n in st.servers[who].op.todo :: n in st.secrets && st.secrets[n].revision == st.servers[who].op.todo[n])
    && (forall i | 0 <= i < |scan| :: scan[i].1 in st.servers && |st.servers[scan[i].1].loaded| > 0)
  }

  lemma InScanSplit(scan: Scan, n: SecretName)
    requires scan != []
    ensures InScan(scan, n) <==> n == scan[0].0 || InScan(scan[1..], n)
    ensures (forall i | 0 < i < |scan| :: scan[0].0 != scan[i].0) ==> !InScan(scan[1..], scan[0].0)
  {
    if InScan(scan, n) && n != scan[0].0 {
      var i :| 0 <= i < |scan| && scan[i].0 == n;
      assert scan[1..][i - 1].0 == n;
    }
    if i :| 0 <= i < |scan[1..]| && scan[1..][i].0 == n {
      assert scan[i + 1].0 == n;
    }
  }

  /** One update of an undisturbed scan. */
  lemma UpdateMoves(st: State, who: ServerId, scan: Scan, wait: bool)
    requires Scans(st, who, scan) && scan != []
    ensures Enabled(st, UpdateListed(who, scan[0].1, scan[0].0), wait)
    ensures var st' := Apply(st, UpdateListed(who, scan[0].1, scan[0].0), wait);
            && st'.servers == st.servers[who := WithTodo(st.servers[who], st.servers[who].op.todo - {scan[0].0})]
            && st'.saved == st.saved && st'.secrets.Keys == st.secrets.Keys
            && st'.secrets[scan[0].0].key == st.servers[scan[0].1].loaded[0]
            && forall n | n in st.secrets && n != scan[0].0 :: st'.secrets[n] == st.secrets[n]
  {
    assert InScan(scan, scan[0].0);
  }

  lemma UpdateScans(st: State, st': State, who: ServerId, scan: Scan)
    requires Scans(st, who, scan) && scan != []
    requires st'.servers == st.servers[who := WithTodo(st.servers[who], st.servers[who].op.todo - {scan[0].0})]
    requires st'.secrets.Keys == st.secrets.Keys
    requires forall n | n in st.secrets && n != scan[0].0 :: st'.secrets[n] == st.secrets[n]
    ensures Scans(st', who, scan[1..])
  {
    var rest := scan[1..];
    assert forall i | 0 <= i < |rest| :: rest[i] == scan[i + 1];
    forall n
      ensures n in st'.servers[who].op.todo <==> InScan(rest, n)
    {
      InScanSplit(scan, n);
    }
  }

  /** Each secret of the scan is under the first key its apiserver had loaded, the others are as before. */
  ghost predicate Rewritten(st: State, scan: Scan, secrets: map<SecretName, Stored>)
    requires forall i | 0 <= i < |scan| :: scan[i].1 in st.servers && |st.servers[scan[i].1].loaded| > 0
  {
    && secrets.Keys == st.secrets.Keys
    && (forall i | 0 <= i < |scan| :: scan[i].0 in st.secrets && secrets[scan[i].0].key == st.servers[scan[i].1].loaded[0])
    && (forall n | n in st.secrets && !InScan(scan, n) :: secrets[n] == st.secrets[n])
  }

  function WithTodo(s: Server, todo: map<SecretName, nat>): Server
    requires s.op.Scanning?
  {
    s.(op := s.op.(todo := todo))
  }

  /** The updates are done: nothing but the list of the scan and the keys of the secrets has changed. */
  ghost predicate Updated(st: State, who: ServerId, scan: Scan, mid: State)
    requires who in st.servers && st.servers[who].op.Scanning?
    requires forall i | 0 <= i < |scan| :: scan[i].1 in st.servers && |st.servers[scan[i].1].loaded| > 0
  {
    mid.servers == st.servers[who := WithTodo(st.servers[who], map[])] && mid.saved == st.saved && Rewritten(st, scan, mid.secrets)
  }

  /**
   Where a scan ends: the last key dropped and that loaded, every other apiserver as it was, and each
   secret under the first key its apiserver had loaded.
   */
  ghost predicate Ended(st: State, who: ServerId, scan: Scan, end: State)
    requires who in st.servers && |st.servers[who].disk| > 0
    requires forall i | 0 <= i < |scan| :: scan[i].1 in st.servers && |st.servers[scan[i].1].loaded| > 0
  {
    && end.servers.Keys == st.servers.Keys
    && end.servers[who].loaded == DropLast(st.servers[who].disk)
    && (forall t | t in st.servers && t != who :: end.servers[t].loaded == st.servers[t].loaded)
    && Rewritten(st, scan, end.secrets)
  }

  lemma RewrittenSooner(st: State, st': State, scan: Scan, secrets: map<SecretName, Stored>)
    requires scan != [] && forall i, j | 0 <= i < j < |scan| :: scan[i].0 != scan[j].0
    requires forall i | 0 <= i < |scan| :: scan[i].1 in st.servers && |st.servers[scan[i].1].loaded| > 0
    requires st'.servers.Keys == st.servers.Keys && forall t | t in st.servers :: st'.servers[t].loaded == st.servers[t].loaded
    requires st'.secrets.Keys == st.secrets.Keys
    requires scan[0].0 in st.secrets && st'.secrets[scan[0].0].key == st.servers[scan[0].1].loaded[0]
    requires forall n | n in st.secrets && n != scan[0].0 :: st'.secrets[n] == st.secrets[n]
    requires forall i | 0 <= i < |scan[1..]| :: scan[1..][i].1 in st'.servers && |st'.servers[scan[1..][i].1].loaded| > 0
    requires Rewritten(st', scan[1..], secrets)
    ensures Rewritten(st, scan, secrets)
  {
    InScanSplit(scan, scan[0].0);
    forall i | 0 <= i < |scan|
      ensures scan[i].0 in st.secrets && secrets[scan[i].0].key == st.servers[scan[i].1].loaded[0]
    {
      if i > 0 {
        assert scan[1..][i - 1] == scan[i];
      }
    }
    forall n | n in st.secrets && !InScan(scan, n)
      ensures secrets[n] == st.secrets[n]
    {
      InScanSplit(scan, n);
    }
  }

  lemma UpdateKeeps(st: State, who: ServerId, scan: Scan, wait: bool) returns (st': State)
    requires Scans(st, who, scan) && scan != []
    ensures Enabled(st, UpdateListed(who, scan[0].1, scan[0].0), wait)
    ensures st' == Apply(st, UpdateListed(who, scan[0].1, scan[0].0), wait) && Scans(st', who, scan[1..])
    ensures st'.servers == st.servers[who := WithTodo(st.servers[who], st.servers[who].op.todo - {scan[0].0})]
    ensures st'.saved == st.saved && st'.secrets.Keys == st.secrets.Keys
    ensures scan[0].0 in st.secrets && st'.secrets[scan[0].0].key == st.servers[scan[0].1].loaded[0]
    ensures forall n | n in st.secrets && n != scan[0].0 :: st'.secrets[n] == st.secrets[n]
  {
    assert InScan(scan, scan[0].0);
    UpdateMoves(st, who, scan, wait);
    st' := Apply(st, UpdateListed(who, scan[0].1, scan[0].0), wait);
    UpdateScans(st, st', who, scan);
  }

  lemma NothingLeft(st: State, who: ServerId)
    requires Scans(st, who, [])
    ensures st.servers[who].op.todo == map[] && Updated(st, who, [], st)
  {
    forall n
      ensures n !in st.servers[who].op.todo
    {
      assert !InScan([], n);
    }
    assert st.servers[who].op.todo == map[];
  }

  lemma TodoTwice(servers: map<ServerId, Server>, who: ServerId, todo: map<SecretName, nat>)
    requires who in servers && servers[who].op.Scanning?
    ensures var once := servers[who := WithTodo(servers[who], todo)];
            once[who := WithTodo(once[who], map[])] == servers[who := WithTodo(servers[who], map[])]
  {
  }

  lemma ScansMeans(st: State, who: ServerId, scan: Scan)
    requires Scans(st, who, scan)
    ensures who in st.servers && st.servers[who].op.Scanning?
    ensures forall i | 0 <= i < |scan| :: scan[i].1 in st.servers && |st.servers[scan[i].1].loaded| > 0
    ensures forall i, j | 0 <= i < j < |scan| :: scan[i].0 != scan[j].0
  {
  }

  lemma UpdatedSooner(st: State, st': State, who: ServerId, scan: Scan, mid: State)
    requires who in st.servers && st.servers[who].op.Scanning?
    requires scan != [] && forall i, j | 0 <= i < j < |scan| :: scan[i].0 != scan[j].0
    requires forall i | 0 <= i < |scan| :: scan[i].1 in st.servers && |st.servers[scan[i].1].loaded| > 0
    requires st'.servers == st.servers[who := WithTodo(st.servers[who], st.servers[who].op.todo - {scan[0].0})]
    requires st'.saved == st.saved && st'.secrets.Keys == st.secrets.Keys
    requires scan[0].0 in st.secrets && st'.secrets[scan[0].0].key == st.servers[scan[0].1].loaded[0]
    requires forall n | n in st.secrets && n != scan[0].0 :: st'.secrets[n] == st.secrets[n]
    requires forall i | 0 <= i < |scan[1..]| :: scan[1..][i].1 in st'.servers && |st'.servers[scan[1..][i].1].loaded| > 0
    requires Updated(st', who, scan[1..], mid)
    ensures Updated(st, who, scan, mid)
  {
    TodoTwice(st.servers, who, st.servers[who].op.todo - {scan[0].0});
    RewrittenSooner(st, st', scan, mid.secrets);
  }

  /** Undisturbed, the updates of a scan are a run, for every order and choice of apiservers. */
  lemma {:induction false} UpdatesEffect(st: State, who: ServerId, scan: Scan, wait: bool)
    requires Scans(st, who, scan)
    ensures IsRun(st, Updates(who, scan), wait) && Updated(st, who, scan, After(st, Updates(who, scan), wait))
    decreases |scan|
  {
    if scan == [] {
      NothingLeft(st, who);
    } else {
      var st' := UpdateKeeps(st, who, scan, wait);
      UpdatesEffect(st', who, scan[1..], wait);
      ScansMeans(st, who, scan);
      ScansMeans(st', who, scan[1..]);
      UpdatedSooner(st, st', who, scan, After(st', Updates(who, scan[1..]), wait));
      StepThenRun(st, UpdateListed(who, scan[0].1, scan[0].0), Updates(who, scan[1..]), wait);
    }
  }

  lemma DropAndReload(st: State, who: ServerId, wait: bool)
    requires who in st.servers && st.servers[who].op.Scanning? && !st.servers[who].op.skip
    requires st.servers[who].op.todo == map[] && |st.servers[who].disk| > 0
    ensures IsRun(st, [FinishScan(who), Reload(who)], wait)
    ensures var end := After(st, [FinishScan(who), Reload(who)], wait);
            && end.servers.Keys == st.servers.Keys
            && end.servers[who].loaded == DropLast(st.servers[who].disk)
            && (forall t | t in st.servers && t != who :: end.servers[t] == st.servers[t])
            && end.secrets == st.secrets
  {
    var dropped := Apply(st, FinishScan(who), wait);
    StepThenRun(dropped, Reload(who), [], wait);
    StepThenRun(st, FinishScan(who), [Reload(who)], wait);
    assert [FinishScan(who)] + [Reload(who)] == [FinishScan(who), Reload(who)];
  }

  /** Whatever an apiserver would write with now, every apiserver can decrypt. */
  lemma WriteKeyIsShared(st: State, via: ServerId, t: ServerId)
    requires Inv(st) && via in st.servers && t in st.servers && |st.servers[via].loaded| > 0
    ensures st.servers[via].loaded[0] in st.servers[t].loaded
  {
    if core :| Settled(st, core) {
      assert SettledServer(core, st.servers[via]) && SettledServer(core, st.servers[t]);
      GrownHasCore(core, st.servers[via].loaded);
      GrownHasCore(core, st.servers[t].loaded);
    } else {
      var x :| Rotating(st, x);
      assert RotatingServer(x, st.servers[via]) && RotatingServer(x, st.servers[t]);
      RotatedKeepsKeys(x);
    }
  }

  lemma EndedSafeWhen(st: State, who: ServerId, scan: Scan, end: State)
    requires Covers(scan, st) && who in st.servers && |st.servers[who].disk| > 0 && Ended(st, who, scan, end)
    requires forall i, t | 0 <= i < |scan| && t in st.servers :: st.servers[scan[i].1].loaded[0] in st.servers[t].loaded
    ensures AllReadable(end) <==>
            forall i | 0 <= i < |scan| :: st.servers[scan[i].1].loaded[0] in DropLast(st.servers[who].disk)
  {
    var left := DropLast(st.servers[who].disk);
    if AllReadable(end) {
      forall i | 0 <= i < |scan|
        ensures st.servers[scan[i].1].loaded[0] in left
      {
        assert who in end.servers && scan[i].0 in end.secrets;
      }
    }
    if forall i | 0 <= i < |scan| :: st.servers[scan[i].1].loaded[0] in left {
      forall t, n | t in end.servers && n in end.secrets
        ensures end.secrets[n].key in end.servers[t].loaded
      {
        assert InScan(scan, n);
        var i :| 0 <= i < |scan| && scan[i].0 == n;
        assert st.servers[scan[i].1].loaded[0] in st.servers[t].loaded;
      }
    }
  }

  lemma ScanSafeWhen(st: State, who: ServerId, scan: Scan)
    requires Inv(st) && Enabled(st, ReencryptRequest(who, false), false) && Covers(scan, st)
    ensures IsRun(st, Reencryption(who, scan), false) && |st.servers[who].disk| > 0
    ensures AllReadable(After(st, Reencryption(who, scan), false)) <==>
            forall i | 0 <= i < |scan| :: st.servers[scan[i].1].loaded[0] in DropLast(st.servers[who].disk)
  {
    var end := ScanEnds(st, who, scan);
    forall i, t | 0 <= i < |scan| && t in st.servers
      ensures st.servers[scan[i].1].loaded[0] in st.servers[t].loaded
    {
      WriteKeyIsShared(st, scan[i].1, t);
    }
    EndedSafeWhen(st, who, scan, end);
  }

  lemma ScanEnds(st: State, who: ServerId, scan: Scan) returns (end: State)
    requires Inv(st) && Enabled(st, ReencryptRequest(who, false), false) && Covers(scan, st)
    ensures IsRun(st, Reencryption(who, scan), false) && end == After(st, Reencryption(who, scan), false)
    ensures |st.servers[who].disk| > 0 && Ended(st, who, scan, end)
  {
    var st' := Apply(st, ReencryptRequest(who, false), false);
    ScanBegins(st, who, scan);
    ScansMeans(st', who, scan);
    end := UpdatedThenDropped(st', who, scan);
    StepThenRun(st, ReencryptRequest(who, false), Updates(who, scan) + [FinishScan(who), Reload(who)], false);
    EndedBefore(st, st', who, scan, end);
  }

  lemma EndedBefore(st: State, st': State, who: ServerId, scan: Scan, end: State)
    requires who in st.servers && |st.servers[who].disk| > 0 && st'.servers.Keys == st.servers.Keys && st'.secrets == st.secrets
    requires forall t | t in st.servers :: st'.servers[t].loaded == st.servers[t].loaded && st'.servers[t].disk == st.servers[t].disk
    requires forall i | 0 <= i < |scan| :: scan[i].1 in st.servers && |st.servers[scan[i].1].loaded| > 0
    requires Ended(st', who, scan, end)
    ensures Ended(st, who, scan, end)
  {
  }

  lemma UpdatedThenDropped(st: State, who: ServerId, scan: Scan) returns (end: State)
    requires Scans(st, who, scan) && !st.servers[who].op.skip
    ensures IsRun(st, Updates(who, scan) + [FinishScan(who), Reload(who)], false)
    ensures end == After(st, Updates(who, scan) + [FinishScan(who), Reload(who)], false) && Ended(st, who, scan, end)
  {
    UpdatesEffect(st, who, scan, false);
    var mid := After(st, Updates(who, scan), false);
    DropAndReload(mid, who, false);
    end := After(mid, [FinishScan(who), Reload(who)], false);
    RunsJoin(st, Updates(who, scan), [FinishScan(who), Reload(who)], false);
  }

  lemma ScanBegins(st: State, who: ServerId, scan: Scan)
    requires Inv(st) && Enabled(st, ReencryptRequest(who, false), false) && Covers(scan, st)
    ensures Scans(Apply(st, ReencryptRequest(who, false), false), who, scan)
  {
    var st' := Apply(st, ReencryptRequest(who, false), false);
    RotatedFileHasKeys(st, who);
    assert st'.servers[who].op.todo == Listing(st.secrets);
  }

  lemma RotatedFileHasKeys(st: State, who: ServerId)
    requires Inv(st) && who in st.servers
    ensures |st.servers[who].disk| > 0
  {
    if core :| Settled(st, core) {
      assert SettledServer(core, st.servers[who]);
    } else {
      var x :| Rotating(st, x);
      assert RotatingServer(x, st.servers[who]);
    }
  }

  /**
   One scan that nothing disturbs: in every state reached by a run that waited so far, it leaves every
   secret readable exactly when every apiserver that handles an update has loaded, first, a key that is
   not the dropped one.
   */
  lemma ReencryptSafeExactlyWhen(start: State, steps: seq<Step>, who: ServerId, scan: Scan)
    requires Initial(start) && IsRun(start, steps, true)
    requires Enabled(After(start, steps, true), ReencryptRequest(who, false), false)
    requires Covers(scan, After(start, steps, true))
    ensures var st := After(start, steps, true);
            && IsRun(st, Reencryption(who, scan), false) && |st.servers[who].disk| > 0
            && (AllReadable(After(st, Reencryption(who, scan), false)) <==>
                forall i | 0 <= i < |scan| :: st.servers[scan[i].1].loaded[0] in DropLast(st.servers[who].disk))
  {
    InitialInv(start);
    RunKeepsInv(start, steps);
    ScanSafeWhen(After(start, steps, true), who, scan);
  }

  /** The same with one apiserver handling all updates. */
  lemma ReencryptThroughOneSafeExactlyWhen(start: State, steps: seq<Step>, who: ServerId, via: ServerId, scan: Scan)
    requires Initial(start) && IsRun(start, steps, true)
    requires Enabled(After(start, steps, true), ReencryptRequest(who, false), false)
    requires Covers(scan, After(start, steps, true)) && via in After(start, steps, true).servers
    requires forall i | 0 <= i < |scan| :: scan[i].1 == via
    ensures var st := After(start, steps, true);
            && IsRun(st, Reencryption(who, scan), false) && |st.servers[who].disk| > 0 && |st.servers[via].loaded| > 0
            && (AllReadable(After(st, Reencryption(who, scan), false)) <==>
                st.secrets == map[] || st.servers[via].loaded[0] in DropLast(st.servers[who].disk))
  {
    var st := After(start, steps, true);
    ReencryptSafeExactlyWhen(start, steps, who, scan);
    InitialInv(start);
    RunKeepsInv(start, steps);
    InvGivesReadable(st);
    if st.secrets != map[] {
      var n :| n in st.secrets;
      assert InScan(scan, n);
    } else if scan != [] {
      assert InScan(scan, scan[0].0);
      assert false;
    }
  }

  // ---------- A run that does not wait ----------

  /** One server that stores secret "x" under key 7. */
  function One(disk: seq<Key>, stage: Stage, loaded: seq<Key>): State {
    var n := Note(stage, disk);
    State(map[0 := Server(disk, n, n, loaded, Idle)], Saved(disk, n), map["x" := Stored(7, 0)], 0)
  }

  const TAIL := [ContinueTail(0), ContinueTail(0), ContinueTail(0)]
  const PREPARED := [PrepareRequest(0, 8)] + TAIL + [Reload(0)]
  const ROTATED := [RotateRequest(0)] + TAIL

  lemma OneAppends()
    ensures Enabled(One([7], Start, [7]), PrepareRequest(0, 8), true)
    ensures var st := Apply(One([7], Start, [7]), PrepareRequest(0, 8), true);
            IsRun(st, TAIL, true) && After(st, TAIL, true) == One([7, 8], Prepare, [7])
  {
    var st := Apply(One([7], Start, [7]), PrepareRequest(0, 8), true);
    assert st.servers[0].disk == [7, 8];
    TailRuns(st, 0, true);
  }

  lemma OnePrepares()
    ensures IsRun(One([7], Start, [7]), PREPARED, true)
    ensures After(One([7], Start, [7]), PREPARED, true) == One([7, 8], Prepare, [7, 8])
  {
    var st := One([7], Start, [7]);
    OneAppends();
    var appended := Apply(st, PrepareRequest(0, 8), true);
    StepThenRun(One([7, 8], Prepare, [7]), Reload(0), [], true);
    RunsJoin(appended, TAIL, [Reload(0)], true);
    StepThenRun(st, PrepareRequest(0, 8), TAIL + [Reload(0)], true);
    assert [PrepareRequest(0, 8)] + (TAIL + [Reload(0)]) == PREPARED;
  }

  lemma OneMayRotate()
    ensures Enabled(One([7, 8], Prepare, [7, 8]), RotateRequest(0), true)
    ensures var p := Note(Prepare, [7, 8]);
            Apply(One([7, 8], Prepare, [7, 8]), RotateRequest(0), true) ==
            State(map[0 := Server([8, 7], p, p, [7, 8], InTail(Announcing, Rotate, [7, 8], p))],
                  Saved([7, 8], p), map["x" := Stored(7, 0)], 0)
  {
    assert RightRotated([7, 8]) == [8, 7];
  }

  lemma OneRotates()
    ensures IsRun(One([7, 8], Prepare, [7, 8]), ROTATED, true)
    ensures After(One([7, 8], Prepare, [7, 8]), ROTATED, true) == One([8, 7], Rotate, [7, 8])
  {
    var st := One([7, 8], Prepare, [7, 8]);
    OneMayRotate();
    var rotated := Apply(st, RotateRequest(0), true);
    TailRuns(rotated, 0, true);
    StepThenRun(st, RotateRequest(0), TAIL, true);
  }

  /**
   A run that waits at rotate but not at reencrypt: the server still writes under key 7, the scan
   leaves the secret there, and key 7 is dropped.
   */
  lemma HastyReencryptLosesSecret()
    ensures Initial(One([7], Start, [7])) && IsRun(One([7], Start, [7]), PREPARED + ROTATED, true)
    ensures var st := After(One([7], Start, [7]), PREPARED + ROTATED, true);
            IsRun(st, Reencryption(0, [("x", 0)]), false) && !AllReadable(After(st, Reencryption(0, [("x", 0)]), false))
  {
    var start := One([7], Start, [7]);
    OnePrepares();
    OneRotates();
    RunsJoin(start, PREPARED, ROTATED, true);
    OneAcceptsScan();
    ReencryptSafeExactlyWhen(start, PREPARED + ROTATED, 0, [("x", 0)]);
  }

  lemma OneAcceptsScan()
    ensures var st := One([8, 7], Rotate, [7, 8]);
            && Enabled(st, ReencryptRequest(0, false), false) && Covers([("x", 0)], st)
            && st.servers[0].loaded[0] !in DropLast(st.servers[0].disk)
  {
    var scan: Scan := [("x", 0)];
    assert scan[0].0 == "x";
    assert InScan(scan, "x");
    assert DropLast([8, 7]) == [8];
  }
}
