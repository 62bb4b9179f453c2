/**
 Exactly when a rotation requested without waiting for the apiservers is safe, whatever happens
 afterwards: every apiserver has loaded the prepared key, or there is only one.
 */
module EncryptionWaits {
  import opened EncryptionProtocol
  import opened EncryptionSafety
  import opened EncryptionLoads

  /** Every run that waits from here on keeps every secret readable. */
  ghost predicate SafeEver(st: State) {
    forall later | IsRun(st, later, true) :: AllReadable(After(st, later, true))
  }

  function Rotated(st: State, who: ServerId): State
    requires Enabled(st, RotateRequest(who), false)
  {
    Apply(st, RotateRequest(who), false)
  }

  // ---------- A prepared key is new ----------

  predicate FreshNote(n: Note) {
    n.stage == Prepare ==> |n.keys| > 0 && n.keys[|n.keys| - 1] !in DropLast(n.keys)
  }

  predicate FreshServer(s: Server) {
    FreshNote(s.note) && FreshNote(s.hashFile) && (s.op.InTail? ==> FreshNote(Note(s.op.next, s.disk)))
  }

  ghost predicate FreshNotes(st: State) {
    FreshNote(st.saved.note) && forall t | t in st.servers :: FreshServer(st.servers[t])
  }

  lemma StepKeepsFresh(st: State, step: Step)
    requires FreshNotes(st) && Enabled(st, step, true)
    ensures FreshNotes(Apply(st, step, true))
  {
    match step
    case PrepareRequest(who, k) =>
      var s := st.servers[who];
      assert FreshServer(s);
      assert DropLast(s.disk + [k]) == s.disk;
    case ContinueTail(who) => assert FreshServer(st.servers[who]);
    case UpdateListed(who, via, name) => assert FreshServer(st.servers[who]);
    case FinishScan(who) => assert FreshServer(st.servers[who]);
    case AbortScan(who) => assert FreshServer(st.servers[who]);
    case Reload(who) => assert FreshServer(st.servers[who]);
    case RotateRequest(who) => assert FreshServer(st.servers[who]);
    case ReencryptRequest(who, skip) => assert FreshServer(st.servers[who]);
    case Restart(who) =>
    case WriteSecret(via, name) =>
    case DeleteSecret(name) =>
  }

  lemma {:induction false} RunKeepsFresh(st: State, steps: seq<Step>)
    requires FreshNotes(st) && IsRun(st, steps, true)
    ensures FreshNotes(After(st, steps, true))
    decreases |steps|
  {
    if steps != [] {
      StepKeepsFresh(st, steps[0]);
      RunKeepsFresh(Apply(st, steps[0], true), steps[1..]);
    }
  }

  // ---------- All have loaded the key ----------

  lemma LoadedWhenHeld(st: State, core: seq<Key>, who: ServerId)
    requires Settled(st, core) && FreshNotes(st) && Enabled(st, RotateRequest(who), false)
    requires forall t | t in st.servers :: LastKey(st.servers[who]) in st.servers[t].loaded
    ensures AllLoaded(st)
  {
    var x, k := st.servers[who].disk, LastKey(st.servers[who]);
    RotateGuardMeans(st, core, who);
    assert FreshServer(st.servers[who]);
    assert DropLast(x) == core && x == core + [k];
    forall t | t in st.servers
      ensures st.servers[t].loaded == st.servers[t].disk
    {
      assert SettledServer(core, st.servers[t]);
      HeldIsLoaded(core, k, st.servers[t].loaded);
    }
  }

  lemma HeldIsLoaded(core: seq<Key>, k: Key, loaded: seq<Key>)
    requires Grows(core, loaded) && k !in core && k in loaded
    ensures loaded == core + [k]
  {
    assert loaded == loaded[..|core|] + [loaded[|core|]];
  }

  lemma HeldRotationKeepsInv(st: State, who: ServerId)
    requires Inv(st) && FreshNotes(st) && Enabled(st, RotateRequest(who), false)
    requires forall t | t in st.servers :: LastKey(st.servers[who]) in st.servers[t].loaded
    ensures Inv(Rotated(st, who))
  {
    if core :| Settled(st, core) {
      LoadedWhenHeld(st, core, who);
      StepKeepsInv(st, RotateRequest(who));
    } else {
      var x :| Rotating(st, x);
      RotatingAgain(st, x, who);
    }
  }

  /** A second server rotates: it holds the prepared list and goes to the rotated one. */
  lemma RotatingAgain(st: State, x: seq<Key>, who: ServerId)
    requires Inv(st) && Rotating(st, x) && Enabled(st, RotateRequest(who), false)
    ensures Inv(Rotated(st, who))
  {
    var st' := Rotated(st, who);
    assert RotatingServer(x, st.servers[who]);
    RotatingPut(st, x, who, st'.servers[who]);
    forall c | c in st.servers
      ensures !st.servers[c].op.Scanning?
    {
      VerifiedMeansNoScan(st, c, who, {Prepare});
    }
  }

  // ---------- A lone server that has not loaded it ----------

  /** The state as it would be had the lone server loaded the prepared list. */
  function Caught(st: State, x: seq<Key>, who: ServerId): State
    requires who in st.servers
  {
    Put(st, who, st.servers[who].(loaded := x))
  }

  /** All is as in a rotation, but the lone server and its secrets are still at the core list. */
  ghost predicate Behind(st: State, x: seq<Key>, who: ServerId) {
    && st.servers.Keys == {who} && |x| > 1 && Rotating(Caught(st, x, who), x)
    && !st.servers[who].op.Scanning?
    && Grows(DropLast(x), st.servers[who].loaded) && x[|x| - 1] !in st.servers[who].loaded
    && forall n | n in st.secrets :: st.secrets[n].key in DropLast(x)
  }

  lemma BehindIsReadable(st: State, x: seq<Key>, who: ServerId)
    requires Behind(st, x, who)
    ensures AllReadable(st) && !AllLoaded(st)
  {
    GrownHasCore(DropLast(x), st.servers[who].loaded);
    RotatedKeepsKeys(x);
    assert RotatingServer(x, Caught(st, x, who).servers[who]);
    assert x[|x| - 1] in st.servers[who].disk;
  }

  lemma BehindStep(st: State, x: seq<Key>, who: ServerId, step: Step)
    requires Behind(st, x, who) && Enabled(st, step, true)
    ensures var st' := Apply(st, step, true); Behind(st', x, who) || Inv(st')
  {
    var st' := Apply(st, step, true);
    var caught := Caught(st, x, who);
    BehindIsReadable(st, x, who);
    assert RotatingServer(x, caught.servers[who]);
    match step
    case PrepareRequest(t, k) => RotatingRefusesPrepare(caught, x, who);
    case RotateRequest(t) =>
    case ReencryptRequest(t, skip) =>
    case ContinueTail(t) => BehindTail(st, x, who);
    case UpdateListed(t, via, name) =>
    case FinishScan(t) =>
    case AbortScan(t) =>
    case Reload(t) => BehindCatchesUp(st, x, who, step);
    case Restart(t) => BehindCatchesUp(st, x, who, step);
    case WriteSecret(via, name) => BehindWrites(st, x, who, name);
    case DeleteSecret(name) =>
      assert Rotating(Caught(st', x, who), x);
  }

  lemma BehindTail(st: State, x: seq<Key>, who: ServerId)
    requires Behind(st, x, who) && Enabled(st, ContinueTail(who), true)
    ensures Behind(Apply(st, ContinueTail(who), true), x, who)
  {
    var caught := Caught(st, x, who);
    RotatingTail(caught, x, who);
    assert Caught(Apply(st, ContinueTail(who), true), x, who) == Apply(caught, ContinueTail(who), true);
  }

  lemma BehindCatchesUp(st: State, x: seq<Key>, who: ServerId, step: Step)
    requires Behind(st, x, who) && step in {Reload(who), Restart(who)}
    ensures Inv(Apply(st, step, true))
  {
    var caught := Caught(st, x, who);
    assert RotatingServer(x, caught.servers[who]) && SavedFollows(x, caught.servers[who], caught.saved);
    RotatingQuiet(caught, x, step);
    assert Apply(st, step, true) == Apply(caught, step, true);
  }

  lemma BehindWrites(st: State, x: seq<Key>, who: ServerId, name: SecretName)
    requires Behind(st, x, who) && Enabled(st, WriteSecret(who, name), true)
    ensures Behind(Apply(st, WriteSecret(who, name), true), x, who)
  {
    var st' := Apply(st, WriteSecret(who, name), true);
    GrownHasCore(DropLast(x), st.servers[who].loaded);
    assert forall k | k in DropLast(x) :: k in x;
    assert Caught(st', x, who).servers == Caught(st, x, who).servers;
    assert Rotating(Caught(st', x, who), x);
  }

  lemma {:induction false} BehindRunSafe(st: State, x: seq<Key>, who: ServerId, steps: seq<Step>)
    requires Behind(st, x, who) && IsRun(st, steps, true)
    ensures AllReadable(After(st, steps, true))
    decreases |steps|
  {
    if steps == [] {
      BehindIsReadable(st, x, who);
    } else {
      var st' := Apply(st, steps[0], true);
      BehindStep(st, x, who, steps[0]);
      if Behind(st', x, who) {
        BehindRunSafe(st', x, who, steps[1..]);
      } else {
        RunKeepsInv(st', steps[1..]);
        InvGivesReadable(After(st', steps[1..], true));
      }
    }
  }

  lemma RotatingHoldsKey(st: State, who: ServerId)
    requires Inv(st) && Enabled(st, RotateRequest(who), false)
    ensures (exists core :: Settled(st, core)) || LastKey(st.servers[who]) in st.servers[who].loaded
  {
    if x :| Rotating(st, x) {
      assert RotatingServer(x, st.servers[who]);
      RotatedKeepsKeys(x);
    }
  }

  lemma LoneRotationIsBehind(st: State, who: ServerId)
    requires Inv(st) && Enabled(st, RotateRequest(who), false) && st.servers.Keys == {who}
    requires LastKey(st.servers[who]) !in st.servers[who].loaded
    ensures Behind(Rotated(st, who), st.servers[who].disk, who)
  {
    var x := st.servers[who].disk;
    RotatingHoldsKey(st, who);
    var core :| Settled(st, core);
    RotateGuardMeans(st, core, who);
    GrownHasCore(core, x);
    assert SettledServer(core, st.servers[who]);
    assert DropLast(x) == core;
    var caught := Caught(Rotated(st, who), x, who);
    assert RotatingServer(x, caught.servers[who]) && SavedFollows(x, caught.servers[who], caught.saved);
    assert Rotating(caught, x);
  }

  // ---------- Runs that go wrong ----------

  /** The rotating server reloads and writes; another one has not loaded the key. */
  lemma OtherIsBehind(st: State, who: ServerId, t: ServerId)
    requires Enabled(st, RotateRequest(who), false) && t in st.servers && t != who
    requires LastKey(st.servers[who]) !in st.servers[t].loaded
    ensures !SafeEver(Rotated(st, who))
  {
    var st', name := Rotated(st, who), "s";
    var later := [Reload(who), WriteSecret(who, name)];
    var reloaded := Apply(st', Reload(who), true);
    var end := Apply(reloaded, WriteSecret(who, name), true);
    StepThenRun(reloaded, WriteSecret(who, name), [], true);
    StepThenRun(st', Reload(who), [WriteSecret(who, name)], true);
    assert [Reload(who)] + [WriteSecret(who, name)] == later;
    assert end.secrets[name].key == LastKey(st.servers[who]) && end.servers[t] == st.servers[t];
    assert IsRun(st', later, true) && !AllReadable(After(st', later, true));
  }

  /** The rotating server publishes without reloading; another one restarts from the datastore and writes. */
  lemma RotatorIsBehind(st: State, who: ServerId, u: ServerId)
    requires Enabled(st, RotateRequest(who), false) && u in st.servers && u != who
    requires LastKey(st.servers[who]) !in st.servers[who].loaded
    ensures !SafeEver(Rotated(st, who))
  {
    var st', name := Rotated(st, who), "s";
    var tail := [ContinueTail(who), ContinueTail(who), ContinueTail(who)];
    TailRuns(st', who, true);
    var saved := After(st', tail, true);
    var restarted := Apply(saved, Restart(u), true);
    var end := Apply(restarted, WriteSecret(u, name), true);
    assert restarted.servers[u].loaded == RightRotated(st.servers[who].disk);
    assert end.secrets[name].key == LastKey(st.servers[who]) && end.servers[who].loaded == st.servers[who].loaded;
    StepThenRun(restarted, WriteSecret(u, name), [], true);
    StepThenRun(saved, Restart(u), [WriteSecret(u, name)], true);
    var rest := [Restart(u)] + [WriteSecret(u, name)];
    RunsJoin(st', tail, rest, true);
    assert IsRun(st', tail + rest, true) && !AllReadable(After(st', tail + rest, true));
  }

  // ---------- The exact condition ----------

  lemma SafeEverWhen(st: State, who: ServerId)
    requires Inv(st) && FreshNotes(st) && Enabled(st, RotateRequest(who), false)
    ensures SafeEver(Rotated(st, who)) <==>
            st.servers.Keys == {who} || forall t | t in st.servers :: LastKey(st.servers[who]) in st.servers[t].loaded
  {
    var st', k := Rotated(st, who), LastKey(st.servers[who]);
    if forall t | t in st.servers :: k in st.servers[t].loaded {
      HeldRotationKeepsInv(st, who);
      forall later | IsRun(st', later, true)
        ensures AllReadable(After(st', later, true))
      {
        RunKeepsInv(st', later);
        InvGivesReadable(After(st', later, true));
      }
    } else if st.servers.Keys == {who} {
      LoneRotationIsBehind(st, who);
      forall later | IsRun(st', later, true)
        ensures AllReadable(After(st', later, true))
      {
        BehindRunSafe(st', st.servers[who].disk, who, later);
      }
    } else {
      var t :| t in st.servers && k !in st.servers[t].loaded;
      if t != who {
        OtherIsBehind(st, who, t);
      } else {
        var u :| u in st.servers && u != who;
        RotatorIsBehind(st, who, u);
      }
    }
  }

  /**
   MAIN: in every state reached by a run that waited so far, a rotation requested without waiting
   leaves all secrets readable through every later run exactly when every apiserver has loaded the
   prepared key, or there is only one server.
   */
  lemma RotationSafeEverExactlyWhen(start: State, steps: seq<Step>, who: ServerId)
    requires Initial(start) && IsRun(start, steps, true)
    requires Enabled(After(start, steps, true), RotateRequest(who), false)
    ensures var st := After(start, steps, true);
            SafeEver(Rotated(st, who)) <==>
            st.servers.Keys == {who} || forall t | t in st.servers :: LastKey(st.servers[who]) in st.servers[t].loaded
  {
    InitialInv(start);
    RunKeepsInv(start, steps);
    assert FreshNotes(start);
    RunKeepsFresh(start, steps);
    SafeEverWhen(After(start, steps, true), who);
  }
}
