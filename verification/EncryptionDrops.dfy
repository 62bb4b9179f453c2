/**
 Exactly when a re-encryption requested without waiting for the apiservers is safe, whatever happens
 afterwards: every apiserver writes with a key that is not the one to be dropped.
 */
module EncryptionDrops {
  import opened EncryptionProtocol
  import opened EncryptionSafety
  import opened EncryptionLoads
  import opened EncryptionScans
  import opened EncryptionWaits

  function Requested(st: State, who: ServerId): State
    requires Enabled(st, ReencryptRequest(who, false), false)
  {
    Apply(st, ReencryptRequest(who, false), false)
  }

  /** An apiserver with these keys decrypts what is stored under `core`, and writes under it. */
  predicate Serves(core: seq<Key>, loaded: seq<Key>) {
    |loaded| > 0 && loaded[0] in core && forall k | k in core :: k in loaded
  }

  lemma GrownServes(core: seq<Key>, loaded: seq<Key>)
    requires |core| > 0 && Grows(core, loaded)
    ensures Serves(core, loaded)
  {
    GrownHasCore(core, loaded);
    assert core[0] in core;
  }

  // ---------- A scan that did not wait ----------

  predicate HeldOp(r: seq<Key>, s: Server) {
    match s.op
    case Idle => s.hashFile == Note(Rotate, r) && s.note in {Note(Rotate, r), Note(ReencryptActive, r)}
    case Scanning(skip, _) => !skip && s.hashFile == Note(Rotate, r) && s.note == Note(ReencryptActive, r)
    case InTail(progress, next, _, _) =>
      && next == Rotate && progress != Announcing && s.note == Note(Rotate, r)
      && (progress == Publishing ==> s.hashFile == s.note)
  }

  predicate HeldServer(r: seq<Key>, s: Server)
    requires |r| > 0
  {
    s.disk == r && HeldOp(r, s) && Serves(DropLast(r), s.loaded)
  }

  /** A secret under a key that stays, or still to be updated. */
  predicate Cleared(r: seq<Key>, s: Server, n: SecretName, stored: Stored)
    requires |r| > 0
  {
    s.op.Scanning? ==> stored.key in DropLast(r) || Pending(s.op.todo, n, stored)
  }

  /**
   Every file holds the rotated list, only `who` may be scanning, and the apiservers may lag behind as
   long as they serve what is left when the last key is dropped.
   */
  ghost predicate Held(st: State, r: seq<Key>, who: ServerId) {
    && |r| > 1 && who in st.servers && st.saved == Saved(r, Note(Rotate, r))
    && (forall t | t in st.servers :: HeldServer(r, st.servers[t]) && (st.servers[t].op.Scanning? ==> t == who))
    && (forall n | n in st.secrets :: st.secrets[n].key in r && Cleared(r, st.servers[who], n, st.secrets[n]))
    && AllReadable(st)
  }

  lemma RequestIsHeld(st: State, who: ServerId)
    requires Inv(st) && Enabled(st, ReencryptRequest(who, false), false) && |st.servers[who].disk| > 0
    requires forall t | t in st.servers :: |st.servers[t].loaded| > 0 && st.servers[t].loaded[0] in DropLast(st.servers[who].disk)
    ensures Held(Requested(st, who), st.servers[who].disk, who)
  {
    var r := st.servers[who].disk;
    InvGivesReadable(st);
    if core :| Settled(st, core) {
      SettledIsHeld(st, core, who);
    } else {
      var x :| Rotating(st, x);
      RotatingIsHeld(st, x, who);
    }
    RequestScans(st, who, r);
  }

  /** What the guard of a re-encryption finds, with the apiservers where they are. */
  ghost predicate Ready(st: State, r: seq<Key>) {
    && |r| > 1 && st.saved == Saved(r, Note(Rotate, r))
    && (forall t | t in st.servers :: HeldServer(r, st.servers[t]) && !st.servers[t].op.Scanning?)
    && (forall n | n in st.secrets :: st.secrets[n].key in r)
    && AllReadable(st)
  }

  lemma SettledIsHeld(st: State, core: seq<Key>, who: ServerId)
    requires Settled(st, core) && who in st.servers && StageVerified(st, who, {Rotate}) && AllReadable(st)
    ensures Ready(st, st.servers[who].disk)
  {
    var r := st.servers[who].disk;
    SettledReencryptMeans(st, core, who);
    assert SettledServer(core, st.servers[who]);
    assert DropLast(r) == core;
    GrownHasCore(core, r);
    forall t | t in st.servers
      ensures HeldServer(r, st.servers[t]) && !st.servers[t].op.Scanning?
    {
      assert SettledServer(core, st.servers[t]);
      GrownServes(core, st.servers[t].loaded);
    }
  }

  lemma RotatingIsHeld(st: State, x: seq<Key>, who: ServerId)
    requires Rotating(st, x) && who in st.servers && st.servers[who].op.Idle? && StageVerified(st, who, {Rotate}) && AllReadable(st)
    requires |st.servers[who].disk| > 0
    requires forall t | t in st.servers :: |st.servers[t].loaded| > 0 && st.servers[t].loaded[0] in DropLast(st.servers[who].disk)
    ensures Ready(st, st.servers[who].disk)
  {
    var r := st.servers[who].disk;
    RotatingReencryptMeans(st, x, who);
    assert RotatingServer(x, st.servers[who]);
    RotatedKeepsKeys(x);
    forall t | t in st.servers
      ensures HeldServer(r, st.servers[t]) && !st.servers[t].op.Scanning?
    {
      assert RotatingServer(x, st.servers[t]);
      DroppedIsPart(r);
    }
  }

  lemma DroppedIsPart(r: seq<Key>)
    requires |r| > 0
    ensures forall k | k in DropLast(r) :: k in r
  {
  }

  lemma RequestScans(st: State, who: ServerId, r: seq<Key>)
    requires Ready(st, r) && Enabled(st, ReencryptRequest(who, false), false)
    ensures Held(Requested(st, who), r, who)
  {
    var st' := Requested(st, who);
    assert HeldServer(r, st.servers[who]);
    assert HeldServer(r, st'.servers[who]);
    forall n | n in st'.secrets
      ensures Cleared(r, st'.servers[who], n, st'.secrets[n])
    {
      assert Pending(Listing(st.secrets), n, st.secrets[n]);
    }
  }

  // ---------- Its steps ----------

  /** One server changes within the phase; a scan that it was doing goes on over fewer secrets or ends. */
  lemma HeldPut(st: State, r: seq<Key>, who: ServerId, t: ServerId, s: Server)
    requires Held(st, r, who) && t in st.servers && HeldServer(r, s) && (s.op.Scanning? ==> t == who)
    requires t == who && s.op.Scanning? ==> s.op == st.servers[who].op
    requires forall n | n in st.secrets :: st.secrets[n].key in s.loaded
    ensures Held(Put(st, t, s), r, who)
  {
    assert forall n | n in st.secrets :: Cleared(r, st.servers[who], n, st.secrets[n]);
  }

  lemma HeldSecrets(st: State, st': State, r: seq<Key>, who: ServerId)
    requires Held(st, r, who) && st'.servers == st.servers && st'.saved == st.saved
    requires forall n | n in st'.secrets :: (n in st.secrets && st'.secrets[n] == st.secrets[n]) || st'.secrets[n].key in DropLast(r)
    ensures Held(st', r, who)
  {
    DroppedIsPart(r);
    forall t, n | t in st'.servers && n in st'.secrets
      ensures st'.secrets[n].key in st'.servers[t].loaded
    {
      assert HeldServer(r, st.servers[t]);
    }
  }

  lemma HeldWrite(st: State, r: seq<Key>, who: ServerId, via: ServerId, name: SecretName)
    requires Held(st, r, who) && Enabled(st, WriteSecret(via, name), true)
    ensures Held(Apply(st, WriteSecret(via, name), true), r, who)
  {
    assert HeldServer(r, st.servers[via]);
    HeldSecrets(st, Apply(st, WriteSecret(via, name), true), r, who);
  }

  lemma HeldTail(st: State, r: seq<Key>, who: ServerId, t: ServerId)
    requires Held(st, r, who) && Enabled(st, ContinueTail(t), true)
    ensures Held(Apply(st, ContinueTail(t), true), r, who)
  {
    assert HeldServer(r, st.servers[t]);
    HeldPut(st, r, who, t, TailAdvanced(st.servers[t]));
    assert Apply(st, ContinueTail(t), true) == Put(st, t, TailAdvanced(st.servers[t]));
  }

  lemma HeldReload(st: State, r: seq<Key>, who: ServerId, t: ServerId, s: Server)
    requires Held(st, r, who) && t in st.servers
    requires s in {st.servers[t].(loaded := r), Server(r, Note(Rotate, r), Note(Rotate, r), r, Idle)}
    ensures Held(Put(st, t, s), r, who)
  {
    assert HeldServer(r, st.servers[t]);
    DroppedIsPart(r);
    assert r[0] == DropLast(r)[0];
    HeldPut(st, r, who, t, s);
  }

  /** After an update a secret is cleared: rewritten, already there, or changed since it was listed. */
  lemma UpdateClears(st: State, r: seq<Key>, who: ServerId, via: ServerId, name: SecretName, n: SecretName)
    requires |r| > 0 && Enabled(st, UpdateListed(who, via, name), true) && st.servers[via].loaded[0] in DropLast(r)
    requires n in st.secrets ==> Cleared(r, st.servers[who], n, st.secrets[n])
    requires n in Apply(st, UpdateListed(who, via, name), true).secrets
    ensures var st' := Apply(st, UpdateListed(who, via, name), true); Cleared(r, st'.servers[who], n, st'.secrets[n])
  {
  }

  /** An update of the scan leaves the phase, whichever apiserver handles it. */
  lemma HeldUpdate(st: State, r: seq<Key>, who: ServerId, via: ServerId, name: SecretName)
    requires Held(st, r, who) && Enabled(st, UpdateListed(who, via, name), true)
    ensures Held(Apply(st, UpdateListed(who, via, name), true), r, who)
  {
    var st' := Apply(st, UpdateListed(who, via, name), true);
    var s := st.servers[who];
    assert HeldServer(r, s) && HeldServer(r, st.servers[via]);
    var op := UpdateEffect(st, who, via, name);
    forall n | n in st'.secrets
      ensures Cleared(r, st'.servers[who], n, st'.secrets[n])
    {
      UpdateClears(st, r, who, via, name, n);
    }
    UpdatedIsHeld(st, st', r, who, op);
  }

  lemma StaysReadable(st: State, st': State, core: seq<Key>)
    requires AllReadable(st) && st'.servers.Keys == st.servers.Keys
    requires forall t | t in st.servers :: st'.servers[t].loaded == st.servers[t].loaded && Serves(core, st.servers[t].loaded)
    requires forall n | n in st'.secrets :: (n in st.secrets && st'.secrets[n] == st.secrets[n]) || st'.secrets[n].key in core
    ensures AllReadable(st')
  {
  }

  lemma UpdatedIsHeld(st: State, st': State, r: seq<Key>, who: ServerId, op: Operation)
    requires Held(st, r, who) && st.servers[who].op.Scanning?
    requires op.Idle? || (op.Scanning? && !op.skip)
    requires st'.servers == st.servers[who := st.servers[who].(op := op)] && st'.saved == st.saved
    requires forall n | n in st'.secrets :: (n in st.secrets && st'.secrets[n] == st.secrets[n]) || st'.secrets[n].key in DropLast(r)
    requires forall n | n in st'.secrets :: Cleared(r, st'.servers[who], n, st'.secrets[n])
    ensures Held(st', r, who)
  {
    DroppedIsPart(r);
    assert HeldServer(r, st.servers[who]);
    assert HeldServer(r, st'.servers[who]);
    StaysReadable(st, st', DropLast(r));
  }

  /** Once every apiserver has caught up, the ordinary phase of a rotation is back. */
  lemma HeldLoadedIsInv(st: State, r: seq<Key>, who: ServerId)
    requires Held(st, r, who) && AllLoaded(st) && forall t | t in st.servers :: !st.servers[t].op.Scanning?
    ensures Inv(st)
  {
    var x := r[1..] + [r[0]];
    assert RightRotated(x) == r;
    RotatedKeepsKeys(x);
    forall t | t in st.servers
      ensures RotatingServer(x, st.servers[t]) && SavedFollows(x, st.servers[t], st.saved)
    {
      assert HeldServer(r, st.servers[t]);
    }
    assert Rotating(st, x);
  }

  lemma HeldRequest(st: State, r: seq<Key>, who: ServerId, t: ServerId, skip: bool)
    requires Held(st, r, who) && Enabled(st, ReencryptRequest(t, skip), true)
    ensures Inv(Apply(st, ReencryptRequest(t, skip), true))
  {
    forall u | u in st.servers
      ensures !st.servers[u].op.Scanning?
    {
      assert HeldServer(r, st.servers[u]);
    }
    HeldLoadedIsInv(st, r, who);
    StepKeepsInv(st, ReencryptRequest(t, skip));
  }

  lemma HeldRefuses(st: State, r: seq<Key>, who: ServerId, t: ServerId, stages: set<Stage>)
    requires Held(st, r, who) && t in st.servers && stages <= {Start, Prepare, ReencryptFinished}
    ensures !StageVerified(st, t, stages)
  {
    assert HeldServer(r, st.servers[t]);
  }

  lemma HeldStep(st: State, r: seq<Key>, who: ServerId, step: Step)
    requires Held(st, r, who) && Enabled(st, step, true)
    ensures var st' := Apply(st, step, true); Held(st', r, who) || Lagging(st', DropLast(r)) || Inv(st')
  {
    match step
    case PrepareRequest(t, k) => HeldRefuses(st, r, who, t, {Start, ReencryptFinished});
    case RotateRequest(t) => HeldRefuses(st, r, who, t, {Prepare});
    case ReencryptRequest(t, skip) => HeldRequest(st, r, who, t, skip);
    case ContinueTail(t) => HeldTail(st, r, who, t);
    case UpdateListed(t, via, name) => HeldUpdate(st, r, who, via, name);
    case FinishScan(t) => HeldDrop(st, r, who);
    case AbortScan(t) => HeldAbort(st, r, who);
    case Reload(t) =>
      assert HeldServer(r, st.servers[t]);
      HeldReload(st, r, who, t, st.servers[t].(loaded := r));
    case Restart(t) => HeldReload(st, r, who, t, Server(r, Note(Rotate, r), Note(Rotate, r), r, Idle));
    case WriteSecret(via, name) => HeldWrite(st, r, who, via, name);
    case DeleteSecret(name) => HeldSecrets(st, Apply(st, step, true), r, who);
  }

  lemma HeldAbort(st: State, r: seq<Key>, who: ServerId)
    requires Held(st, r, who) && Enabled(st, AbortScan(who), true)
    ensures Held(Apply(st, AbortScan(who), true), r, who)
  {
    assert HeldServer(r, st.servers[who]);
    HeldPut(st, r, who, who, st.servers[who].(op := Idle));
  }

  // ---------- After the drop ----------

  /** The state as it would be had every apiserver loaded its file. */
  function CaughtUp(st: State): State {
    st.(servers := map t | t in st.servers :: st.servers[t].(loaded := st.servers[t].disk))
  }

  /** All is settled but for apiservers that still have older keys, and serve the core with them. */
  ghost predicate Lagging(st: State, core: seq<Key>) {
    Settled(CaughtUp(st), core) && AllServe(st, core)
  }

  ghost predicate AllServe(st: State, core: seq<Key>) {
    forall t | t in st.servers :: Serves(core, st.servers[t].loaded) && !st.servers[t].op.Scanning?
  }

  lemma HeldIsSettled(r: seq<Key>, s: Server)
    requires |r| > 1 && HeldServer(r, s) && !s.op.Scanning?
    ensures SettledServer(DropLast(r), s.(loaded := r)) && (s.op.InTail? ==> s.op.next == Rotate)
  {
  }

  lemma DropperIsSettled(r: seq<Key>, s: Server)
    requires |r| > 1 && HeldServer(r, s) && s.op.Scanning?
    ensures var core := DropLast(r);
            SettledServer(core, s.(disk := core, loaded := core, op := InTail(Announcing, ReencryptFinished, r, s.hashFile)))
  {
  }

  lemma HeldDrop(st: State, r: seq<Key>, who: ServerId)
    requires Held(st, r, who) && Enabled(st, FinishScan(who), true)
    ensures Lagging(Apply(st, FinishScan(who), true), DropLast(r))
  {
    var core := DropLast(r);
    assert HeldServer(r, st.servers[who]);
    forall n | n in st.secrets
      ensures st.secrets[n].key in core
    {
      assert Cleared(r, st.servers[who], n, st.secrets[n]);
    }
    DropServes(st, r, who);
    DropSettles(st, r, who);
  }

  lemma DropServes(st: State, r: seq<Key>, who: ServerId)
    requires |r| > 0 && Enabled(st, FinishScan(who), true) && !st.servers[who].op.skip
    requires forall t | t in st.servers :: Serves(DropLast(r), st.servers[t].loaded) && (st.servers[t].op.Scanning? ==> t == who)
    ensures AllServe(Apply(st, FinishScan(who), true), DropLast(r))
  {
  }

  lemma DropSettles(st: State, r: seq<Key>, who: ServerId)
    requires |r| > 1 && Enabled(st, FinishScan(who), true) && !st.servers[who].op.skip && st.saved == Saved(r, Note(Rotate, r))
    requires forall t | t in st.servers :: HeldServer(r, st.servers[t]) && (st.servers[t].op.Scanning? ==> t == who)
    requires forall n | n in st.secrets :: st.secrets[n].key in DropLast(r)
    ensures Settled(CaughtUp(Apply(st, FinishScan(who), true)), DropLast(r))
  {
    var core, up := DropLast(r), CaughtUp(Apply(st, FinishScan(who), true));
    assert HeldServer(r, st.servers[who]);
    DropperIsSettled(r, st.servers[who]);
    assert Anchors(up.servers[who], up.saved);
    forall t | t in up.servers
      ensures SettledServer(core, up.servers[t]) && (up.servers[t].op.InTail? ==> up.servers[t].op.next != Prepare)
    {
      assert HeldServer(r, st.servers[t]);
      if t != who {
        HeldIsSettled(r, st.servers[t]);
        assert up.servers[t] == st.servers[t].(loaded := r);
      }
    }
  }

  lemma LaggingIsReadable(st: State, core: seq<Key>)
    requires Lagging(st, core)
    ensures AllReadable(st)
  {
    assert CaughtUp(st).secrets == st.secrets;
    forall t, n | t in st.servers && n in st.secrets
      ensures st.secrets[n].key in st.servers[t].loaded
    {
      assert Serves(core, st.servers[t].loaded);
    }
  }

  lemma LaggingLoadedIsInv(st: State, core: seq<Key>)
    requires Lagging(st, core) && AllLoaded(st)
    ensures Inv(st)
  {
    assert CaughtUp(st).servers == st.servers;
    assert CaughtUp(st) == st;
  }

  lemma SettledCatchesUp(st: State, core: seq<Key>)
    requires Settled(st, core)
    ensures Settled(CaughtUp(st), core)
  {
    var up := CaughtUp(st);
    var a :| a in st.servers && Anchors(st.servers[a], st.saved);
    assert a in up.servers && Anchors(up.servers[a], up.saved);
    forall t | t in up.servers
      ensures SettledServer(core, up.servers[t])
    {
      assert SettledServer(core, st.servers[t]);
    }
    forall t, u | t in up.servers && u in up.servers && t != u
      ensures KeptFrom(up.servers[t], up.servers[u].disk)
    {
      assert KeptFrom(st.servers[t], st.servers[u].disk);
    }
  }

  /** A step of the files and notes does the same to the state with everyone caught up. */
  lemma CatchingUpCommutes(st: State, step: Step)
    requires step.PrepareRequest? || step.ContinueTail? || step.Restart?
    requires Enabled(st, step, true)
    ensures Enabled(CaughtUp(st), step, true)
    ensures CaughtUp(Apply(st, step, true)) == CaughtUp(Apply(CaughtUp(st), step, true))
  {
    var a, b := CaughtUp(Apply(st, step, true)), CaughtUp(Apply(CaughtUp(st), step, true));
    assert a.servers.Keys == b.servers.Keys;
    assert forall t | t in a.servers :: a.servers[t] == b.servers[t];
    assert a.servers == b.servers;
  }

  lemma LaggingFileStep(st: State, core: seq<Key>, step: Step)
    requires step.PrepareRequest? || step.ContinueTail? || step.Restart?
    requires Lagging(st, core) && Enabled(st, step, true)
    ensures Lagging(Apply(st, step, true), core)
  {
    CatchingUpCommutes(st, step);
    SettledFileStep(CaughtUp(st), core, step);
    SettledCatchesUp(Apply(CaughtUp(st), step, true), core);
    FileStepServes(st, core, step);
  }

  lemma SettledFileStep(st: State, core: seq<Key>, step: Step)
    requires step.PrepareRequest? || step.ContinueTail? || step.Restart?
    requires Settled(st, core) && Enabled(st, step, true)
    ensures Settled(Apply(st, step, true), core)
  {
    match step {
      case PrepareRequest(t, k) => SettledPrepare(st, core, t, k);
      case ContinueTail(t) => SettledTail(st, core, t);
      case Restart(t) => SettledRestart(st, core, t);
    }
  }

  lemma FileStepServes(st: State, core: seq<Key>, step: Step)
    requires step.PrepareRequest? || step.ContinueTail? || step.Restart?
    requires AllServe(st, core) && |core| > 0 && Grows(core, st.saved.keys) && Enabled(st, step, true)
    ensures AllServe(Apply(st, step, true), core)
  {
    assert Serves(core, st.servers[step.who].loaded);
    GrownServes(core, st.saved.keys);
  }

  lemma ReloadIsCaughtUp(st: State, t: ServerId)
    requires t in st.servers
    ensures CaughtUp(Apply(st, Reload(t), true)) == CaughtUp(st)
  {
    var a, b := CaughtUp(Apply(st, Reload(t), true)).servers, CaughtUp(st).servers;
    assert a.Keys == b.Keys && forall u | u in a :: a[u] == b[u];
    assert a == b;
  }

  lemma ReloadServes(st: State, core: seq<Key>, t: ServerId)
    requires AllServe(st, core) && t in st.servers && Serves(core, st.servers[t].disk)
    ensures AllServe(Apply(st, Reload(t), true), core)
  {
    assert !st.servers[t].op.Scanning?;
  }

  lemma LaggingReload(st: State, core: seq<Key>, t: ServerId)
    requires Lagging(st, core) && t in st.servers
    ensures Lagging(Apply(st, Reload(t), true), core)
  {
    FileServes(st, core, t);
    ReloadServes(st, core, t);
    ReloadIsCaughtUp(st, t);
  }

  lemma FileServes(st: State, core: seq<Key>, t: ServerId)
    requires Settled(CaughtUp(st), core) && t in st.servers
    ensures Serves(core, st.servers[t].disk)
  {
    assert SettledServer(core, CaughtUp(st).servers[t]);
    GrownServes(core, st.servers[t].disk);
  }

  lemma LaggingSecrets(st: State, st': State, core: seq<Key>)
    requires Lagging(st, core) && st'.servers == st.servers && st'.saved == st.saved
    requires forall n | n in st'.secrets :: st'.secrets[n].key in core
    ensures Lagging(st', core)
  {
    SettledSecrets(CaughtUp(st), CaughtUp(st'), core);
  }

  lemma LaggingWrite(st: State, core: seq<Key>, via: ServerId, name: SecretName)
    requires Lagging(st, core) && Enabled(st, WriteSecret(via, name), true)
    ensures Lagging(Apply(st, WriteSecret(via, name), true), core)
  {
    assert Serves(core, st.servers[via].loaded) && CaughtUp(st).secrets == st.secrets;
    LaggingSecrets(st, Apply(st, WriteSecret(via, name), true), core);
  }

  lemma LaggingGuarded(st: State, core: seq<Key>, step: Step)
    requires Lagging(st, core) && AllLoaded(st) && Enabled(st, step, true)
    ensures Inv(Apply(st, step, true))
  {
    LaggingLoadedIsInv(st, core);
    StepKeepsInv(st, step);
  }

  lemma LaggingStep(st: State, core: seq<Key>, step: Step)
    requires Lagging(st, core) && Enabled(st, step, true)
    ensures var st' := Apply(st, step, true); Lagging(st', core) || Inv(st')
  {
    match step
    case PrepareRequest(t, k) => LaggingFileStep(st, core, step);
    case ContinueTail(t) => LaggingFileStep(st, core, step);
    case Restart(t) => LaggingFileStep(st, core, step);
    case RotateRequest(t) => LaggingGuarded(st, core, step);
    case ReencryptRequest(t, skip) => LaggingGuarded(st, core, step);
    case Reload(t) => LaggingReload(st, core, t);
    case WriteSecret(via, name) => LaggingWrite(st, core, via, name);
    case DeleteSecret(name) =>
      assert CaughtUp(st).secrets == st.secrets;
      LaggingSecrets(st, Apply(st, step, true), core);
    case UpdateListed(t, via, name) =>
    case FinishScan(t) =>
    case AbortScan(t) =>
  }

  // ---------- Safe and unsafe runs ----------

  lemma {:induction false} LaggingRunSafe(st: State, core: seq<Key>, steps: seq<Step>)
    requires (Lagging(st, core) || Inv(st)) && IsRun(st, steps, true)
    ensures AllReadable(After(st, steps, true))
    decreases |steps|
  {
    if Inv(st) {
      RunKeepsInv(st, steps);
      InvGivesReadable(After(st, steps, true));
    } else if steps == [] {
      LaggingIsReadable(st, core);
    } else {
      LaggingStep(st, core, steps[0]);
      LaggingRunSafe(Apply(st, steps[0], true), core, steps[1..]);
    }
  }

  lemma {:induction false} HeldRunSafe(st: State, r: seq<Key>, who: ServerId, steps: seq<Step>)
    requires Held(st, r, who) && IsRun(st, steps, true)
    ensures AllReadable(After(st, steps, true))
    decreases |steps|
  {
    if steps != [] {
      var st' := Apply(st, steps[0], true);
      HeldStep(st, r, who, steps[0]);
      if Held(st', r, who) {
        HeldRunSafe(st', r, who, steps[1..]);
      } else {
        LaggingRunSafe(st', DropLast(r), steps[1..]);
      }
    }
  }

  lemma {:induction false} ScanOf(names: set<SecretName>, via: ServerId) returns (scan: Scan)
    ensures forall i, j | 0 <= i < j < |scan| :: scan[i].0 != scan[j].0
    ensures forall n :: n in names <==> InScan(scan, n)
    ensures forall i | 0 <= i < |scan| :: scan[i].1 == via
    decreases |names|
  {
    if names == {} {
      scan := [];
    } else {
      var n :| n in names;
      var rest := ScanOf(names - {n}, via);
      scan := [(n, via)] + rest;
      assert scan[1..] == rest && scan[0] == (n, via);
      forall i | 0 <= i < |rest|
        ensures rest[i].0 != n
      {
        assert InScan(rest, rest[i].0);
      }
      forall m
        ensures m in names <==> InScan(scan, m)
      {
        InScanSplit(scan, m);
      }
    }
  }

  /** A secret written when the scan is through its list, and then the drop and the reload. */
  lemma WriteAndDrop(st: State, who: ServerId, t: ServerId, name: SecretName)
    requires who in st.servers && st.servers[who].op.Scanning? && !st.servers[who].op.skip
    requires st.servers[who].op.todo == map[] && |st.servers[who].disk| > 0
    requires t in st.servers && |st.servers[t].loaded| > 0 && st.servers[t].loaded[0] !in DropLast(st.servers[who].disk)
    ensures var steps := [WriteSecret(t, name)] + [FinishScan(who), Reload(who)];
            IsRun(st, steps, true) && !AllReadable(After(st, steps, true))
  {
    var written := Apply(st, WriteSecret(t, name), true);
    var ending := [FinishScan(who), Reload(who)];
    DropAndReload(written, who, true);
    StepThenRun(st, WriteSecret(t, name), ending, true);
    var end := After(written, ending, true);
    assert who in end.servers && name in end.secrets && end.secrets[name].key == st.servers[t].loaded[0];
  }

  lemma UnsafeRun(st: State, first: seq<Step>, later: seq<Step>)
    requires IsRun(st, first, true) && IsRun(After(st, first, true), later, true)
    requires !AllReadable(After(After(st, first, true), later, true))
    ensures !SafeEver(st)
  {
    RunsJoin(st, first, later, true);
    assert IsRun(st, first + later, true);
  }

  /** One secret written through an apiserver that still uses the key to be dropped is lost. */
  lemma LaggardSpoils(st: State, who: ServerId, t: ServerId)
    requires Inv(st) && Enabled(st, ReencryptRequest(who, false), false) && |st.servers[who].disk| > 0
    requires t in st.servers && |st.servers[t].loaded| > 0 && st.servers[t].loaded[0] !in DropLast(st.servers[who].disk)
    ensures !SafeEver(Requested(st, who))
  {
    var mid, updates := ScannedBy(st, who, t);
    WriteAndDrop(mid, who, t, "s");
    UnsafeRun(Requested(st, who), updates, [WriteSecret(t, "s")] + [FinishScan(who), Reload(who)]);
  }

  lemma ScannedThrough(st: State, who: ServerId, scan: Scan) returns (mid: State)
    requires Scans(st, who, scan)
    ensures IsRun(st, Updates(who, scan), true) && mid == After(st, Updates(who, scan), true)
    ensures mid.servers == st.servers[who := WithTodo(st.servers[who], map[])]
  {
    UpdatesEffect(st, who, scan, true);
    mid := After(st, Updates(who, scan), true);
  }

  /** A whole scan through one apiserver. */
  lemma ScannedBy(st: State, who: ServerId, t: ServerId) returns (mid: State, updates: seq<Step>)
    requires Inv(st) && Enabled(st, ReencryptRequest(who, false), false)
    requires t in st.servers && |st.servers[t].loaded| > 0
    ensures IsRun(Requested(st, who), updates, true) && mid == After(Requested(st, who), updates, true)
    ensures who in mid.servers && mid.servers[who].op == Scanning(false, map[]) && mid.servers[who].disk == st.servers[who].disk
    ensures t in mid.servers && mid.servers[t].loaded == st.servers[t].loaded
  {
    var scan := ScanOf(st.secrets.Keys, t);
    assert Covers(scan, st);
    ScanBegins(st, who, scan);
    updates := Updates(who, scan);
    mid := ScannedThrough(Requested(st, who), who, scan);
  }

  lemma SafeEverWhenServed(st: State, who: ServerId)
    requires Inv(st) && Enabled(st, ReencryptRequest(who, false), false)
    ensures |st.servers[who].disk| > 0 && forall t | t in st.servers :: |st.servers[t].loaded| > 0
    ensures SafeEver(Requested(st, who)) <==>
            forall t | t in st.servers :: st.servers[t].loaded[0] in DropLast(st.servers[who].disk)
  {
    RotatedFileHasKeys(st, who);
    InvGivesReadable(st);
    var r, st' := st.servers[who].disk, Requested(st, who);
    if t :| t in st.servers && st.servers[t].loaded[0] !in DropLast(r) {
      LaggardSpoils(st, who, t);
    } else {
      RequestIsHeld(st, who);
      forall later | IsRun(st', later, true)
        ensures AllReadable(After(st', later, true))
      {
        HeldRunSafe(st', r, who, later);
      }
    }
  }

  /**
   MAIN: in every state reached by a run that waited so far, a re-encryption requested without waiting
   leaves all secrets readable through every later run, with whatever clients write meanwhile, exactly
   when every apiserver writes with a key other than the one to be dropped.
   */
  lemma ReencryptSafeEverExactlyWhen(start: State, steps: seq<Step>, who: ServerId)
    requires Initial(start) && IsRun(start, steps, true)
    requires Enabled(After(start, steps, true), ReencryptRequest(who, false), false)
    ensures var st := After(start, steps, true);
            && |st.servers[who].disk| > 0 && (forall t | t in st.servers :: |st.servers[t].loaded| > 0)
            && (SafeEver(Requested(st, who)) <==>
                forall t | t in st.servers :: st.servers[t].loaded[0] in DropLast(st.servers[who].disk))
  {
    InitialInv(start);
    RunKeepsInv(start, steps);
    SafeEverWhenServed(After(start, steps, true), who);
  }
}
