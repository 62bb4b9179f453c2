/**
 Safety of the key rotation over every run: no server ever meets a secret it cannot decrypt, and the
 key dropped at the end of a re-encryption is one that no secret needs.

 Between two rotations the cluster is `Settled` on a core list that every server holds, possibly
 followed by one extra key (freshly prepared, or about to be dropped).  From the first rotate request
 to the first dropped key it is `Rotating`: every server holds the same keys, in one of two orders.
 */
module EncryptionSafety {
  import opened EncryptionProtocol

  // ---------- The invariant ----------

  predicate Grows(core: seq<Key>, keys: seq<Key>) {
    keys == core || (|keys| == |core| + 1 && keys[..|core|] == core)
  }

  /** A note that matches its key list, with the extra key exactly in the middle stages. */
  predicate SettledNote(core: seq<Key>, keys: seq<Key>, note: Note) {
    && Grows(core, keys) && note.keys == keys && note.stage != ReencryptActive
    && (note.stage in {Start, ReencryptFinished} <==> keys == core)
  }

  predicate SettledOp(core: seq<Key>, s: Server) {
    match s.op
    case Idle =>
      && SettledNote(core, s.disk, s.hashFile)
      && (s.note == s.hashFile || (s.note == Note(ReencryptActive, s.disk) && s.hashFile.stage == Rotate))
    case Scanning(_, _) =>
      && s.note == Note(ReencryptActive, s.disk) && s.hashFile == Note(Rotate, s.disk) && s.disk != core
    case InTail(progress, next, base, baseNote) =>
      && (progress == Publishing ==> s.hashFile == s.note)
      && (next == Prepare ==>
            && base == core && s.disk != core && SettledNote(core, base, baseNote)
            && s.note == (if progress == Announcing then baseNote else Note(Prepare, s.disk)))
      && (next == ReencryptFinished ==>
            && s.disk == core && Grows(core, base) && base != core && baseNote == Note(Rotate, base)
            && s.note == (if progress == Announcing then Note(ReencryptActive, base) else Note(ReencryptFinished, core)))
      && (next == Rotate ==> progress != Announcing && s.disk != core && s.note == Note(Rotate, s.disk))
      && next in {Prepare, Rotate, ReencryptFinished}
  }

  predicate SettledServer(core: seq<Key>, s: Server) {
    Grows(core, s.disk) && Grows(core, s.loaded) && SettledOp(core, s)
  }

  /** The server still stands where the datastore does, or started its pending request from there. */
  predicate Anchors(s: Server, saved: Saved) {
    if s.op.InTail?
    then s.op.next != Rotate && s.op.base == saved.keys && s.op.baseNote == saved.note
    else s.disk == saved.keys && s.hashFile == saved.note
  }

  ghost predicate Anchored(st: State) {
    exists t :: t in st.servers && Anchors(st.servers[t], st.saved)
  }

  /** The server is preparing a key that does not occur in `keys`, or not preparing at all. */
  predicate KeptFrom(s: Server, keys: seq<Key>) {
    s.op.InTail? && s.op.next == Prepare && |s.disk| > 0 ==> s.disk[|s.disk| - 1] !in keys
  }

  /** A prepared key stays on its server until it is saved to the datastore. */
  predicate PreparedPrivate(st: State) {
    && (forall t, u | t in st.servers && u in st.servers && t != u ::
          KeptFrom(st.servers[t], st.servers[u].disk))
    && (forall t | t in st.servers :: KeptFrom(st.servers[t], st.saved.keys))
  }

  ghost predicate Settled(st: State, core: seq<Key>) {
    && |core| > 0
    && (forall n | n in st.secrets :: st.secrets[n].key in core)
    && SettledNote(core, st.saved.keys, st.saved.note)
    && (forall t | t in st.servers :: SettledServer(core, st.servers[t]))
    && Anchored(st) && PreparedPrivate(st)
  }

  /** Key list and note agree on being before (`x`) or after (`r`) the rotation. */
  predicate Sided(x: seq<Key>, keys: seq<Key>, note: Note)
    requires |x| > 0
  {
    (keys == x && note == Note(Prepare, x)) || (keys == RightRotated(x) && note == Note(Rotate, RightRotated(x)))
  }

  predicate RotatingOp(x: seq<Key>, s: Server)
    requires |x| > 0
  {
    var r := RightRotated(x);
    match s.op
    case Idle =>
      && Sided(x, s.disk, s.hashFile)
      && (s.note == s.hashFile || (s.note == Note(ReencryptActive, r) && s.hashFile == Note(Rotate, r)))
    case Scanning(_, _) => s.disk == r && s.note == Note(ReencryptActive, r) && s.hashFile == Note(Rotate, r)
    case InTail(progress, next, base, baseNote) =>
      && next == Rotate && s.disk == r
      && s.note == (if progress == Announcing then Note(Prepare, x) else Note(Rotate, r))
      && (progress == Publishing ==> s.hashFile == s.note)
  }

  predicate RotatingServer(x: seq<Key>, s: Server)
    requires |x| > 0
  {
    s.disk in {x, RightRotated(x)} && s.loaded in {x, RightRotated(x)} && RotatingOp(x, s)
  }

  /** Once a server is done rotating, so is the datastore. */
  predicate SavedFollows(x: seq<Key>, s: Server, saved: Saved)
    requires |x| > 0
  {
    !s.op.InTail? && s.hashFile.stage == Rotate ==> saved.note.stage == Rotate
  }

  ghost predicate Rotating(st: State, x: seq<Key>) {
    && |x| > 1
    && (forall n | n in st.secrets :: st.secrets[n].key in x)
    && Sided(x, st.saved.keys, st.saved.note)
    && (forall t | t in st.servers :: RotatingServer(x, st.servers[t]) && SavedFollows(x, st.servers[t], st.saved))
  }

  /**
   While a server scans, everyone holds and saved the same list, and each secret is either under its
   write key or still to be updated at the revision it has.
   */
  ghost predicate ScanUnderway(st: State, c: ServerId)
    requires c in st.servers && st.servers[c].op.Scanning?
  {
    var keys := st.servers[c].disk;
    && |keys| > 1 && st.saved == Saved(keys, Note(Rotate, keys))
    && (forall t | t in st.servers ::
          && st.servers[t].disk == keys && st.servers[t].loaded == keys
          && (t != c ==> st.servers[t].note == Note(Rotate, keys)))
    && (forall n | n in st.secrets :: st.secrets[n].key == keys[0] || Pending(st.servers[c].op.todo, n, st.secrets[n]))
  }

  predicate Pending(todo: map<SecretName, nat>, n: SecretName, stored: Stored) {
    n in todo && todo[n] == stored.revision
  }

  ghost predicate ScansCovered(st: State) {
    forall c | c in st.servers && st.servers[c].op.Scanning? :: ScanUnderway(st, c)
  }

  ghost predicate Phase(st: State) {
    (exists core :: Settled(st, core)) || (exists x :: Rotating(st, x))
  }

  ghost predicate Inv(st: State) {
    ScansCovered(st) && Phase(st)
  }

  // ---------- Small facts about key lists ----------

  lemma RotatedKeepsKeys(x: seq<Key>)
    requires |x| > 0
    ensures forall k :: k in RightRotated(x) <==> k in x
  {
    assert x == x[..|x| - 1] + [x[|x| - 1]];
  }

  lemma GrownHasCore(core: seq<Key>, keys: seq<Key>)
    requires Grows(core, keys)
    ensures forall k | k in core :: k in keys
    ensures |core| > 0 ==> |keys| > 0 && keys[0] == core[0]
  {
    if keys != core {
      assert core == keys[..|core|];
    }
  }

  // ---------- The invariant gives safety ----------

  lemma InvGivesReadable(st: State)
    requires Inv(st)
    ensures AllReadable(st)
    ensures forall t | t in st.servers :: |st.servers[t].loaded| > 0
  {
    if core :| Settled(st, core) {
      forall t | t in st.servers
        ensures |st.servers[t].loaded| > 0
        ensures forall n | n in st.secrets :: st.secrets[n].key in st.servers[t].loaded
      {
        assert SettledServer(core, st.servers[t]);
        GrownHasCore(core, st.servers[t].loaded);
      }
    } else {
      var x :| Rotating(st, x);
      RotatedKeepsKeys(x);
      forall t | t in st.servers
        ensures |st.servers[t].loaded| > 0
        ensures forall n | n in st.secrets :: st.secrets[n].key in st.servers[t].loaded
      {
        assert RotatingServer(x, st.servers[t]);
      }
    }
  }

  lemma InitialInv(st: State)
    requires Initial(st)
    ensures Inv(st)
  {
    var t :| t in st.servers;
    assert Anchors(st.servers[t], st.saved);
    assert Settled(st, st.saved.keys);
  }

  // ---------- Settled is kept by every step but a rotate request ----------

  lemma SettledPrepare(st: State, core: seq<Key>, who: ServerId, k: Key)
    requires Settled(st, core) && Enabled(st, PrepareRequest(who, k), true)
    ensures Settled(Apply(st, PrepareRequest(who, k), true), core)
  {
    var st' := Apply(st, PrepareRequest(who, k), true);
    var s, s' := st.servers[who], st'.servers[who];
    assert SettledServer(core, s);
    assert SettledServer(core, s');
    var a :| a in st.servers && Anchors(st.servers[a], st.saved);
    assert a in st'.servers && Anchors(st'.servers[a], st'.saved);
    PreparedStaysPrivate(st, who, k);
  }

  lemma PreparedStaysPrivate(st: State, who: ServerId, k: Key)
    requires PreparedPrivate(st) && Enabled(st, PrepareRequest(who, k), true)
    ensures PreparedPrivate(Apply(st, PrepareRequest(who, k), true))
  {
    var st' := Apply(st, PrepareRequest(who, k), true);
    forall t, u | t in st'.servers && u in st'.servers && t != u
      ensures KeptFrom(st'.servers[t], st'.servers[u].disk)
    {
      assert KeptFrom(st.servers[t], st.servers[u].disk);
    }
    forall t | t in st'.servers
      ensures KeptFrom(st'.servers[t], st'.saved.keys)
    {
      assert KeptFrom(st.servers[t], st.saved.keys);
    }
  }

  lemma SettledTailServer(core: seq<Key>, s: Server)
    requires SettledServer(core, s) && s.op.InTail?
    ensures SettledServer(core, TailAdvanced(s))
    ensures s.op.progress == Publishing ==> SettledNote(core, s.disk, s.hashFile)
    ensures TailAdvanced(s).op.InTail? ==> TailAdvanced(s).op.next == s.op.next
  {
  }

  lemma SettledTail(st: State, core: seq<Key>, who: ServerId)
    requires Settled(st, core) && Enabled(st, ContinueTail(who), true)
    ensures Settled(Apply(st, ContinueTail(who), true), core)
  {
    var st' := Apply(st, ContinueTail(who), true);
    SettledTailServer(core, st.servers[who]);
    if st.servers[who].op.progress == Publishing {
      assert Anchors(st'.servers[who], st'.saved);
      forall t | t in st'.servers && t != who
        ensures KeptFrom(st'.servers[t], st'.saved.keys)
      {
        assert KeptFrom(st.servers[t], st.servers[who].disk);
      }
    } else {
      SettledUnlessMoved(st, TailAdvanced(st.servers[who]), core, who);
    }
  }

  lemma PrivateUnlessMoved(st: State, s: Server, who: ServerId)
    requires PreparedPrivate(st) && who in st.servers && s.disk == st.servers[who].disk
    requires s.op.InTail? ==> st.servers[who].op.InTail? && s.op.next == st.servers[who].op.next
    ensures PreparedPrivate(Put(st, who, s))
  {
    var st' := Put(st, who, s);
    forall t, u | t in st'.servers && u in st'.servers && t != u
      ensures KeptFrom(st'.servers[t], st'.servers[u].disk)
    {
      assert KeptFrom(st.servers[t], st.servers[u].disk);
    }
    forall t | t in st'.servers
      ensures KeptFrom(st'.servers[t], st'.saved.keys)
    {
      assert KeptFrom(st.servers[t], st.saved.keys);
    }
  }

  lemma AnchoredUnlessMoved(st: State, s: Server, who: ServerId)
    requires Anchored(st) && who in st.servers
    requires Anchors(st.servers[who], st.saved) ==> Anchors(s, st.saved)
    ensures Anchored(Put(st, who, s))
  {
    var a :| a in st.servers && Anchors(st.servers[a], st.saved);
    assert a in Put(st, who, s).servers && Anchors(Put(st, who, s).servers[a], st.saved);
  }

  /** Replacing one server by another of the same disk content and standing keeps the phase. */
  lemma SettledUnlessMoved(st: State, s: Server, core: seq<Key>, who: ServerId)
    requires Settled(st, core) && who in st.servers
    requires SettledServer(core, s) && s.disk == st.servers[who].disk
    requires Anchors(st.servers[who], st.saved) ==> Anchors(s, st.saved)
    requires s.op.InTail? ==> st.servers[who].op.InTail? && s.op.next == st.servers[who].op.next
    ensures Settled(Put(st, who, s), core)
  {
    PrivateUnlessMoved(st, s, who);
    AnchoredUnlessMoved(st, s, who);
  }

  lemma SettledSecrets(st: State, st': State, core: seq<Key>)
    requires Settled(st, core) && st'.servers == st.servers && st'.saved == st.saved
    requires forall n | n in st'.secrets :: st'.secrets[n].key in core
    ensures Settled(st', core)
  {
    var a :| a in st.servers && Anchors(st.servers[a], st.saved);
    assert a in st'.servers && Anchors(st'.servers[a], st'.saved);
  }

  lemma SettledWrite(st: State, core: seq<Key>, via: ServerId, name: SecretName)
    requires Settled(st, core) && Enabled(st, WriteSecret(via, name), true)
    ensures Settled(Apply(st, WriteSecret(via, name), true), core)
  {
    assert SettledServer(core, st.servers[via]);
    GrownHasCore(core, st.servers[via].loaded);
    SettledSecrets(st, Apply(st, WriteSecret(via, name), true), core);
  }

  /** An update moves the scan on, or ends it; a secret it rewrites gets the first key of `via`. */
  lemma UpdateEffect(st: State, who: ServerId, via: ServerId, name: SecretName) returns (op: Operation)
    requires Enabled(st, UpdateListed(who, via, name), true)
    ensures op.Idle? || op.Scanning?
    ensures var st' := Apply(st, UpdateListed(who, via, name), true);
            && st'.servers == st.servers[who := st.servers[who].(op := op)] && st'.saved == st.saved
            && (forall n | n in st'.secrets ::
                  (n in st.secrets && st'.secrets[n] == st.secrets[n]) || st'.secrets[n].key == st.servers[via].loaded[0])
  {
    op := Apply(st, UpdateListed(who, via, name), true).servers[who].op;
  }

  lemma SettledScanMoves(st: State, st': State, core: seq<Key>, who: ServerId, op: Operation)
    requires Settled(st, core) && who in st.servers && st.servers[who].op.Scanning? && (op.Idle? || op.Scanning?)
    requires st'.servers == st.servers[who := st.servers[who].(op := op)] && st'.saved == st.saved
    requires forall n | n in st'.secrets :: st'.secrets[n].key in core
    ensures Settled(st', core)
  {
    var s := st.servers[who].(op := op);
    assert SettledServer(core, st.servers[who]);
    SettledUnlessMoved(st, s, core, who);
    SettledSecrets(Put(st, who, s), st', core);
  }

  lemma SettledWriteKey(st: State, core: seq<Key>, via: ServerId)
    requires Settled(st, core) && via in st.servers && |st.servers[via].loaded| > 0
    ensures st.servers[via].loaded[0] in core
  {
    assert SettledServer(core, st.servers[via]);
    GrownHasCore(core, st.servers[via].loaded);
  }

  lemma SettledUpdate(st: State, core: seq<Key>, who: ServerId, via: ServerId, name: SecretName)
    requires Settled(st, core) && Enabled(st, UpdateListed(who, via, name), true)
    ensures Settled(Apply(st, UpdateListed(who, via, name), true), core)
  {
    var op := UpdateEffect(st, who, via, name);
    SettledWriteKey(st, core, via);
    SettledScanMoves(st, Apply(st, UpdateListed(who, via, name), true), core, who, op);
  }

  /** Steps that only touch the loaded keys, the note or the scan of one server. */
  lemma SettledQuiet(st: State, core: seq<Key>, step: Step)
    requires Settled(st, core) && Enabled(st, step, true)
    requires step.ReencryptRequest? || step.AbortScan? || step.Reload? ||
             (step.FinishScan? && st.servers[step.who].op.skip)
    ensures Settled(Apply(st, step, true), core)
  {
    assert SettledServer(core, st.servers[step.who]);
    SettledUnlessMoved(st, Apply(st, step, true).servers[step.who], core, step.who);
  }

  lemma SettledRestart(st: State, core: seq<Key>, who: ServerId)
    requires Settled(st, core) && who in st.servers
    ensures Settled(Apply(st, Restart(who), true), core)
  {
    var st' := Apply(st, Restart(who), true);
    assert Anchors(st'.servers[who], st'.saved);
    assert SettledServer(core, st'.servers[who]);
    forall t, u | t in st'.servers && u in st'.servers && t != u
      ensures KeptFrom(st'.servers[t], st'.servers[u].disk)
    {
      assert KeptFrom(st.servers[t], st.servers[u].disk) && KeptFrom(st.servers[t], st.saved.keys);
    }
  }

  lemma SettledDrop(st: State, core: seq<Key>, who: ServerId)
    requires Settled(st, core) && ScansCovered(st) && Enabled(st, FinishScan(who), true)
    requires !st.servers[who].op.skip
    ensures Settled(Apply(st, FinishScan(who), true), core)
  {
    var st' := Apply(st, FinishScan(who), true);
    assert SettledServer(core, st.servers[who]);
    assert ScanUnderway(st, who);
    assert st'.servers[who].disk == core;
    assert Anchors(st'.servers[who], st'.saved);
    forall t | t in st'.servers
      ensures SettledServer(core, st'.servers[t])
      ensures st'.servers[t].op.InTail? ==> st'.servers[t].op.next != Prepare
    {
      assert SettledServer(core, st.servers[t]);
    }
  }

  // ---------- The two changes of phase ----------

  /** When a rotate request is accepted, every server and the datastore hold the prepared list. */
  lemma RotateGuardMeans(st: State, core: seq<Key>, who: ServerId)
    requires Settled(st, core) && Enabled(st, RotateRequest(who), false)
    ensures Grows(core, st.servers[who].disk) && st.servers[who].disk != core
    ensures forall t | t in st.servers ::
              && st.servers[t].op.Idle? && st.servers[t].disk == st.servers[who].disk
              && st.servers[t].note == st.servers[t].hashFile == st.servers[who].note
    ensures st.saved == Saved(st.servers[who].disk, st.servers[who].note)
  {
    var x := st.servers[who].disk;
    assert SettledServer(core, st.servers[who]);
    forall t | t in st.servers
      ensures st.servers[t].op.Idle? && st.servers[t].disk == x
    {
      assert SettledServer(core, st.servers[t]);
      assert st.servers[t].note == Note(Prepare, x);
      assert t != who ==> KeptFrom(st.servers[t], x);
    }
    var a :| a in st.servers && Anchors(st.servers[a], st.saved);
    assert SettledServer(core, st.servers[a]);
  }

  lemma SettledRotate(st: State, core: seq<Key>, who: ServerId)
    requires Settled(st, core) && Enabled(st, RotateRequest(who), true)
    ensures Rotating(Apply(st, RotateRequest(who), true), st.servers[who].disk)
  {
    var x := st.servers[who].disk;
    var st' := Apply(st, RotateRequest(who), true);
    RotateGuardMeans(st, core, who);
    GrownHasCore(core, x);
    forall t | t in st'.servers
      ensures RotatingServer(x, st'.servers[t]) && SavedFollows(x, st'.servers[t], st'.saved)
    {
      assert st.servers[t].loaded == x;
    }
  }

  /** Dropping the old key after a full scan: the rest of the rotated list is the new core. */
  lemma RotatingDrop(st: State, x: seq<Key>, who: ServerId)
    requires Rotating(st, x) && ScansCovered(st) && Enabled(st, FinishScan(who), true)
    requires !st.servers[who].op.skip
    ensures Settled(Apply(st, FinishScan(who), true), DropLast(st.servers[who].disk))
  {
    var keys := st.servers[who].disk;
    var core := DropLast(keys);
    var st' := Apply(st, FinishScan(who), true);
    assert RotatingServer(x, st.servers[who]);
    assert ScanUnderway(st, who);
    assert keys[0] == core[0];
    assert Anchors(st'.servers[who], st'.saved);
    forall t | t in st'.servers
      ensures SettledServer(core, st'.servers[t]) && (st'.servers[t].op.InTail? ==> st'.servers[t].op.next != Prepare)
    {
      assert RotatingServer(x, st.servers[t]);
    }
  }

  // ---------- Rotating is kept by every other step ----------

  lemma RotatingPut(st: State, x: seq<Key>, who: ServerId, s: Server)
    requires Rotating(st, x) && who in st.servers
    requires RotatingServer(x, s) && SavedFollows(x, s, st.saved)
    ensures Rotating(Put(st, who, s), x)
  {
  }

  lemma RotatingTail(st: State, x: seq<Key>, who: ServerId)
    requires Rotating(st, x) && Enabled(st, ContinueTail(who), true)
    ensures Rotating(Apply(st, ContinueTail(who), true), x)
  {
    var st' := Apply(st, ContinueTail(who), true);
    var s := st.servers[who];
    assert RotatingServer(x, s);
    assert RotatingServer(x, TailAdvanced(s));
    forall t | t in st'.servers
      ensures RotatingServer(x, st'.servers[t]) && SavedFollows(x, st'.servers[t], st'.saved)
    {
      assert RotatingServer(x, st.servers[t]) && SavedFollows(x, st.servers[t], st.saved);
    }
  }

  lemma RotatingWrite(st: State, x: seq<Key>, via: ServerId, name: SecretName)
    requires Rotating(st, x) && Enabled(st, WriteSecret(via, name), true)
    ensures Rotating(Apply(st, WriteSecret(via, name), true), x)
  {
    RotatedKeepsKeys(x);
    assert RotatingServer(x, st.servers[via]);
  }

  lemma RotatingUpdate(st: State, x: seq<Key>, who: ServerId, via: ServerId, name: SecretName)
    requires Rotating(st, x) && Enabled(st, UpdateListed(who, via, name), true)
    ensures Rotating(Apply(st, UpdateListed(who, via, name), true), x)
  {
    var st' := Apply(st, UpdateListed(who, via, name), true);
    assert RotatingServer(x, st.servers[who]) && SavedFollows(x, st.servers[who], st.saved);
    RotatingPut(st, x, who, st'.servers[who]);
    RotatingWrite(Put(st, who, st'.servers[who]), x, via, name);
  }

  lemma RotatingRequest(st: State, x: seq<Key>, who: ServerId)
    requires Rotating(st, x) && Enabled(st, RotateRequest(who), true)
    ensures Rotating(Apply(st, RotateRequest(who), true), x)
  {
    assert RotatingServer(x, st.servers[who]);
    RotatingPut(st, x, who, Apply(st, RotateRequest(who), true).servers[who]);
  }

  lemma RotatingQuiet(st: State, x: seq<Key>, step: Step)
    requires Rotating(st, x) && Enabled(st, step, true)
    requires step.ReencryptRequest? || step.AbortScan? || step.Reload? || step.Restart? ||
             (step.FinishScan? && st.servers[step.who].op.skip)
    ensures Rotating(Apply(st, step, true), x)
  {
    assert RotatingServer(x, st.servers[step.who]) && SavedFollows(x, st.servers[step.who], st.saved);
    RotatingPut(st, x, step.who, Apply(st, step, true).servers[step.who]);
  }

  lemma RotatingRefusesPrepare(st: State, x: seq<Key>, who: ServerId)
    requires Rotating(st, x) && who in st.servers
    ensures !StageVerified(st, who, {Start, ReencryptFinished})
  {
    assert RotatingServer(x, st.servers[who]);
  }

  // ---------- Scans ----------

  lemma SettledReencryptMeans(st: State, core: seq<Key>, who: ServerId)
    requires Settled(st, core) && who in st.servers && StageVerified(st, who, {Rotate})
    ensures |st.servers[who].disk| > 1
    ensures st.saved == Saved(st.servers[who].disk, Note(Rotate, st.servers[who].disk))
    ensures forall t | t in st.servers :: st.servers[t].disk == st.servers[who].disk
  {
    var keys := st.servers[who].disk;
    assert SettledServer(core, st.servers[who]);
    forall t | t in st.servers
      ensures st.servers[t].disk == keys
    {
      assert SettledServer(core, st.servers[t]);
      assert st.servers[t].note == Note(Rotate, keys);
    }
    var a :| a in st.servers && Anchors(st.servers[a], st.saved);
    assert SettledServer(core, st.servers[a]);
    assert st.servers[a].note == Note(Rotate, keys);
  }

  lemma RotatingReencryptMeans(st: State, x: seq<Key>, who: ServerId)
    requires Rotating(st, x) && who in st.servers && st.servers[who].op.Idle? && StageVerified(st, who, {Rotate})
    ensures |st.servers[who].disk| > 1
    ensures st.saved == Saved(st.servers[who].disk, Note(Rotate, st.servers[who].disk))
    ensures forall t | t in st.servers :: st.servers[t].disk == st.servers[who].disk
  {
    assert RotatingServer(x, st.servers[who]) && SavedFollows(x, st.servers[who], st.saved);
    forall t | t in st.servers
      ensures st.servers[t].disk == st.servers[who].disk
    {
      assert RotatingServer(x, st.servers[t]);
    }
  }

  /** An accepted re-encryption request finds the same rotated list on every server and saved. */
  lemma ReencryptGuardMeans(st: State, who: ServerId, skip: bool)
    requires Phase(st) && Enabled(st, ReencryptRequest(who, skip), true)
    ensures |st.servers[who].disk| > 1
    ensures st.saved == Saved(st.servers[who].disk, Note(Rotate, st.servers[who].disk))
    ensures forall t | t in st.servers ::
              && st.servers[t].disk == st.servers[t].loaded == st.servers[who].disk
              && st.servers[t].note == Note(Rotate, st.servers[who].disk)
  {
    if core :| Settled(st, core) {
      SettledReencryptMeans(st, core, who);
    } else {
      var x :| Rotating(st, x);
      RotatingReencryptMeans(st, x, who);
    }
  }

  lemma VerifiedMeansNoScan(st: State, c: ServerId, who: ServerId, stages: set<Stage>)
    requires Phase(st) && c in st.servers && who in st.servers
    requires StageVerified(st, who, stages) && ReencryptActive !in stages
    ensures !st.servers[c].op.Scanning?
  {
    if st.servers[c].op.Scanning? {
      ScannerIsActive(st, c);
    }
  }

  /** The first annotation of a scan, on a cluster where everyone holds the same rotated list. */
  lemma ScanUnderwayAtStart(st: State, who: ServerId, skip: bool)
    requires Enabled(st, ReencryptRequest(who, skip), true) && |st.servers[who].disk| > 1
    requires st.saved == Saved(st.servers[who].disk, Note(Rotate, st.servers[who].disk))
    requires forall t | t in st.servers ::
               && st.servers[t].disk == st.servers[t].loaded == st.servers[who].disk
               && st.servers[t].note == Note(Rotate, st.servers[who].disk) && !st.servers[t].op.Scanning?
    ensures ScansCovered(Apply(st, ReencryptRequest(who, skip), true))
  {
    assert ScanUnderway(Apply(st, ReencryptRequest(who, skip), true), who);
  }

  lemma ScanStarts(st: State, who: ServerId, skip: bool)
    requires Phase(st) && Enabled(st, ReencryptRequest(who, skip), true)
    ensures ScansCovered(Apply(st, ReencryptRequest(who, skip), true))
  {
    ReencryptGuardMeans(st, who, skip);
    forall c | c in st.servers
      ensures !st.servers[c].op.Scanning?
    {
      VerifiedMeansNoScan(st, c, who, {Rotate});
    }
    ScanUnderwayAtStart(st, who, skip);
  }

  lemma ScannerIsActive(st: State, c: ServerId)
    requires Phase(st) && c in st.servers && st.servers[c].op.Scanning?
    ensures st.servers[c].note.stage == ReencryptActive
    ensures st.servers[c].hashFile == Note(Rotate, st.servers[c].disk)
  {
    if core :| Settled(st, core) {
      assert SettledServer(core, st.servers[c]);
    } else {
      var x :| Rotating(st, x);
      assert RotatingServer(x, st.servers[c]);
    }
  }

  /** A server that rotated and is only waiting to persist or publish saves what it announced. */
  lemma AnnouncedRotation(st: State, t: ServerId)
    requires Phase(st) && t in st.servers && st.servers[t].op.InTail?
    requires st.servers[t].note.stage == Rotate
    ensures st.servers[t].op.next == Rotate && st.servers[t].op.progress != Announcing
    ensures st.servers[t].op.progress == Publishing ==> st.servers[t].hashFile == st.servers[t].note
  {
    if core :| Settled(st, core) {
      assert SettledServer(core, st.servers[t]);
    } else {
      var x :| Rotating(st, x);
      assert RotatingServer(x, st.servers[t]);
    }
  }

  /** No stage request is accepted while a scan runs. */
  lemma ScanBlocksRequests(st: State, c: ServerId, who: ServerId, stages: set<Stage>)
    requires Phase(st) && c in st.servers && st.servers[c].op.Scanning? && who in st.servers
    requires ReencryptActive !in stages
    ensures !StageVerified(st, who, stages)
  {
    ScannerIsActive(st, c);
  }

  lemma ScanSurvivesTail(st: State, who: ServerId, c: ServerId)
    requires Inv(st) && Enabled(st, ContinueTail(who), true)
    requires c in st.servers && st.servers[c].op.Scanning?
    ensures ScanUnderway(Apply(st, ContinueTail(who), true), c)
  {
    assert ScanUnderway(st, c);
    AnnouncedRotation(st, who);
  }

  lemma ScanSurvivesPut(st: State, c: ServerId, t: ServerId, s: Server)
    requires c in st.servers && st.servers[c].op.Scanning? && ScanUnderway(st, c)
    requires t in st.servers && t != c
    requires s.disk == s.loaded == st.servers[c].disk && s.note == Note(Rotate, s.disk)
    ensures ScanUnderway(Put(st, t, s), c)
  {
  }

  lemma ScanSurvivesUpdate(st: State, c: ServerId, via: ServerId, name: SecretName)
    requires Enabled(st, UpdateListed(c, via, name), true) && ScanUnderway(st, c)
    requires Apply(st, UpdateListed(c, via, name), true).servers[c].op.Scanning?
    ensures ScanUnderway(Apply(st, UpdateListed(c, via, name), true), c)
  {
    var st' := Apply(st, UpdateListed(c, via, name), true);
    forall n | n in st'.secrets
      ensures st'.secrets[n].key == st.servers[c].disk[0] || Pending(st'.servers[c].op.todo, n, st'.secrets[n])
    {
      assert st.secrets[n].key == st.servers[c].disk[0] || Pending(st.servers[c].op.todo, n, st.secrets[n]);
    }
  }

  lemma ScanSurvivesReload(st: State, c: ServerId, who: ServerId)
    requires c in st.servers && st.servers[c].op.Scanning? && ScanUnderway(st, c) && who in st.servers
    ensures ScanUnderway(Apply(st, Reload(who), true), c)
  {
    assert st.servers[who].(loaded := st.servers[who].disk) == st.servers[who];
    assert Apply(st, Reload(who), true).servers == st.servers;
  }

  lemma ScanSurvivesClient(st: State, c: ServerId, step: Step)
    requires c in st.servers && st.servers[c].op.Scanning? && ScanUnderway(st, c)
    requires (step.WriteSecret? || step.DeleteSecret?) && Enabled(st, step, true)
    ensures ScanUnderway(Apply(st, step, true), c)
  {
  }

  /** A step of the scanning server itself, of another server, or of a client. */
  lemma ScanGoesOn(st: State, step: Step, c: ServerId)
    requires Inv(st) && Enabled(st, step, true) && !step.ReencryptRequest?
    requires var st' := Apply(st, step, true); c in st'.servers && st'.servers[c].op.Scanning?
    ensures ScanUnderway(Apply(st, step, true), c)
  {
    var st' := Apply(st, step, true);
    assert c in st.servers && st.servers[c].op.Scanning?;
    assert ScanUnderway(st, c);
    match step
    case PrepareRequest(who, k) => ScanBlocksRequests(st, c, who, {Start, ReencryptFinished});
    case RotateRequest(who) => ScanBlocksRequests(st, c, who, {Prepare});
    case ContinueTail(who) => ScanSurvivesTail(st, who, c);
    case UpdateListed(who, via, name) =>
      if who == c {
        ScanSurvivesUpdate(st, c, via, name);
      } else {
        ScannerIsActive(st, who);
      }
    case FinishScan(who) => ScannerIsActive(st, who);
    case AbortScan(who) => ScannerIsActive(st, who);
    case Restart(who) => ScanSurvivesPut(st, c, who, st'.servers[who]);
    case Reload(who) => ScanSurvivesReload(st, c, who);
    case WriteSecret(via, name) => ScanSurvivesClient(st, c, step);
    case DeleteSecret(name) => ScanSurvivesClient(st, c, step);
  }

  // ---------- Whole runs ----------

  lemma SettledStep(st: State, core: seq<Key>, step: Step)
    requires Settled(st, core) && ScansCovered(st) && Enabled(st, step, true)
    ensures Phase(Apply(st, step, true))
  {
    match step
    case PrepareRequest(who, k) => SettledPrepare(st, core, who, k);
    case RotateRequest(who) => SettledRotate(st, core, who);
    case ContinueTail(who) => SettledTail(st, core, who);
    case Restart(who) => SettledRestart(st, core, who);
    case FinishScan(who) =>
      if st.servers[who].op.skip {
        SettledQuiet(st, core, step);
      } else {
        SettledDrop(st, core, who);
      }
    case WriteSecret(via, name) => SettledWrite(st, core, via, name);
    case DeleteSecret(name) => SettledSecrets(st, Apply(st, step, true), core);
    case UpdateListed(who, via, name) => SettledUpdate(st, core, who, via, name);
    case _ => SettledQuiet(st, core, step);
  }

  lemma RotatingStep(st: State, x: seq<Key>, step: Step)
    requires Rotating(st, x) && ScansCovered(st) && Enabled(st, step, true)
    ensures Phase(Apply(st, step, true))
  {
    match step
    case PrepareRequest(who, k) => RotatingRefusesPrepare(st, x, who);
    case RotateRequest(who) => RotatingRequest(st, x, who);
    case ContinueTail(who) => RotatingTail(st, x, who);
    case FinishScan(who) =>
      if st.servers[who].op.skip {
        RotatingQuiet(st, x, step);
      } else {
        RotatingDrop(st, x, who);
      }
    case WriteSecret(via, name) => RotatingWrite(st, x, via, name);
    case DeleteSecret(name) => assert Rotating(Apply(st, step, true), x);
    case UpdateListed(who, via, name) => RotatingUpdate(st, x, who, via, name);
    case _ => RotatingQuiet(st, x, step);
  }

  lemma StepKeepsInv(st: State, step: Step)
    requires Inv(st) && Enabled(st, step, true)
    ensures Inv(Apply(st, step, true))
  {
    var st' := Apply(st, step, true);
    if step.ReencryptRequest? {
      ScanStarts(st, step.who, step.skip);
    } else {
      forall c | c in st'.servers && st'.servers[c].op.Scanning?
        ensures ScanUnderway(st', c)
      {
        ScanGoesOn(st, step, c);
      }
    }
    if core :| Settled(st, core) {
      SettledStep(st, core, step);
    } else {
      var x :| Rotating(st, x);
      RotatingStep(st, x, step);
    }
  }

  lemma {:induction false} RunKeepsInv(st: State, steps: seq<Step>)
    requires Inv(st) && IsRun(st, steps, true)
    ensures Inv(After(st, steps, true))
    decreases |steps|
  {
    if steps != [] {
      StepKeepsInv(st, steps[0]);
      RunKeepsInv(Apply(st, steps[0], true), steps[1..]);
    }
  }

  /** MAIN: after any run, and so at every moment of it, every server can decrypt every secret. */
  lemma EverySecretStaysReadable(st: State, steps: seq<Step>)
    requires Initial(st) && IsRun(st, steps, true)
    ensures AllReadable(After(st, steps, true))
  {
    InitialInv(st);
    RunKeepsInv(st, steps);
    InvGivesReadable(After(st, steps, true));
  }

  /**
   MAIN: when a scan is through its list, every secret is stored under the first key of the scanning
   server, including those created or changed meanwhile, so none needs the key that is then dropped.
   */
  lemma DroppedKeyIsUnused(st: State, steps: seq<Step>, who: ServerId)
    requires Initial(st) && IsRun(st, steps, true)
    requires var end := After(st, steps, true);
             who in end.servers && end.servers[who].op.Scanning? && end.servers[who].op.todo == map[]
    ensures var end := After(st, steps, true);
            var keys := end.servers[who].disk;
            && |keys| > 1
            && (forall n | n in end.secrets :: end.secrets[n].key == keys[0] && end.secrets[n].key in DropLast(keys))
            && (forall t | t in end.servers :: end.servers[t].loaded == keys)
  {
    InitialInv(st);
    RunKeepsInv(st, steps);
    var end := After(st, steps, true);
    assert ScanUnderway(end, who);
    assert DropLast(end.servers[who].disk)[0] == end.servers[who].disk[0];
  }

  /** Slice expressions never see an empty list: an accepted rotation has two keys to work with. */
  lemma AcceptedRotationHasTwoKeys(st: State, steps: seq<Step>, who: ServerId)
    requires Initial(st) && IsRun(st, steps, true)
    requires var end := After(st, steps, true); who in end.servers && StageVerified(end, who, {Prepare, Rotate})
    ensures |After(st, steps, true).servers[who].disk| > 1
  {
    InitialInv(st);
    RunKeepsInv(st, steps);
    var end := After(st, steps, true);
    if core :| Settled(end, core) {
      assert SettledServer(core, end.servers[who]);
    } else {
      var x :| Rotating(end, x);
      assert RotatingServer(x, end.servers[who]);
    }
  }
}
