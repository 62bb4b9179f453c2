/**
 Why a rotation has to wait for the apiservers: the stage guard compares node annotations only, and
 an apiserver that has not loaded the prepared key yet cannot decrypt what is written under it.
 */
module EncryptionLoads {
  import opened EncryptionProtocol
  import opened EncryptionSafety

  /** A rotate request, the reload it leads to, and the first secret written with the new key. */
  function FirstUse(st: State, who: ServerId, name: SecretName): State
    requires Enabled(st, RotateRequest(who), false)
  {
    var rotated := Apply(st, RotateRequest(who), false);
    var reloaded := Apply(rotated, Reload(who), false);
    Apply(reloaded, WriteSecret(who, name), false)
  }

  /** What a server that rotates writes with first: the last key of its file. */
  function LastKey(s: Server): Key
    requires |s.disk| > 0
  {
    s.disk[|s.disk| - 1]
  }

  lemma FirstUseEffect(st: State, who: ServerId, name: SecretName)
    requires Enabled(st, RotateRequest(who), false)
    ensures var end, s := FirstUse(st, who, name), st.servers[who];
            && end.secrets == st.secrets[name := Stored(LastKey(s), st.revision + 1)]
            && end.servers.Keys == st.servers.Keys
            && end.servers[who].loaded == RightRotated(s.disk)
            && forall t | t in st.servers && t != who :: end.servers[t] == st.servers[t]
  {
  }

  /**
   In every reachable state that accepts a rotate request, using the new key is safe exactly when
   every other apiserver has loaded it.
   */
  lemma RotationSafeExactlyWhenLoaded(start: State, steps: seq<Step>, who: ServerId, name: SecretName)
    requires Initial(start) && IsRun(start, steps, true)
    requires Enabled(After(start, steps, true), RotateRequest(who), false)
    ensures var st := After(start, steps, true);
            AllReadable(FirstUse(st, who, name)) <==>
            forall t | t in st.servers && t != who :: LastKey(st.servers[who]) in st.servers[t].loaded
  {
    InitialInv(start);
    RunKeepsInv(start, steps);
    FirstUseSafeWhen(After(start, steps, true), who, name);
  }

  lemma FirstUseSafeWhen(st: State, who: ServerId, name: SecretName)
    requires Inv(st) && Enabled(st, RotateRequest(who), false)
    ensures AllReadable(FirstUse(st, who, name)) <==>
            forall t | t in st.servers && t != who :: LastKey(st.servers[who]) in st.servers[t].loaded
  {
    var end, s := FirstUse(st, who, name), st.servers[who];
    FirstUseEffect(st, who, name);
    InvGivesReadable(st);
    FileHoldsEveryKey(st, who);
    RotatedKeepsKeys(s.disk);
    assert end.secrets[name].key == LastKey(s) && LastKey(s) in s.disk;
    if AllReadable(end) {
      forall t | t in st.servers && t != who
        ensures LastKey(s) in st.servers[t].loaded
      {
        assert t in end.servers && end.servers[t] == st.servers[t];
      }
    }
  }

  lemma FileHoldsEveryKey(st: State, who: ServerId)
    requires Inv(st) && who in st.servers
    ensures forall n | n in st.secrets :: st.secrets[n].key in st.servers[who].disk
  {
    if core :| Settled(st, core) {
      assert SettledServer(core, st.servers[who]);
      GrownHasCore(core, st.servers[who].disk);
    } else {
      var x :| Rotating(st, x);
      assert RotatingServer(x, st.servers[who]);
      RotatedKeepsKeys(x);
    }
  }

  // ---------- A run that does not wait ----------

  /** Two servers that share key 7 and have no secrets. */
  function TwoServers(): State {
    var s := Server([7], Note(Start, [7]), Note(Start, [7]), [7], Idle);
    State(map[0 := s, 1 := s], Saved([7], Note(Start, [7])), map[], 0)
  }

  /** Server 0 prepares key 8 and saves it; server 1 restarts.  Server 0 has not reloaded. */
  function Prepared(): State {
    var n := Note(Prepare, [7, 8]);
    State(map[0 := Server([7, 8], n, n, [7], Idle), 1 := Server([7, 8], n, n, [7, 8], Idle)], Saved([7, 8], n), map[], 0)
  }

  const FIRST := [PrepareRequest(0, 8), ContinueTail(0), ContinueTail(0), ContinueTail(0), Restart(1)]
  const SECOND := [RotateRequest(1), Reload(1), WriteSecret(1, "token")]

  lemma StepThenRun(st: State, step: Step, rest: seq<Step>, wait: bool)
    requires Enabled(st, step, wait) && IsRun(Apply(st, step, wait), rest, wait)
    ensures IsRun(st, [step] + rest, wait)
    ensures After(st, [step] + rest, wait) == After(Apply(st, step, wait), rest, wait)
  {
    assert ([step] + rest)[1..] == rest;
  }

  lemma {:induction false} RunsJoin(st: State, first: seq<Step>, later: seq<Step>, wait: bool)
    requires IsRun(st, first, wait) && IsRun(After(st, first, wait), later, wait)
    ensures IsRun(st, first + later, wait)
    ensures After(st, first + later, wait) == After(After(st, first, wait), later, wait)
    decreases |first|
  {
    if first == [] {
      assert first + later == later;
    } else {
      RunsJoin(Apply(st, first[0], wait), first[1..], later, wait);
      assert (first + later)[1..] == first[1..] + later;
    }
  }

  /** The three writes that follow a configuration write, undisturbed. */
  lemma TailRuns(st: State, who: ServerId, wait: bool)
    requires who in st.servers && st.servers[who].op.InTail? && st.servers[who].op.progress == Announcing
    ensures var tail := [ContinueTail(who), ContinueTail(who), ContinueTail(who)];
            var s := st.servers[who];
            var n := Note(s.op.next, s.disk);
            && IsRun(st, tail, wait)
            && After(st, tail, wait) == Put(st.(saved := Saved(s.disk, n)), who, s.(note := n, hashFile := n, op := Idle))
  {
    var step := ContinueTail(who);
    var s, n := st.servers[who], Note(st.servers[who].op.next, st.servers[who].disk);
    var s1 := Apply(st, step, wait);
    assert s1 == Put(st, who, s.(note := n, op := s.op.(progress := Persisting)));
    var s2 := Apply(s1, step, wait);
    assert s2 == Put(st, who, s.(note := n, hashFile := n, op := s.op.(progress := Publishing)));
    var s3 := Apply(s2, step, wait);
    assert s3 == Put(st.(saved := Saved(s.disk, n)), who, s.(note := n, hashFile := n, op := Idle));
    StepThenRun(s2, step, [], wait);
    StepThenRun(s1, step, [step], wait);
    StepThenRun(st, step, [step, step], wait);
    assert [step] + [step, step] == [step, step, step] && [step] + [step] == [step, step];
  }

  lemma PreparedIsReached()
    ensures IsRun(TwoServers(), FIRST, false) && After(TwoServers(), FIRST, false) == Prepared()
  {
    var tail := [ContinueTail(0), ContinueTail(0), ContinueTail(0)];
    var st := Apply(TwoServers(), PrepareRequest(0, 8), false);
    assert st.servers[0].disk == [7, 8];
    TailRuns(st, 0, false);
    var saved := After(st, tail, false);
    assert Apply(saved, Restart(1), false).servers == Prepared().servers;
    StepThenRun(saved, Restart(1), [], false);
    RunsJoin(st, tail, [Restart(1)], false);
    StepThenRun(TwoServers(), PrepareRequest(0, 8), tail + [Restart(1)], false);
    assert [PrepareRequest(0, 8)] + (tail + [Restart(1)]) == FIRST;
  }

  lemma FirstUseRuns(st: State, who: ServerId, name: SecretName)
    requires Enabled(st, RotateRequest(who), false)
    ensures var steps := [RotateRequest(who), Reload(who), WriteSecret(who, name)];
            IsRun(st, steps, false) && After(st, steps, false) == FirstUse(st, who, name)
  {
    var rotated := Apply(st, RotateRequest(who), false);
    var reloaded := Apply(rotated, Reload(who), false);
    StepThenRun(reloaded, WriteSecret(who, name), [], false);
    StepThenRun(rotated, Reload(who), [WriteSecret(who, name)], false);
    assert [Reload(who)] + [WriteSecret(who, name)] == [Reload(who), WriteSecret(who, name)];
    StepThenRun(st, RotateRequest(who), [Reload(who), WriteSecret(who, name)], false);
    assert [RotateRequest(who)] + [Reload(who), WriteSecret(who, name)] == [RotateRequest(who), Reload(who), WriteSecret(who, name)];
  }

  lemma SecondServerRotates()
    ensures Enabled(Prepared(), RotateRequest(1), false)
    ensures IsRun(Prepared(), SECOND, false) && !AllReadable(After(Prepared(), SECOND, false))
  {
    var st := Prepared();
    FirstUseRuns(st, 1, "token");
    FirstUseEffect(st, 1, "token");
    var end := FirstUse(st, 1, "token");
    assert LastKey(st.servers[1]) == 8 && "token" in end.secrets && 0 in end.servers;
    assert end.secrets["token"].key == 8 && end.servers[0].loaded == [7];
  }

  /** Without waiting for loads, annotations alone let a run reach an unreadable secret. */
  lemma HastyRotationLosesSecret()
    ensures Initial(TwoServers()) && IsRun(TwoServers(), FIRST, false)
    ensures var st := After(TwoServers(), FIRST, false);
            IsRun(st, SECOND, false) && !AllReadable(After(st, SECOND, false))
  {
    PreparedIsReached();
    SecondServerRotates();
  }
}
