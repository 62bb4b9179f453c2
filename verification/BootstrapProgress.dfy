/**
 What a server achieves by its own calls (pkg/cluster/storage.go): undisturbed, it gets through its
 start and its saves in a bounded number of them, and it takes over a lock that was left behind, but
 never before it has waited for it.
 */
module BootstrapProgress {
  import opened EtcdStorage
  import opened BootstrapLock

  /** `n` calls of one server. */
  function Calls(who: ServerId, payload: string, n: nat): seq<Step> {
    if n == 0 then [] else [Call(who, payload)] + Calls(who, payload, n - 1)
  }

  lemma CallThenCalls(st: State, who: ServerId, payload: string, n: nat)
    requires Enabled(st, Call(who, payload)) && IsRun(Apply(st, Call(who, payload)), Calls(who, payload, n))
    ensures IsRun(st, Calls(who, payload, n + 1))
    ensures After(st, Calls(who, payload, n + 1)) == After(Apply(st, Call(who, payload)), Calls(who, payload, n))
  {
    var steps := Calls(who, payload, n + 1);
    assert steps[0] == Call(who, payload) && steps[1..] == Calls(who, payload, n);
  }

  lemma {:induction false} CallsJoin(st: State, who: ServerId, payload: string, m: nat, n: nat)
    requires IsRun(st, Calls(who, payload, m)) && IsRun(After(st, Calls(who, payload, m)), Calls(who, payload, n))
    ensures IsRun(st, Calls(who, payload, m + n))
    ensures After(st, Calls(who, payload, m + n)) == After(After(st, Calls(who, payload, m)), Calls(who, payload, n))
    decreases m
  {
    if m > 0 {
      var steps := Calls(who, payload, m);
      assert steps[0] == Call(who, payload) && steps[1..] == Calls(who, payload, m - 1);
      var st' := Apply(st, Call(who, payload));
      CallsJoin(st', who, payload, m - 1, n);
      CallThenCalls(st, who, payload, m - 1 + n);
    }
  }

  function With(st: State, who: ServerId, s: Server): State {
    st.(servers := st.servers[who := s])
  }

  /** The key holds an empty lock. */
  predicate Locked(e: Etcd<string>) {
    KEY in e.kv && e.kv[KEY].data == ""
  }

  // ---------- Waiting for a lock ----------

  /** The polls a server still makes before it gives up on a lock; the source allows five. */
  function PollsLeft(attempts: nat): (n: nat)
    ensures 1 <= n <= 5
  {
    if attempts >= 5 then 1 else 5 - attempts
  }

  /** One poll of a locked key: two calls, and either it waits on or it decides to delete the lock. */
  lemma PollLocked(st: State, who: ServerId, payload: string)
    requires who in st.servers && st.servers[who].pc == Polling && Locked(st.etcd) && payload != ""
    ensures IsRun(st, Calls(who, payload, 2))
    ensures var s := st.servers[who];
            After(st, Calls(who, payload, 2)) ==
            With(st, who, if PollsLeft(s.attempts) == 1
                          then s.(pc := DroppingLock(st.etcd.kv[KEY].modified), attempts := 0, saveBootstrap := false)
                          else s.(attempts := s.attempts + 1, saveBootstrap := false))
  {
    var s1 := Apply(st, Call(who, payload));
    var s2 := Apply(s1, Call(who, payload));
    assert IsRun(s2, Calls(who, payload, 0));
    CallThenCalls(s1, who, payload, 0);
    CallThenCalls(st, who, payload, 1);
    assert s2.servers == After(st, Calls(who, payload, 2)).servers;
  }

  lemma {:induction false} WaitsItsPolls(st: State, who: ServerId, payload: string)
    requires who in st.servers && st.servers[who].pc == Polling && Locked(st.etcd) && payload != ""
    ensures var s, n := st.servers[who], PollsLeft(st.servers[who].attempts);
            && IsRun(st, Calls(who, payload, 2 * n))
            && After(st, Calls(who, payload, 2 * n)) ==
               With(st, who, s.(pc := DroppingLock(st.etcd.kv[KEY].modified), attempts := 0, saveBootstrap := false))
    decreases PollsLeft(st.servers[who].attempts)
  {
    var s, n := st.servers[who], PollsLeft(st.servers[who].attempts);
    PollLocked(st, who, payload);
    if n > 1 {
      var waited := After(st, Calls(who, payload, 2));
      WaitsItsPolls(waited, who, payload);
      CallsJoin(st, who, payload, 2, 2 * (n - 1));
      assert waited.servers[who := s] == st.servers[who := s];
    }
  }

  /** Deleting the lock, listing nothing, and creating a lock of one's own. */
  lemma TakesOver(st: State, who: ServerId, payload: string)
    requires who in st.servers && Locked(st.etcd) && st.etcd.kv.Keys <= {KEY} && payload != ""
    requires st.servers[who].pc == DroppingLock(st.etcd.kv[KEY].modified)
    ensures IsRun(st, Calls(who, payload, 3))
    ensures KEY !in Apply(st, Call(who, payload)).etcd.kv
    ensures var end := After(st, Calls(who, payload, 3));
            && who in end.servers && end.servers[who].pc == Joined && end.servers[who].tookLock && end.servers[who].saveBootstrap
            && Locked(end.etcd) && end.etcd.kv[KEY].modified == st.etcd.revision + 2
  {
    var s1 := Apply(st, Call(who, payload));
    assert s1.etcd.kv == map[];
    var s2 := Apply(s1, Call(who, payload));
    var s3 := Apply(s2, Call(who, payload));
    CallThenCalls(s2, who, payload, 0);
    CallThenCalls(s1, who, payload, 1);
    CallThenCalls(st, who, payload, 2);
    assert After(st, Calls(who, payload, 3)) == s3;
  }

  /**
   MAIN: in every reachable state with a lock left behind, a polling server left to itself deletes that
   lock after at most five polls (five, if it starts counting here) and ends with a lock of its own.
   */
  lemma LockTimesOut(start: State, steps: seq<Step>, who: ServerId, payload: string)
    requires Initial(start) && IsRun(start, steps) && payload != ""
    requires var st := After(start, steps); who in st.servers && st.servers[who].pc == Polling && Locked(st.etcd)
    ensures var st := After(start, steps);
            var n := PollsLeft(st.servers[who].attempts);
            && IsRun(st, Calls(who, payload, 2 * n)) && IsRun(st, Calls(who, payload, 2 * n + 3))
            && (var waited := After(st, Calls(who, payload, 2 * n));
                waited.etcd == st.etcd && who in waited.servers && waited.servers[who].pc == DroppingLock(st.etcd.kv[KEY].modified))
            && (var end := After(st, Calls(who, payload, 2 * n + 3));
                && who in end.servers && end.servers[who].pc == Joined && end.servers[who].tookLock && end.servers[who].saveBootstrap
                && Locked(end.etcd) && end.etcd.kv[KEY].modified == st.etcd.revision + 2)
  {
    RunKeepsInv(start, steps);
    var st := After(start, steps);
    var n := PollsLeft(st.servers[who].attempts);
    WaitsItsPolls(st, who, payload);
    var waited := After(st, Calls(who, payload, 2 * n));
    TakesOver(waited, who, payload);
    CallsJoin(st, who, payload, 2 * n, 3);
  }

  /** The polls that `who` makes in a run. */
  ghost function Polls(st: State, steps: seq<Step>, who: ServerId): nat
    requires IsRun(st, steps)
    decreases |steps|
  {
    if steps == [] then 0
    else
      (if steps[0].Call? && steps[0].who == who && st.servers[who].pc == Polling then 1 else 0)
      + Polls(Apply(st, steps[0]), steps[1..], who)
  }

  lemma {:induction false} AttemptsArePolls(st: State, steps: seq<Step>, who: ServerId, before: nat)
    requires IsRun(st, steps) && who in st.servers
    requires st.servers[who].attempts <= before && (st.servers[who].pc.DroppingLock? ==> before >= 5)
    ensures var end := After(st, steps);
            && who in end.servers && end.servers[who].attempts <= before + Polls(st, steps, who)
            && (end.servers[who].pc.DroppingLock? ==> before + Polls(st, steps, who) >= 5)
    decreases |steps|
  {
    if steps != [] {
      var polled := if steps[0].Call? && steps[0].who == who && st.servers[who].pc == Polling then 1 else 0;
      AttemptsArePolls(Apply(st, steps[0]), steps[1..], who, before + polled);
    }
  }

  /** MAIN: whatever the others do, nobody is about to delete a lock with fewer than five polls behind it. */
  lemma NoDeleteBeforeFivePolls(st: State, steps: seq<Step>, who: ServerId)
    requires IsRun(st, steps) && who in st.servers && st.servers[who].attempts == 0 && !st.servers[who].pc.DroppingLock?
    requires who in After(st, steps).servers && After(st, steps).servers[who].pc.DroppingLock?
    ensures Polls(st, steps, who) >= 5
  {
    AttemptsArePolls(st, steps, who, 0);
  }

  // ---------- Undisturbed starts and saves ----------

  /** A server that starts: it locks a free key, reads present data, or waits for a lock. */
  lemma StartEnds(start: State, steps: seq<Step>, who: ServerId, payload: string)
    requires Initial(start) && IsRun(start, steps) && payload != "" && !Locked(After(start, steps).etcd)
    ensures var st := Apply(After(start, steps), Boot(who));
            var n := if KEY in st.etcd.kv then 4 else 2;
            && IsRun(st, Calls(who, payload, n))
            && (var end := After(st, Calls(who, payload, n));
                && who in end.servers && end.servers[who].pc == Joined
                && end.servers[who].saveBootstrap == end.servers[who].tookLock == (KEY !in st.etcd.kv)
                && (if KEY in st.etcd.kv then end.etcd == st.etcd else Locked(end.etcd)))
  {
    RunKeepsInv(start, steps);
    var st := Apply(After(start, steps), Boot(who));
    var s1 := Apply(st, Call(who, payload));
    var s2 := Apply(s1, Call(who, payload));
    if KEY in st.etcd.kv {
      var s3 := Apply(s2, Call(who, payload));
      var s4 := Apply(s3, Call(who, payload));
      CallThenCalls(s3, who, payload, 0);
      CallThenCalls(s2, who, payload, 1);
      CallThenCalls(s1, who, payload, 2);
      CallThenCalls(st, who, payload, 3);
      assert After(st, Calls(who, payload, 4)) == s4;
    } else {
      assert st.etcd.kv == map[];
      CallThenCalls(s1, who, payload, 0);
      CallThenCalls(st, who, payload, 1);
      assert After(st, Calls(who, payload, 2)) == s2;
    }
  }

  /** The calls of an undisturbed save. */
  function SaveCalls(e: Etcd<string>, overwrite: bool): nat {
    if KEY !in e.kv then 2 else if overwrite || e.kv[KEY].data == "" then 5 else 3
  }

  /**
   MAIN: an undisturbed save succeeds within five calls; it writes its payload when the key is free,
   locked, or to be overwritten, and otherwise leaves the data that is there.
   */
  lemma SaveEnds(start: State, steps: seq<Step>, who: ServerId, overwrite: bool, payload: string)
    requires Initial(start) && IsRun(start, steps) && payload != "" && Enabled(After(start, steps), StartSave(who, overwrite))
    ensures var e := After(start, steps).etcd;
            var st := Apply(After(start, steps), StartSave(who, overwrite));
            && IsRun(st, Calls(who, payload, SaveCalls(e, overwrite)))
            && (var end := After(st, Calls(who, payload, SaveCalls(e, overwrite)));
                && who in end.servers && end.servers[who].pc == Joined
                && (if KEY in e.kv && e.kv[KEY].data != "" && !overwrite then end.etcd == e
                    else KEY in end.etcd.kv && end.etcd.kv[KEY] == Version(payload, e.revision + 1)))
  {
    RunKeepsInv(start, steps);
    var e := After(start, steps).etcd;
    var st := Apply(After(start, steps), StartSave(who, overwrite));
    if KEY !in e.kv {
      assert e.kv == map[];
      SaveCreates(st, who, overwrite, payload);
    } else {
      SaveFinds(st, who, overwrite, payload);
    }
  }

  lemma SaveCreates(st: State, who: ServerId, overwrite: bool, payload: string)
    requires who in st.servers && st.servers[who].pc == SaveLooking(overwrite) && st.etcd.kv == map[] && payload != ""
    ensures IsRun(st, Calls(who, payload, 2))
    ensures var end := After(st, Calls(who, payload, 2));
            who in end.servers && end.servers[who].pc == Joined && KEY in end.etcd.kv && end.etcd.kv[KEY] == Version(payload, st.etcd.revision + 1)
  {
    var s1 := Apply(st, Call(who, payload));
    var s2 := Apply(s1, Call(who, payload));
    CallThenCalls(s1, who, payload, 0);
    CallThenCalls(st, who, payload, 1);
    assert After(st, Calls(who, payload, 2)) == s2;
  }

  lemma SaveFinds(st: State, who: ServerId, overwrite: bool, payload: string)
    requires who in st.servers && st.servers[who].pc == SaveLooking(overwrite) && KEY in st.etcd.kv && payload != ""
    requires Revisioned(st.etcd)
    ensures IsRun(st, Calls(who, payload, SaveCalls(st.etcd, overwrite)))
    ensures var end := After(st, Calls(who, payload, SaveCalls(st.etcd, overwrite)));
            && who in end.servers && end.servers[who].pc == Joined
            && (if st.etcd.kv[KEY].data != "" && !overwrite then end.etcd == st.etcd
                else KEY in end.etcd.kv && end.etcd.kv[KEY] == Version(payload, st.etcd.revision + 1))
  {
    var over := overwrite || st.etcd.kv[KEY].data == "";
    SaveMeetsKey(st, who, overwrite, payload);
    if over {
      var met := After(st, Calls(who, payload, 3));
      SaveOverwrites(met, who, payload);
      CallsJoin(st, who, payload, 3, 2);
    }
  }

  /** Both look-ups and the create call that finds the key taken. */
  lemma SaveMeetsKey(st: State, who: ServerId, overwrite: bool, payload: string)
    requires who in st.servers && st.servers[who].pc == SaveLooking(overwrite) && KEY in st.etcd.kv && payload != ""
    requires Revisioned(st.etcd)
    ensures IsRun(st, Calls(who, payload, 3))
    ensures var met := After(st, Calls(who, payload, 3));
            && met.etcd == st.etcd && who in met.servers
            && met.servers[who].pc == if overwrite || st.etcd.kv[KEY].data == "" then SaveReading else Joined
  {
    var s1 := Apply(st, Call(who, payload));
    assert s1.servers[who].pc == SaveLookingUp(overwrite) && s1.etcd == st.etcd;
    var s2 := Apply(s1, Call(who, payload));
    assert s2.servers[who].pc == SaveCreating(overwrite || st.etcd.kv[KEY].data == "") && s2.etcd == st.etcd;
    var s3 := Apply(s2, Call(who, payload));
    assert s3.etcd == st.etcd;
    CallThenCalls(s2, who, payload, 0);
    CallThenCalls(s1, who, payload, 1);
    CallThenCalls(st, who, payload, 2);
  }

  lemma SaveOverwrites(st: State, who: ServerId, payload: string)
    requires who in st.servers && st.servers[who].pc == SaveReading && KEY in st.etcd.kv && payload != ""
    ensures IsRun(st, Calls(who, payload, 2))
    ensures var end := After(st, Calls(who, payload, 2));
            && who in end.servers && end.servers[who].pc == Joined
            && KEY in end.etcd.kv && end.etcd.kv[KEY] == Version(payload, st.etcd.revision + 1)
  {
    var s1 := Apply(st, Call(who, payload));
    assert s1.servers[who].pc == SaveUpdating(st.etcd.kv[KEY].modified) && s1.etcd == st.etcd;
    CallThenCalls(s1, who, payload, 0);
    CallThenCalls(st, who, payload, 1);
  }
}
