/**
 Servers that start up and save concurrently on one join token (pkg/cluster/storage.go), interleaved
 at every call to the datastore.  The bootstrap key is absent, an empty lock, or holds data.

 Each server runs storageBootstrap and later any number of Saves, also after one that failed; it may
 crash and restart between any two calls.  With one token in use there is one key under the bootstrap prefix and nothing to
 migrate, so the migration pass inside a key lookup makes no call.
 */
module BootstrapLock {
  import opened EtcdStorage

  type ServerId = nat

  const KEY := "/bootstrap/token"
  const MAX_WAIT_ATTEMPTS := 5

  /** The datastore call a server makes next. */
  datatype Pc =
    | Polling
    | LookingUp
    | TakingLock
    | DroppingLock(revision: nat)
    | Rechecking
    | RecheckingAgain
    | Joined
    | Failed
    | SaveLooking(overwrite: bool)
    | SaveLookingUp(overwrite: bool)
    | SaveCreating(overwrite: bool)
    | SaveReading
    | SaveUpdating(revision: nat)
    | SaveFailed

  /**
   `saveBootstrap` is the flag of the cluster object; `tookLock` remembers that this server's own
   create call made the lock.
   */
  datatype Server = Server(pc: Pc, attempts: nat, saveBootstrap: bool, tookLock: bool)

  datatype State = State(etcd: Etcd<string>, servers: map<ServerId, Server>)

  datatype Step =
    | Boot(who: ServerId)
    | Call(who: ServerId, payload: string)
    | SkipRecheck(who: ServerId)
    | StartSave(who: ServerId, overwrite: bool)
    | Crash(who: ServerId)

  predicate HasData(e: Etcd<string>) {
    KEY in e.kv && e.kv[KEY].data != ""
  }

  /** Encrypted payloads are never empty. */
  predicate Enabled(st: State, step: Step) {
    match step
    case Boot(_) => true
    case Call(who, payload) => who in st.servers && st.servers[who].pc !in {Joined, Failed, SaveFailed} && payload != ""
    case SkipRecheck(who) => who in st.servers && st.servers[who].pc == Rechecking
    case StartSave(who, _) => who in st.servers && st.servers[who].pc in {Joined, SaveFailed}
    case Crash(who) => who in st.servers
  }

  function Apply(st: State, step: Step): State
    requires Enabled(st, step)
  {
    match step
    case Boot(who) => st.(servers := st.servers[who := Server(Polling, 0, false, false)])
    case Call(who, payload) =>
      State(EtcdAfter(st.etcd, st.servers[who].pc, payload), st.servers[who := ServerAfter(st.etcd, st.servers[who])])
    case SkipRecheck(who) => st.(servers := st.servers[who := st.servers[who].(pc := Joined)])
    case StartSave(who, overwrite) => st.(servers := st.servers[who := st.servers[who].(pc := SaveLooking(overwrite))])
    case Crash(who) => st.(servers := st.servers[who := st.servers[who].(pc := Failed)])
  }

  function EtcdAfter(e: Etcd<string>, pc: Pc, payload: string): Etcd<string> {
    match pc
    case TakingLock => AfterCreate(e, KEY, "")
    case DroppingLock(revision) => AfterDelete(e, KEY, revision)
    case SaveCreating(_) => AfterCreate(e, KEY, payload)
    case SaveUpdating(revision) => AfterUpdate(e, KEY, revision, payload)
    case _ => e
  }

  /** What the server does with the answer of its call. */
  function ServerAfter(e: Etcd<string>, s: Server): Server
    requires s.pc !in {Joined, Failed, SaveFailed}
  {
    match s.pc
    case Polling =>
      if e.kv == map[] then s.(pc := TakingLock, attempts := s.attempts + 1, saveBootstrap := true)
      else s.(pc := LookingUp, attempts := s.attempts + 1)
    case LookingUp =>
      if KEY !in e.kv then s.(pc := Failed, saveBootstrap := false)
      else if e.kv[KEY].data != "" then s.(pc := Rechecking, saveBootstrap := false)
      else if s.attempts >= MAX_WAIT_ATTEMPTS then
        s.(pc := DroppingLock(e.kv[KEY].modified), attempts := 0, saveBootstrap := false)
      else s.(pc := Polling, saveBootstrap := false)
    case TakingLock => if KEY !in e.kv then s.(pc := Joined, tookLock := true) else s.(pc := Polling)
    case DroppingLock(revision) =>
      if ModRevision(e, KEY) == revision then s.(pc := Polling) else s.(pc := Failed)
    case Rechecking =>
      if e.kv == map[] then s.(pc := Joined, saveBootstrap := true) else s.(pc := RecheckingAgain)
    case RecheckingAgain =>
      if KEY !in e.kv || e.kv[KEY].data == "" then s.(pc := Failed, saveBootstrap := false)
      else s.(pc := Joined, saveBootstrap := false)
    case SaveLooking(overwrite) =>
      if e.kv == map[] then s.(pc := SaveCreating(overwrite)) else s.(pc := SaveLookingUp(overwrite))
    case SaveLookingUp(overwrite) =>
      if KEY !in e.kv then s.(pc := SaveFailed)
      else s.(pc := SaveCreating(overwrite || e.kv[KEY].data == ""))
    case SaveCreating(overwrite) =>
      if KEY in e.kv && overwrite then s.(pc := SaveReading) else s.(pc := Joined)
    case SaveReading =>
      if KEY !in e.kv then s.(pc := SaveFailed) else s.(pc := SaveUpdating(e.kv[KEY].modified))
    case SaveUpdating(revision) =>
      if ModRevision(e, KEY) == revision then s.(pc := Joined) else s.(pc := SaveFailed)
  }

  ghost predicate IsRun(st: State, steps: seq<Step>)
    decreases |steps|
  {
    steps == [] || (Enabled(st, steps[0]) && IsRun(Apply(st, steps[0]), steps[1..]))
  }

  ghost function After(st: State, steps: seq<Step>): State
    requires IsRun(st, steps)
    decreases |steps|
  {
    if steps == [] then st else After(Apply(st, steps[0]), steps[1..])
  }

  /** No server runs yet; the key may be absent, locked, or hold data of an earlier life. */
  ghost predicate Initial(st: State) {
    st.servers == map[] && st.etcd.kv.Keys <= {KEY} && Revisioned(st.etcd)
  }

  // ---------- The invariant ----------

  ghost predicate ServerInv(e: Etcd<string>, s: Server) {
    && (s.pc.DroppingLock? ==> Pinned(e, KEY, Version("", s.pc.revision)))
    && (s.pc.SaveUpdating? ==> 0 < s.pc.revision)
    && (s.pc in {Rechecking, RecheckingAgain} ==> HasData(e) && !s.saveBootstrap)
    && (Settled(s.pc) && s.saveBootstrap ==> s.tookLock)
  }

  /** storageBootstrap has returned without an error. */
  predicate Settled(pc: Pc) {
    pc.Joined? || pc.SaveLooking? || pc.SaveLookingUp? || pc.SaveCreating? || pc.SaveReading? || pc.SaveUpdating? || pc.SaveFailed?
  }

  ghost predicate Inv(st: State) {
    && st.etcd.kv.Keys <= {KEY} && Revisioned(st.etcd)
    && forall s | s in st.servers :: ServerInv(st.etcd, st.servers[s])
  }

  /** A call that a server following the invariant makes never takes data away. */
  lemma CallKeepsData(e: Etcd<string>, s: Server, payload: string)
    requires Revisioned(e) && ServerInv(e, s) && payload != ""
    ensures HasData(e) ==> HasData(EtcdAfter(e, s.pc, payload))
  {
  }

  lemma CallKeepsServerInv(e: Etcd<string>, s: Server, payload: string, other: Server)
    requires Revisioned(e) && ServerInv(e, s) && ServerInv(e, other) && payload != ""
    ensures ServerInv(EtcdAfter(e, s.pc, payload), other)
  {
    CallKeepsData(e, s, payload);
    if other.pc.DroppingLock? {
      var revision := match s.pc
        case DroppingLock(r) => r
        case SaveUpdating(r) => r
        case _ => 0;
      var seen := Version("", other.pc.revision);
      WritesKeepPinned(e, KEY, "", revision, KEY, seen);
      WritesKeepPinned(e, KEY, payload, revision, KEY, seen);
    }
  }

  lemma CallKeepsOwnInv(e: Etcd<string>, s: Server, payload: string)
    requires e.kv.Keys <= {KEY} && Revisioned(e) && ServerInv(e, s) && payload != ""
    requires s.pc !in {Joined, Failed, SaveFailed}
    ensures ServerInv(EtcdAfter(e, s.pc, payload), ServerAfter(e, s))
  {
    CallKeepsData(e, s, payload);
  }

  lemma StepKeepsInv(st: State, step: Step)
    requires Inv(st) && Enabled(st, step)
    ensures Inv(Apply(st, step))
    ensures HasData(st.etcd) ==> HasData(Apply(st, step).etcd)
  {
    var st' := Apply(st, step);
    if step.Call? {
      var s := st.servers[step.who];
      CallKeepsData(st.etcd, s, step.payload);
      CallKeepsOwnInv(st.etcd, s, step.payload);
      forall o | o in st'.servers
        ensures ServerInv(st'.etcd, st'.servers[o])
      {
        if o != step.who {
          CallKeepsServerInv(st.etcd, s, step.payload, st.servers[o]);
        }
      }
    }
  }

  lemma {:induction false} RunKeepsInv(st: State, steps: seq<Step>)
    requires Inv(st) && IsRun(st, steps)
    ensures Inv(After(st, steps))
    ensures HasData(st.etcd) ==> HasData(After(st, steps).etcd)
    decreases |steps|
  {
    if steps != [] {
      StepKeepsInv(st, steps[0]);
      RunKeepsInv(Apply(st, steps[0]), steps[1..]);
    }
  }

  // ---------- Main results ----------

  /** MAIN: once the bootstrap key holds data, it never becomes empty or absent again. */
  lemma DataIsNeverLost(start: State, before: seq<Step>, later: seq<Step>)
    requires Initial(start) && IsRun(start, before) && HasData(After(start, before).etcd)
    requires IsRun(After(start, before), later)
    ensures HasData(After(After(start, before), later).etcd)
  {
    RunKeepsInv(start, before);
    RunKeepsInv(After(start, before), later);
  }

  /** A delete call that takes effect removes an empty lock, and one this server saw as such. */
  lemma DeleteOnlyRemovesLock(start: State, steps: seq<Step>, who: ServerId, payload: string)
    requires Initial(start) && IsRun(start, steps)
    requires Enabled(After(start, steps), Call(who, payload))
    requires var st := After(start, steps);
             KEY in st.etcd.kv && KEY !in Apply(st, Call(who, payload)).etcd.kv
    ensures var st := After(start, steps);
            st.etcd.kv[KEY].data == "" && st.servers[who].pc == DroppingLock(st.etcd.kv[KEY].modified)
  {
    RunKeepsInv(start, steps);
    var st := After(start, steps);
    assert ServerInv(st.etcd, st.servers[who]);
  }

  /** MAIN: a server leaves storageBootstrap wanting to save only if its own create made the lock. */
  lemma WantsSaveOnlyWithOwnLock(start: State, steps: seq<Step>, who: ServerId)
    requires Initial(start) && IsRun(start, steps)
    requires var st := After(start, steps); who in st.servers && Settled(st.servers[who].pc)
    ensures var s := After(start, steps).servers[who]; s.saveBootstrap ==> s.tookLock
  {
    RunKeepsInv(start, steps);
    assert ServerInv(After(start, steps).etcd, After(start, steps).servers[who]);
  }

  /** Where a save that was asked to overwrite or not can be. */
  predicate Saving(pc: Pc, overwrite: bool) {
    match pc
    case SaveLooking(o) => o == overwrite
    case SaveLookingUp(o) => o == overwrite
    case SaveCreating(o) => overwrite ==> o
    case SaveReading => true
    case SaveUpdating(_) => true
    case Joined => true
    case Failed => true
    case SaveFailed => true
    case _ => false
  }

  /** Between the start of a save and its end its server only makes calls. */
  ghost predicate OnlyCalls(steps: seq<Step>, who: ServerId) {
    forall i | 0 <= i < |steps| :: steps[i].who == who ==> steps[i].Call?
  }

  lemma {:induction false} SaveGoesOn(st: State, steps: seq<Step>, who: ServerId, overwrite: bool)
    requires IsRun(st, steps) && OnlyCalls(steps, who)
    requires who in st.servers && Saving(st.servers[who].pc, overwrite)
    ensures who in After(st, steps).servers && Saving(After(st, steps).servers[who].pc, overwrite)
    decreases |steps|
  {
    if steps != [] {
      assert forall i | 0 <= i < |steps[1..]| :: steps[1..][i] == steps[i + 1];
      assert steps[0].who == who ==> steps[0].Call?;
      SaveGoesOn(Apply(st, steps[0]), steps[1..], who, overwrite);
    }
  }

  /**
   A whole save, from its start to the call that ends it without an error, with any other servers'
   steps in between.  Either that call wrote the payload, or the save was not asked to overwrite,
   found the key taken, and left it as it was.
   */
  lemma SuccessfulSaveLeavesData(start: State, before: seq<Step>, who: ServerId, overwrite: bool,
                                 during: seq<Step>, payload: string)
    requires Initial(start) && IsRun(start, before) && Enabled(After(start, before), StartSave(who, overwrite))
    requires var saving := Apply(After(start, before), StartSave(who, overwrite));
             && IsRun(saving, during) && OnlyCalls(during, who)
             && Enabled(After(saving, during), Call(who, payload))
             && Apply(After(saving, during), Call(who, payload)).servers[who].pc == Joined
    ensures var last := After(Apply(After(start, before), StartSave(who, overwrite)), during);
            var end := Apply(last, Call(who, payload));
            && KEY in end.etcd.kv
            && (end.etcd.revision == last.etcd.revision + 1 ==> end.etcd.kv[KEY] == Version(payload, end.etcd.revision))
            && (end.etcd.revision != last.etcd.revision + 1 ==> end.etcd == last.etcd && !overwrite)
  {
    var joined := After(start, before);
    var saving := Apply(joined, StartSave(who, overwrite));
    var last := After(saving, during);
    RunKeepsInv(start, before);
    StepKeepsInv(joined, StartSave(who, overwrite));
    RunKeepsInv(saving, during);
    SaveGoesOn(saving, during, who, overwrite);
    assert ServerInv(last.etcd, last.servers[who]);
  }
}
