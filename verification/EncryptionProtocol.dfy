/**
 The secrets-encryption key rotation of a cluster of control-plane servers
 (pkg/server/secrets-encrypt.go, pkg/secretsencrypt/config.go), as a state machine.

 One step is one externally visible effect of one server: the guarded first write of a stage
 request, a later write of the same request, one secret update of a re-encryption scan, an
 apiserver reload, a restart, or an ordinary secret write.  A configuration hash is represented
 by the key list it is the hash of.
 */
module EncryptionProtocol {

  type Key = nat
  type ServerId = nat
  type SecretName = string

  datatype Stage = Start | Prepare | Rotate | ReencryptActive | ReencryptFinished

  /** The node annotation, and the content of the hash file: a stage and a configuration hash. */
  datatype Note = Note(stage: Stage, keys: seq<Key>)

  /** How far the writes that follow a configuration write have come. */
  datatype Progress = Announcing | Persisting | Publishing

  /**
   What the stage request running on a server is doing.  `InTail` has written the configuration and
   still has to annotate its node, write the hash file and save both to the datastore; `base` and
   `baseNote` are the key list and note it started from.  `Scanning` is updateSecrets: `todo` holds
   the listed secrets that have not been updated yet, with the revision they were listed at.
   */
  datatype Operation =
    | Idle
    | InTail(progress: Progress, next: Stage, base: seq<Key>, baseNote: Note)
    | Scanning(skip: bool, todo: map<SecretName, nat>)

  /** `disk` is the configuration file, `loaded` the key list the apiserver currently uses. */
  datatype Server = Server(disk: seq<Key>, hashFile: Note, note: Note, loaded: seq<Key>, op: Operation)

  /** The configuration and hash file last saved to the datastore. */
  datatype Saved = Saved(keys: seq<Key>, note: Note)

  datatype Stored = Stored(key: Key, revision: nat)

  datatype State = State(servers: map<ServerId, Server>, saved: Saved,
                         secrets: map<SecretName, Stored>, revision: nat)

  datatype Step =
    | PrepareRequest(who: ServerId, newKey: Key)
    | RotateRequest(who: ServerId)
    | ReencryptRequest(who: ServerId, skip: bool)
    | ContinueTail(who: ServerId)
    | UpdateListed(who: ServerId, via: ServerId, name: SecretName)
    | FinishScan(who: ServerId)
    | AbortScan(who: ServerId)
    | Reload(who: ServerId)
    | Restart(who: ServerId)
    | WriteSecret(via: ServerId, name: SecretName)
    | DeleteSecret(name: SecretName)

  /** The key list after the append-based right rotation. */
  function RightRotated(keys: seq<Key>): (r: seq<Key>)
    requires |keys| > 0
    ensures |r| == |keys| && multiset(r) == multiset(keys)
  {
    var r := [keys[|keys| - 1]] + keys[..|keys| - 1];
    assert keys == keys[..|keys| - 1] + [keys[|keys| - 1]];
    r
  }

  function DropLast(keys: seq<Key>): seq<Key>
    requires |keys| > 0
  {
    keys[..|keys| - 1]
  }

  /** verifyEncryptionHashAnnotation: one note on every node, an expected stage, a current hash. */
  predicate StageVerified(st: State, who: ServerId, stages: set<Stage>)
    requires who in st.servers
  {
    && (forall t | t in st.servers :: st.servers[t].note == st.servers[who].note)
    && st.servers[who].note.stage in stages
    && st.servers[who].note.keys == st.servers[who].disk
  }

  /** Every apiserver has loaded its configuration file. */
  predicate AllLoaded(st: State)
  {
    forall t | t in st.servers :: st.servers[t].loaded == st.servers[t].disk
  }

  /** A newly generated key: nobody has seen it before. */
  predicate FreshKey(st: State, k: Key)
  {
    && k !in st.saved.keys
    && (forall t | t in st.servers :: k !in st.servers[t].disk && k !in st.servers[t].loaded)
    && (forall n | n in st.secrets :: st.secrets[n].key != k)
  }

  /**
   When a step can happen.  A stage request also needs its server to be idle.  The code does not
   check that the apiservers have caught up with their files; `waitForLoads` adds that operator
   duty, for the two stages that depend on it.
   */
  predicate Enabled(st: State, step: Step, waitForLoads: bool)
  {
    match step
    case PrepareRequest(s, k) =>
      && s in st.servers && st.servers[s].op.Idle?
      && StageVerified(st, s, {Start, ReencryptFinished}) && FreshKey(st, k)
    case RotateRequest(s) =>
      && s in st.servers && st.servers[s].op.Idle? && |st.servers[s].disk| > 0
      && StageVerified(st, s, {Prepare}) && (waitForLoads ==> AllLoaded(st))
    case ReencryptRequest(s, _) =>
      && s in st.servers && st.servers[s].op.Idle?
      && StageVerified(st, s, {Rotate}) && (waitForLoads ==> AllLoaded(st))
    case ContinueTail(s) => s in st.servers && st.servers[s].op.InTail?
    case UpdateListed(s, via, name) =>
      && s in st.servers && st.servers[s].op.Scanning? && name in st.servers[s].op.todo
      && via in st.servers && |st.servers[via].loaded| > 0
    case FinishScan(s) =>
      && s in st.servers && st.servers[s].op.Scanning? && st.servers[s].op.todo == map[]
      && (!st.servers[s].op.skip ==> |st.servers[s].disk| > 0)
    case AbortScan(s) => s in st.servers && st.servers[s].op.Scanning?
    case Reload(s) => s in st.servers
    case Restart(s) => s in st.servers
    case WriteSecret(via, _) => via in st.servers && |st.servers[via].loaded| > 0
    case DeleteSecret(name) => name in st.secrets
  }

  function Put(st: State, who: ServerId, s: Server): State {
    st.(servers := st.servers[who := s])
  }

  /** The secrets as a list call sees them. */
  function Listing(secrets: map<SecretName, Stored>): map<SecretName, nat> {
    map n | n in secrets :: secrets[n].revision
  }

  /** The next write after a configuration write: node annotation, hash file, then the datastore. */
  function TailAdvanced(s: Server): Server
    requires s.op.InTail?
  {
    match s.op.progress
    case Announcing => s.(note := Note(s.op.next, s.disk), op := s.op.(progress := Persisting))
    case Persisting => s.(hashFile := s.note, op := s.op.(progress := Publishing))
    case Publishing => s.(op := Idle)
  }

  function Apply(st: State, step: Step, waitForLoads: bool): State
    requires Enabled(st, step, waitForLoads)
  {
    match step
    case PrepareRequest(who, k) =>
      var s := st.servers[who];
      Put(st, who, s.(disk := s.disk + [k], op := InTail(Announcing, Prepare, s.disk, s.note)))
    case RotateRequest(who) =>
      var s := st.servers[who];
      Put(st, who, s.(disk := RightRotated(s.disk), op := InTail(Announcing, Rotate, s.disk, s.note)))
    case ReencryptRequest(who, skip) =>
      var s := st.servers[who];
      Put(st, who, s.(note := Note(ReencryptActive, s.disk), op := Scanning(skip, Listing(st.secrets))))
    case ContinueTail(who) =>
      var s := st.servers[who];
      Put(st.(saved := if s.op.progress == Publishing then Saved(s.disk, s.hashFile) else st.saved), who, TailAdvanced(s))
    case UpdateListed(who, via, name) => ApplyUpdate(st, who, via, name)
    case FinishScan(who) =>
      var s := st.servers[who];
      if s.op.skip then
        Put(st, who, s.(note := s.hashFile, op := Idle))
      else
        Put(st, who, s.(disk := DropLast(s.disk), op := InTail(Announcing, ReencryptFinished, s.disk, s.hashFile)))
    case AbortScan(who) => Put(st, who, st.servers[who].(op := Idle))
    case Reload(who) => Put(st, who, st.servers[who].(loaded := st.servers[who].disk))
    case Restart(who) =>
      Put(st, who, Server(st.saved.keys, st.saved.note, st.saved.note, st.saved.keys, Idle))
    case WriteSecret(via, name) =>
      st.(secrets := st.secrets[name := Stored(st.servers[via].loaded[0], st.revision + 1)],
          revision := st.revision + 1)
    case DeleteSecret(name) => st.(secrets := st.secrets - {name})
  }

  /**
   One Update call of updateSecrets.  A conflict is ignored, a secret deleted since it was listed
   ends the scan with an error, and a secret already under the write key is left alone.
   */
  function ApplyUpdate(st: State, who: ServerId, via: ServerId, name: SecretName): State
    requires Enabled(st, UpdateListed(who, via, name), true)
  {
    var s := st.servers[who];
    var advanced := s.(op := s.op.(todo := s.op.todo - {name}));
    var writeKey := st.servers[via].loaded[0];
    if name !in st.secrets then
      Put(st, who, s.(op := Idle))
    else if st.secrets[name].revision != s.op.todo[name] || st.secrets[name].key == writeKey then
      Put(st, who, advanced)
    else
      Put(st.(secrets := st.secrets[name := Stored(writeKey, st.revision + 1)],
              revision := st.revision + 1), who, advanced)
  }

  ghost predicate IsRun(st: State, steps: seq<Step>, waitForLoads: bool)
    decreases |steps|
  {
    steps == [] ||
    (Enabled(st, steps[0], waitForLoads) && IsRun(Apply(st, steps[0], waitForLoads), steps[1..], waitForLoads))
  }

  ghost function After(st: State, steps: seq<Step>, waitForLoads: bool): State
    requires IsRun(st, steps, waitForLoads)
    decreases |steps|
  {
    if steps == [] then st else After(Apply(st, steps[0], waitForLoads), steps[1..], waitForLoads)
  }

  /** A cluster that finished its previous rotation (or never had one) on every server. */
  ghost predicate Initial(st: State)
  {
    && st.servers != map[]
    && |st.saved.keys| > 0
    && st.saved.note.stage in {Start, ReencryptFinished} && st.saved.note.keys == st.saved.keys
    && (forall t | t in st.servers ::
          st.servers[t] == Server(st.saved.keys, st.saved.note, st.saved.note, st.saved.keys, Idle))
    && (forall n | n in st.secrets :: st.secrets[n].key in st.saved.keys && st.secrets[n].revision <= st.revision)
  }

  /** Every server can decrypt every stored secret. */
  ghost predicate AllReadable(st: State)
  {
    forall t, n | t in st.servers && n in st.secrets :: st.secrets[n].key in st.servers[t].loaded
  }
}
