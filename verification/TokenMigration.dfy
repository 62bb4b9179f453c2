/**
 Moving bootstrap data from an old token to a new one (migrateTokens and doMigrateToken in
 pkg/cluster/storage.go; called by tokenRotate in pkg/server/token.go and by every key lookup).

 Storage keys are derived injectively from tokens, so a key is written as its token.  Encrypted data
 opens with the token it was sealed with and with no other; an empty lock never opens.
 */
module TokenMigration {
  import opened EtcdStorage
  import opened Wrappers

  type Token = string
  type WorkerId = nat

  datatype Blob = Lock | Sealed(token: Token, plain: string)

  function Decrypt(token: Token, b: Blob): Option<string> {
    if b.Sealed? && b.token == token then Some(b.plain) else None
  }

  function Encrypt(token: Token, plain: string): (b: Blob)
    ensures Decrypt(token, b) == Some(plain)
  {
    Sealed(token, plain)
  }

  /** The plaintext can still be read with the old or with the new token. */
  predicate Recoverable(e: Etcd<Blob>, oldToken: Token, newToken: Token, plain: string) {
    || (oldToken in e.kv && Decrypt(oldToken, e.kv[oldToken].data) == Some(plain))
    || (newToken in e.kv && Decrypt(newToken, e.kv[newToken].data) == Some(plain))
  }

  // ---------- One uninterrupted migration ----------

  datatype Outcome = Migrated | CannotDecrypt

  /** doMigrateToken on a value listed earlier: the store after it. */
  function AfterMigrate(e: Etcd<Blob>, oldToken: Token, seen: Version<Blob>, newToken: Token): Etcd<Blob> {
    match Decrypt(oldToken, seen.data)
    case None => e
    case Some(plain) => AfterDelete(AfterCreate(e, newToken, Encrypt(newToken, plain)), oldToken, seen.modified)
  }

  method DoMigrateToken(c: Client<Blob>, oldToken: Token, seen: Version<Blob>, newToken: Token) returns (r: Outcome)
    requires Revisioned(c.store)
    modifies c
    ensures Revisioned(c.store) && c.store == AfterMigrate(old(c.store), oldToken, seen, newToken)
    ensures r == CannotDecrypt <==> Decrypt(oldToken, seen.data).None?
  {
    var data := Decrypt(oldToken, seen.data);
    if data.None? {
      return CannotDecrypt;
    }
    var _ := c.Create(newToken, Encrypt(newToken, data.value));
    var _ := c.Delete(oldToken, seen.modified);
    return Migrated;
  }

  /** migrateTokens: the listed values stored under the empty token or the old token, in list order. */
  function Jobs(listed: seq<(Token, Version<Blob>)>, checkEmpty: bool, oldToken: Token, newToken: Token): (jobs: seq<(Token, Version<Blob>)>)
    decreases |listed|
  {
    if listed == [] then [] else
      var key := listed[0].0;
      var rest := Jobs(listed[1..], checkEmpty, oldToken, newToken);
      if (checkEmpty && key == "") || (key == oldToken && oldToken != newToken) then [listed[0]] + rest else rest
  }

  function AfterJobs(e: Etcd<Blob>, jobs: seq<(Token, Version<Blob>)>, newToken: Token): Etcd<Blob>
    decreases |jobs|
  {
    if jobs == [] || Decrypt(jobs[0].0, jobs[0].1.data).None? then e
    else AfterJobs(AfterMigrate(e, jobs[0].0, jobs[0].1, newToken), jobs[1..], newToken)
  }

  predicate AllOpen(jobs: seq<(Token, Version<Blob>)>) {
    forall job | job in jobs :: Decrypt(job.0, job.1.data).Some?
  }

  /** The listing shows the store as it is: every value, once. */
  ghost predicate Current(e: Etcd<Blob>, listed: seq<(Token, Version<Blob>)>) {
    && (forall i | 0 <= i < |listed| :: listed[i].0 in e.kv && e.kv[listed[i].0] == listed[i].1)
    && (forall k | k in e.kv :: exists i :: 0 <= i < |listed| && listed[i].0 == k)
    && (forall i, j | 0 <= i < j < |listed| :: listed[i].0 != listed[j].0)
  }

  /** A token whose value the pass moves. */
  predicate Source(key: Token, checkEmpty: bool, oldToken: Token, newToken: Token) {
    (checkEmpty && key == "") || (key == oldToken && oldToken != newToken)
  }

  /** The first listed value that the pass moves. */
  predicate IsFirstSource(listed: seq<(Token, Version<Blob>)>, i: int, checkEmpty: bool, oldToken: Token, newToken: Token) {
    && 0 <= i < |listed| && Source(listed[i].0, checkEmpty, oldToken, newToken)
    && forall j | 0 <= j < i :: !Source(listed[j].0, checkEmpty, oldToken, newToken)
  }

  predicate DistinctTokens(listed: seq<(Token, Version<Blob>)>) {
    forall i, j | 0 <= i < j < |listed| :: listed[i].0 != listed[j].0
  }

  lemma {:induction false} JobsAreSources(listed: seq<(Token, Version<Blob>)>, checkEmpty: bool, oldToken: Token, newToken: Token)
    ensures forall job | job in Jobs(listed, checkEmpty, oldToken, newToken) :: job in listed && Source(job.0, checkEmpty, oldToken, newToken)
    ensures forall job | job in listed && Source(job.0, checkEmpty, oldToken, newToken) :: job in Jobs(listed, checkEmpty, oldToken, newToken)
    decreases |listed|
  {
    if listed != [] {
      assert listed == [listed[0]] + listed[1..];
      JobsAreSources(listed[1..], checkEmpty, oldToken, newToken);
    }
  }

  lemma {:induction false} JobsAreDistinct(listed: seq<(Token, Version<Blob>)>, checkEmpty: bool, oldToken: Token, newToken: Token)
    requires DistinctTokens(listed)
    ensures DistinctTokens(Jobs(listed, checkEmpty, oldToken, newToken))
    decreases |listed|
  {
    if listed != [] {
      var rest := listed[1..];
      assert forall i | 0 <= i < |rest| :: rest[i] == listed[i + 1];
      JobsAreDistinct(rest, checkEmpty, oldToken, newToken);
      JobsAreSources(rest, checkEmpty, oldToken, newToken);
      var jobs := Jobs(rest, checkEmpty, oldToken, newToken);
      forall a | 0 <= a < |jobs|
        ensures jobs[a].0 != listed[0].0
      {
        assert jobs[a] in jobs;
        var i :| 0 <= i < |rest| && rest[i] == jobs[a];
      }
    }
  }

  lemma {:induction false} FirstJobIsFirstSource(listed: seq<(Token, Version<Blob>)>, checkEmpty: bool, oldToken: Token, newToken: Token, i: nat)
    requires i < |listed| && Source(listed[i].0, checkEmpty, oldToken, newToken)
    requires forall j | 0 <= j < i :: !Source(listed[j].0, checkEmpty, oldToken, newToken)
    ensures var jobs := Jobs(listed, checkEmpty, oldToken, newToken); jobs != [] && jobs[0] == listed[i]
    decreases i
  {
    if i > 0 {
      FirstJobIsFirstSource(listed[1..], checkEmpty, oldToken, newToken, i - 1);
    }
  }

  lemma OneMoves(e: Etcd<Blob>, key: Token, newToken: Token)
    requires Revisioned(e) && key in e.kv && key != newToken && Decrypt(key, e.kv[key].data).Some?
    ensures var end := AfterMigrate(e, key, e.kv[key], newToken);
            && Revisioned(end) && key !in end.kv && newToken in end.kv
            && (newToken in e.kv ==> end.kv[newToken] == e.kv[newToken])
            && (newToken !in e.kv ==> Decrypt(newToken, end.kv[newToken].data) == Decrypt(key, e.kv[key].data))
            && (forall k | k != newToken && k != key :: (k in end.kv <==> k in e.kv) && (k in e.kv ==> end.kv[k] == e.kv[k]))
  {
  }

  /** Values that are moved, one after the other, while each is still as it was listed. */
  lemma {:induction false} JobsMove(e: Etcd<Blob>, jobs: seq<(Token, Version<Blob>)>, newToken: Token)
    requires Revisioned(e) && AllOpen(jobs) && DistinctTokens(jobs)
    requires forall a | 0 <= a < |jobs| :: jobs[a].0 != newToken && jobs[a].0 in e.kv && e.kv[jobs[a].0] == jobs[a].1
    ensures var end := AfterJobs(e, jobs, newToken);
            && (forall a | 0 <= a < |jobs| :: jobs[a].0 !in end.kv)
            && (newToken in e.kv ==> newToken in end.kv && end.kv[newToken] == e.kv[newToken])
            && (newToken !in e.kv && jobs != [] ==>
                  newToken in end.kv && Decrypt(newToken, end.kv[newToken].data) == Decrypt(jobs[0].0, jobs[0].1.data))
            && (forall k | k != newToken && (forall a | 0 <= a < |jobs| :: jobs[a].0 != k) ::
                  (k in end.kv <==> k in e.kv) && (k in e.kv ==> end.kv[k] == e.kv[k]))
            && (jobs == [] ==> end == e)
    decreases |jobs|
  {
    if jobs != [] {
      var rest := jobs[1..];
      assert jobs[0] in jobs;
      var e' := AfterMigrate(e, jobs[0].0, jobs[0].1, newToken);
      OneMoves(e, jobs[0].0, newToken);
      assert jobs == [jobs[0]] + rest;
      assert forall a | 0 <= a < |rest| :: rest[a] == jobs[a + 1];
      JobsMove(e', rest, newToken);
    }
  }

  lemma JobsAreCurrent(e: Etcd<Blob>, listed: seq<(Token, Version<Blob>)>, checkEmpty: bool, oldToken: Token, newToken: Token)
    requires Current(e, listed) && (!checkEmpty || newToken != "")
    ensures var jobs := Jobs(listed, checkEmpty, oldToken, newToken);
            && DistinctTokens(jobs)
            && forall a | 0 <= a < |jobs| :: jobs[a].0 != newToken && jobs[a].0 in e.kv && e.kv[jobs[a].0] == jobs[a].1
  {
    var jobs := Jobs(listed, checkEmpty, oldToken, newToken);
    JobsAreSources(listed, checkEmpty, oldToken, newToken);
    JobsAreDistinct(listed, checkEmpty, oldToken, newToken);
    forall a | 0 <= a < |jobs|
      ensures jobs[a].0 != newToken && jobs[a].0 in e.kv && e.kv[jobs[a].0] == jobs[a].1
    {
      assert jobs[a] in jobs;
      var i :| 0 <= i < |listed| && listed[i] == jobs[a];
    }
  }

  lemma PassClears(e: Etcd<Blob>, listed: seq<(Token, Version<Blob>)>, checkEmpty: bool, oldToken: Token, newToken: Token)
    requires Revisioned(e) && Current(e, listed) && (!checkEmpty || newToken != "")
    requires AllOpen(Jobs(listed, checkEmpty, oldToken, newToken))
    ensures forall k | Source(k, checkEmpty, oldToken, newToken) :: k !in AfterJobs(e, Jobs(listed, checkEmpty, oldToken, newToken), newToken).kv
  {
    var jobs := Jobs(listed, checkEmpty, oldToken, newToken);
    JobsAreSources(listed, checkEmpty, oldToken, newToken);
    JobsAreCurrent(e, listed, checkEmpty, oldToken, newToken);
    JobsMove(e, jobs, newToken);
    forall k | Source(k, checkEmpty, oldToken, newToken)
      ensures k !in AfterJobs(e, jobs, newToken).kv
    {
      if k in e.kv {
        var i :| 0 <= i < |listed| && listed[i].0 == k;
        assert listed[i] in jobs;
      }
    }
  }

  lemma PassOpens(e: Etcd<Blob>, listed: seq<(Token, Version<Blob>)>, checkEmpty: bool, oldToken: Token, newToken: Token)
    requires Revisioned(e) && Current(e, listed) && (!checkEmpty || newToken != "")
    requires AllOpen(Jobs(listed, checkEmpty, oldToken, newToken))
    ensures var end := AfterJobs(e, Jobs(listed, checkEmpty, oldToken, newToken), newToken);
            && (newToken in e.kv ==> newToken in end.kv && end.kv[newToken] == e.kv[newToken])
            && (newToken !in e.kv ==>
                  forall i | IsFirstSource(listed, i, checkEmpty, oldToken, newToken) ::
                    && newToken in end.kv && Decrypt(listed[i].0, listed[i].1.data).Some?
                    && Decrypt(newToken, end.kv[newToken].data) == Decrypt(listed[i].0, listed[i].1.data))
  {
    var jobs := Jobs(listed, checkEmpty, oldToken, newToken);
    JobsAreCurrent(e, listed, checkEmpty, oldToken, newToken);
    JobsMove(e, jobs, newToken);
    forall i | IsFirstSource(listed, i, checkEmpty, oldToken, newToken)
      ensures jobs != [] && jobs[0] == listed[i] && jobs[0] in jobs
    {
      FirstJobIsFirstSource(listed, checkEmpty, oldToken, newToken, i);
    }
  }

  lemma PassSpares(e: Etcd<Blob>, listed: seq<(Token, Version<Blob>)>, checkEmpty: bool, oldToken: Token, newToken: Token)
    requires Revisioned(e) && Current(e, listed) && (!checkEmpty || newToken != "")
    requires AllOpen(Jobs(listed, checkEmpty, oldToken, newToken))
    ensures var end := AfterJobs(e, Jobs(listed, checkEmpty, oldToken, newToken), newToken);
            forall k | k != newToken && !Source(k, checkEmpty, oldToken, newToken) ::
              (k in end.kv <==> k in e.kv) && (k in e.kv ==> end.kv[k] == e.kv[k])
  {
    var jobs := Jobs(listed, checkEmpty, oldToken, newToken);
    JobsAreSources(listed, checkEmpty, oldToken, newToken);
    JobsAreCurrent(e, listed, checkEmpty, oldToken, newToken);
    JobsMove(e, jobs, newToken);
    forall a | 0 <= a < |jobs|
      ensures Source(jobs[a].0, checkEmpty, oldToken, newToken)
    {
      assert jobs[a] in jobs;
    }
  }

  /** MAIN: what a whole pass over a current listing does to the store, if every value opens. */
  lemma PassMoves(e: Etcd<Blob>, listed: seq<(Token, Version<Blob>)>, checkEmpty: bool, oldToken: Token, newToken: Token)
    requires Revisioned(e) && Current(e, listed) && (!checkEmpty || newToken != "")
    requires AllOpen(Jobs(listed, checkEmpty, oldToken, newToken))
    ensures Moved(e, AfterJobs(e, Jobs(listed, checkEmpty, oldToken, newToken), newToken), listed, checkEmpty, oldToken, newToken)
  {
    PassClears(e, listed, checkEmpty, oldToken, newToken);
    PassOpens(e, listed, checkEmpty, oldToken, newToken);
    PassSpares(e, listed, checkEmpty, oldToken, newToken);
  }

  /**
   No migrated token is left; a new key that was there is kept, and otherwise the first migrated value
   opens under it with its plaintext; nothing else changes.
   */
  ghost predicate Moved(e: Etcd<Blob>, end: Etcd<Blob>, listed: seq<(Token, Version<Blob>)>,
                        checkEmpty: bool, oldToken: Token, newToken: Token) {
    && (checkEmpty ==> "" !in end.kv) && (oldToken != newToken ==> oldToken !in end.kv)
    && (newToken in e.kv ==> newToken in end.kv && end.kv[newToken] == e.kv[newToken])
    && (newToken !in e.kv ==>
          forall i | IsFirstSource(listed, i, checkEmpty, oldToken, newToken) ::
            && newToken in end.kv && Decrypt(listed[i].0, listed[i].1.data).Some?
            && Decrypt(newToken, end.kv[newToken].data) == Decrypt(listed[i].0, listed[i].1.data))
    && (forall k | k != newToken && !Source(k, checkEmpty, oldToken, newToken) ::
          (k in end.kv <==> k in e.kv) && (k in e.kv ==> end.kv[k] == e.kv[k]))
  }

  lemma PassMovesIf(e: Etcd<Blob>, listed: seq<(Token, Version<Blob>)>, checkEmpty: bool, oldToken: Token, newToken: Token)
    requires Revisioned(e)
    ensures var jobs := Jobs(listed, checkEmpty, oldToken, newToken);
            AllOpen(jobs) && Current(e, listed) && (!checkEmpty || newToken != "") ==>
              Moved(e, AfterJobs(e, jobs, newToken), listed, checkEmpty, oldToken, newToken)
  {
    if AllOpen(Jobs(listed, checkEmpty, oldToken, newToken)) && Current(e, listed) && (!checkEmpty || newToken != "") {
      PassMoves(e, listed, checkEmpty, oldToken, newToken);
    }
  }

  /** What one listed value adds to the jobs, and whether the pass gets past it. */
  lemma NextJob(listed: seq<(Token, Version<Blob>)>, i: nat, checkEmpty: bool, oldToken: Token, newToken: Token)
    requires i < |listed|
    ensures var todo, rest := Jobs(listed[i..], checkEmpty, oldToken, newToken), Jobs(listed[i + 1..], checkEmpty, oldToken, newToken);
            if Source(listed[i].0, checkEmpty, oldToken, newToken)
            then todo != [] && todo[0] == listed[i] && todo[1..] == rest &&
                 (AllOpen(todo) <==> Decrypt(listed[i].0, listed[i].1.data).Some? && AllOpen(rest))
            else todo == rest
  {
    assert listed[i..][1..] == listed[i + 1..];
    var todo := Jobs(listed[i..], checkEmpty, oldToken, newToken);
    if Source(listed[i].0, checkEmpty, oldToken, newToken) {
      assert todo == [todo[0]] + todo[1..];
    }
  }

  method MigrateTokens(c: Client<Blob>, listed: seq<(Token, Version<Blob>)>, checkEmpty: bool,
                       oldToken: Token, newToken: Token) returns (r: Outcome)
    requires Revisioned(c.store)
    modifies c
    ensures Revisioned(c.store)
    ensures var jobs := Jobs(listed, checkEmpty, oldToken, newToken);
            && c.store == AfterJobs(old(c.store), jobs, newToken)
            && (r == Migrated <==> AllOpen(jobs))
    ensures r == Migrated && Current(old(c.store), listed) && (!checkEmpty || newToken != "") ==>
              Moved(old(c.store), c.store, listed, checkEmpty, oldToken, newToken)
  {
    ghost var was := c.store;
    PassMovesIf(was, listed, checkEmpty, oldToken, newToken);
    for i := 0 to |listed|
      invariant Revisioned(c.store)
      invariant AfterJobs(c.store, Jobs(listed[i..], checkEmpty, oldToken, newToken), newToken) ==
                AfterJobs(was, Jobs(listed, checkEmpty, oldToken, newToken), newToken)
      invariant AllOpen(Jobs(listed[i..], checkEmpty, oldToken, newToken)) ==
                AllOpen(Jobs(listed, checkEmpty, oldToken, newToken))
    {
      var (key, seen) := listed[i];
      NextJob(listed, i, checkEmpty, oldToken, newToken);
      if (checkEmpty && key == "") || (key == oldToken && oldToken != newToken) {
        var outcome := DoMigrateToken(c, key, seen, newToken);
        if outcome == CannotDecrypt {
          return CannotDecrypt;
        }
      }
    }
    return Migrated;
  }

  /**
   An uninterrupted migration of current data keeps it readable exactly when the new key was absent
   or already held the same plaintext: an existing new key is kept, and the old key deleted.
   */
  lemma MigrationSafeExactlyWhen(e: Etcd<Blob>, oldToken: Token, newToken: Token, plain: string)
    requires Revisioned(e) && oldToken != newToken
    requires oldToken in e.kv && Decrypt(oldToken, e.kv[oldToken].data) == Some(plain)
    ensures var end := AfterMigrate(e, oldToken, e.kv[oldToken], newToken);
            && oldToken !in end.kv
            && (Recoverable(end, oldToken, newToken, plain) <==>
                newToken !in e.kv || Decrypt(newToken, e.kv[newToken].data) == Some(plain))
  {
  }

  /** A lock taken under the new token costs the data of the old one. */
  lemma LockUnderNewTokenLosesData()
    ensures var e := Etcd(map["old" := Version(Sealed("old", "certs"), 1), "new" := Version(Lock, 2)], 2);
            && Recoverable(e, "old", "new", "certs")
            && !Recoverable(AfterMigrate(e, "old", e.kv["old"], "new"), "old", "new", "certs")
  {
    var e := Etcd(map["old" := Version(Sealed("old", "certs"), 1), "new" := Version(Lock, 2)], 2);
    MigrationSafeExactlyWhen(e, "old", "new", "certs");
  }

  // ---------- Racing and crashing migrations ----------

  /**
   Where a server is in its migration pass: about to list, to create, or to delete; ended without an
   error; or ended with one.  `kept` tells whether the pass has left some old value alone.
   */
  datatype Worker =
    | Listing
    | Creating(jobs: seq<(Token, Version<Blob>)>, kept: bool)
    | Deleting(jobs: seq<(Token, Version<Blob>)>, kept: bool)
    | Done(kept: bool)
    | CannotOpen

  datatype State = State(etcd: Etcd<Blob>, workers: map<WorkerId, Worker>)

  /**
   `Learner` is a create call refused by a learner, `DeleteFails` a delete call that errors: both only
   leave a message, and the next value is taken.
   */
  datatype Step =
    | Start(who: WorkerId)
    | Call(who: WorkerId, response: seq<Token>)
    | Learner(who: WorkerId)
    | DeleteFails(who: WorkerId)

  datatype Config = Config(checkEmpty: bool, oldToken: Token, newToken: Token)

  ghost predicate Enabled(st: State, step: Step) {
    match step
    case Start(who) => true
    case Call(who, response) =>
      && who in st.workers && (st.workers[who].Listing? || st.workers[who].Creating? || st.workers[who].Deleting?)
      && (st.workers[who].Listing? ==> IsListing(st.etcd, "", response))
      && (!st.workers[who].Listing? ==> st.workers[who].jobs != [])
    case Learner(who) => who in st.workers && st.workers[who].Creating? && st.workers[who].jobs != []
    case DeleteFails(who) => who in st.workers && st.workers[who].Deleting? && st.workers[who].jobs != []
  }

  /** The server and the store after a call; a value that cannot be decrypted ends the pass. */
  function Called(st: State, w: Worker, cfg: Config, response: seq<Token>): (Etcd<Blob>, Worker)
    requires w.Listing? ==> forall i | 0 <= i < |response| :: response[i] in st.etcd.kv
    requires w.Creating? || w.Deleting? ==> w.jobs != []
  {
    match w
    case Listing =>
      var jobs := Jobs(Listed(st.etcd, response), cfg.checkEmpty, cfg.oldToken, cfg.newToken);
      (st.etcd, Onward(jobs, false))
    case Creating(jobs, kept) =>
      (match Decrypt(jobs[0].0, jobs[0].1.data)
       case None => (st.etcd, CannotOpen)
       case Some(plain) => (AfterCreate(st.etcd, cfg.newToken, Encrypt(cfg.newToken, plain)), Deleting(jobs, kept)))
    case Deleting(jobs, kept) =>
      (AfterDelete(st.etcd, jobs[0].0, jobs[0].1.modified), Onward(jobs[1..], kept))
    case _ => (st.etcd, w)
  }

  /** The next listed value, or the end of the pass. */
  function Onward(jobs: seq<(Token, Version<Blob>)>, kept: bool): Worker {
    if jobs == [] then Done(kept) else Creating(jobs, kept)
  }

  ghost function Apply(st: State, step: Step, cfg: Config): State
    requires Enabled(st, step)
  {
    match step
    case Start(who) => st.(workers := st.workers[who := Listing])
    case Call(who, response) =>
      var (e, w) := Called(st, st.workers[who], cfg, response);
      State(e, st.workers[who := w])
    case Learner(who) => st.(workers := st.workers[who := Onward(st.workers[who].jobs[1..], true)])
    case DeleteFails(who) => st.(workers := st.workers[who := Onward(st.workers[who].jobs[1..], true)])
  }

  ghost predicate IsRun(st: State, steps: seq<Step>, cfg: Config)
    decreases |steps|
  {
    steps == [] || (Enabled(st, steps[0]) && IsRun(Apply(st, steps[0], cfg), steps[1..], cfg))
  }

  ghost function After(st: State, steps: seq<Step>, cfg: Config): State
    requires IsRun(st, steps, cfg)
    decreases |steps|
  {
    if steps == [] then st else After(Apply(st, steps[0], cfg), steps[1..], cfg)
  }

  /** One value stored under a token the pass migrates from, and nothing under the new token. */
  ghost predicate Initial(st: State, cfg: Config, source: Token, plain: string) {
    && source != cfg.newToken && (source == cfg.oldToken || (cfg.checkEmpty && source == ""))
    && st.workers == map[] && Revisioned(st.etcd)
    && st.etcd.kv.Keys == {source} && Decrypt(source, st.etcd.kv[source].data) == Some(plain)
  }

  ghost predicate WorkerInv(e: Etcd<Blob>, w: Worker, cfg: Config, source: Token, origin: Version<Blob>) {
    match w
    case Creating(jobs, kept) => jobs == [(source, origin)] && !kept
    case Deleting(jobs, kept) => jobs == [(source, origin)] && !kept && cfg.newToken in e.kv
    case Done(kept) => !kept ==> e.kv.Keys == {cfg.newToken}
    case _ => true
  }

  ghost predicate Inv(st: State, cfg: Config, source: Token, origin: Version<Blob>, plain: string) {
    && source != cfg.newToken && (source == cfg.oldToken || (cfg.checkEmpty && source == ""))
    && Decrypt(source, origin.data) == Some(plain) && Revisioned(st.etcd) && 0 < origin.modified
    && st.etcd.kv.Keys <= {source, cfg.newToken} && st.etcd.kv != map[]
    && (source in st.etcd.kv ==> st.etcd.kv[source] == origin)
    && (cfg.newToken in st.etcd.kv ==> Decrypt(cfg.newToken, st.etcd.kv[cfg.newToken].data) == Some(plain))
    && forall w | w in st.workers :: WorkerInv(st.etcd, st.workers[w], cfg, source, origin)
  }

  lemma {:induction false} JobsOf(listed: seq<(Token, Version<Blob>)>, cfg: Config, source: Token)
    requires source != cfg.newToken && (source == cfg.oldToken || (cfg.checkEmpty && source == ""))
    requires forall i | 0 <= i < |listed| :: listed[i].0 == source || listed[i].0 == cfg.newToken
    requires forall i, j | 0 <= i < j < |listed| :: listed[i].0 != listed[j].0
    requires !cfg.checkEmpty || cfg.newToken != ""
    ensures var jobs := Jobs(listed, cfg.checkEmpty, cfg.oldToken, cfg.newToken);
            if exists i :: 0 <= i < |listed| && listed[i].0 == source
            then |jobs| == 1 && jobs[0] in listed && jobs[0].0 == source
            else jobs == []
    decreases |listed|
  {
    if listed != [] {
      assert forall i | 0 <= i < |listed[1..]| :: listed[1..][i] == listed[i + 1];
      JobsOf(listed[1..], cfg, source);
    }
  }

  /** A listing that still has the source yields the one job for it. */
  lemma ListingWithSource(e: Etcd<Blob>, response: seq<Token>, cfg: Config, source: Token)
    requires source != cfg.newToken && (source == cfg.oldToken || (cfg.checkEmpty && source == ""))
    requires e.kv.Keys <= {source, cfg.newToken} && source in e.kv && IsListing(e, "", response)
    requires !cfg.checkEmpty || cfg.newToken != ""
    ensures Jobs(Listed(e, response), cfg.checkEmpty, cfg.oldToken, cfg.newToken) == [(source, e.kv[source])]
  {
    var listed := Listed(e, response);
    JobsOf(listed, cfg, source);
    assert "" <= source;
    var i :| 0 <= i < |response| && response[i] == source;
    assert listed[i].0 == source;
  }

  /** One without it yields no job, and only the new token is left. */
  lemma ListingWithoutSource(e: Etcd<Blob>, response: seq<Token>, cfg: Config, source: Token)
    requires source != cfg.newToken && (source == cfg.oldToken || (cfg.checkEmpty && source == ""))
    requires e.kv != map[] && e.kv.Keys <= {source, cfg.newToken} && source !in e.kv && IsListing(e, "", response)
    requires !cfg.checkEmpty || cfg.newToken != ""
    ensures Jobs(Listed(e, response), cfg.checkEmpty, cfg.oldToken, cfg.newToken) == []
    ensures e.kv.Keys == {cfg.newToken}
  {
    JobsOf(Listed(e, response), cfg, source);
    var k :| k in e.kv;
    assert k == cfg.newToken;
  }

  lemma ListingCallKeepsInv(st: State, who: WorkerId, response: seq<Token>, cfg: Config, source: Token, origin: Version<Blob>, plain: string)
    requires Inv(st, cfg, source, origin, plain) && (!cfg.checkEmpty || cfg.newToken != "")
    requires Enabled(st, Call(who, response)) && st.workers[who].Listing?
    ensures Inv(Apply(st, Call(who, response), cfg), cfg, source, origin, plain)
  {
    var st' := Apply(st, Call(who, response), cfg);
    if source in st.etcd.kv {
      ListingWithSource(st.etcd, response, cfg, source);
    } else {
      ListingWithoutSource(st.etcd, response, cfg, source);
    }
    forall w | w in st'.workers
      ensures WorkerInv(st'.etcd, st'.workers[w], cfg, source, origin)
    {
      if w != who {
        assert WorkerInv(st.etcd, st.workers[w], cfg, source, origin);
      }
    }
  }

  lemma StepKeepsInv(st: State, step: Step, cfg: Config, source: Token, origin: Version<Blob>, plain: string)
    requires Inv(st, cfg, source, origin, plain) && Enabled(st, step) && (!cfg.checkEmpty || cfg.newToken != "")
    ensures Inv(Apply(st, step, cfg), cfg, source, origin, plain)
  {
    var st' := Apply(st, step, cfg);
    if step.Call? {
      var w := st.workers[step.who];
      assert WorkerInv(st.etcd, w, cfg, source, origin);
      if w.Listing? {
        ListingCallKeepsInv(st, step.who, step.response, cfg, source, origin, plain);
      } else {
        assert cfg.newToken in st'.etcd.kv;
        assert w.Deleting? ==> st'.etcd.kv.Keys == {cfg.newToken};
        forall o | o in st'.workers
          ensures WorkerInv(st'.etcd, st'.workers[o], cfg, source, origin)
        {
          if o != step.who {
            assert WorkerInv(st.etcd, st.workers[o], cfg, source, origin);
          }
        }
      }
    }
  }

  lemma {:induction false} RunKeepsInv(st: State, steps: seq<Step>, cfg: Config, source: Token, origin: Version<Blob>, plain: string)
    requires Inv(st, cfg, source, origin, plain) && IsRun(st, steps, cfg) && (!cfg.checkEmpty || cfg.newToken != "")
    ensures Inv(After(st, steps, cfg), cfg, source, origin, plain)
    decreases |steps|
  {
    if steps != [] {
      StepKeepsInv(st, steps[0], cfg, source, origin, plain);
      RunKeepsInv(Apply(st, steps[0], cfg), steps[1..], cfg, source, origin, plain);
    }
  }

  /** Undisturbed, a pass lists, creates and deletes, and ends with only the new key. */
  lemma UndisturbedPassEnds(st: State, who: WorkerId, cfg: Config, source: Token, plain: string)
    requires Initial(st, cfg, source, plain) && (!cfg.checkEmpty || cfg.newToken != "")
    ensures var steps := [Start(who), Call(who, [source]), Call(who, []), Call(who, [])];
            && IsRun(st, steps, cfg)
            && (var end := After(st, steps, cfg);
                && who in end.workers && end.workers[who] == Done(false) && end.etcd.kv.Keys == {cfg.newToken}
                && Decrypt(cfg.newToken, end.etcd.kv[cfg.newToken].data) == Some(plain))
  {
    var list, next := Call(who, [source]), Call(who, []);
    var s1 := Apply(st, Start(who), cfg);
    assert IsListing(s1.etcd, "", [source]);
    ListingWithSource(s1.etcd, [source], cfg, source);
    var s2 := Apply(s1, list, cfg);
    CreateAndDelete(s2, who, cfg, source, st.etcd.kv[source], plain);
    StepThenRun(s1, list, [next, next], cfg);
    StepThenRun(st, Start(who), [list, next, next], cfg);
    assert [list] + [next, next] == [list, next, next] && [Start(who)] + [list, next, next] == [Start(who), list, next, next];
  }

  lemma CreateAndDelete(st: State, who: WorkerId, cfg: Config, source: Token, seen: Version<Blob>, plain: string)
    requires Revisioned(st.etcd) && source != cfg.newToken && st.etcd.kv == map[source := seen] && Decrypt(source, seen.data) == Some(plain)
    requires who in st.workers && st.workers[who] == Creating([(source, seen)], false)
    ensures var steps := [Call(who, []), Call(who, [])];
            && IsRun(st, steps, cfg)
            && (var end := After(st, steps, cfg);
                && who in end.workers && end.workers[who] == Done(false) && end.etcd.kv.Keys == {cfg.newToken}
                && Decrypt(cfg.newToken, end.etcd.kv[cfg.newToken].data) == Some(plain))
  {
    var next := Call(who, []);
    var s1 := Apply(st, next, cfg);
    assert s1.workers[who] == Deleting([(source, seen)], false);
    var s2 := Apply(s1, next, cfg);
    StepThenRun(s1, next, [], cfg);
    StepThenRun(st, next, [next], cfg);
    assert [next] + [next] == [next, next];
  }

  lemma StepThenRun(st: State, step: Step, rest: seq<Step>, cfg: Config)
    requires Enabled(st, step) && IsRun(Apply(st, step, cfg), rest, cfg)
    ensures IsRun(st, [step] + rest, cfg) && After(st, [step] + rest, cfg) == After(Apply(st, step, cfg), rest, cfg)
  {
    assert ([step] + rest)[1..] == rest;
  }

  /**
   MAIN: with any number of racing servers, whichever of them stop for good after any call, and
   whichever create calls are refused or delete calls fail, the plaintext stays readable under the old
   or the new token; a pass that ends without leaving a value alone leaves only the new key, holding
   the same plaintext.
   */
  lemma MigrationIsNonDestructive(st: State, steps: seq<Step>, cfg: Config, source: Token, plain: string)
    requires Initial(st, cfg, source, plain) && IsRun(st, steps, cfg) && (!cfg.checkEmpty || cfg.newToken != "")
    ensures var end := After(st, steps, cfg);
            && Recoverable(end.etcd, source, cfg.newToken, plain)
            && forall w | w in end.workers && end.workers[w] == Done(false) ::
                 end.etcd.kv.Keys == {cfg.newToken} && Decrypt(cfg.newToken, end.etcd.kv[cfg.newToken].data) == Some(plain)
  {
    var origin := st.etcd.kv[source];
    RunKeepsInv(st, steps, cfg, source, origin, plain);
    var end := After(st, steps, cfg);
    var k :| k in end.etcd.kv;
    forall w | w in end.workers && end.workers[w] == Done(false)
      ensures end.etcd.kv.Keys == {cfg.newToken}
    {
      assert WorkerInv(end.etcd, end.workers[w], cfg, source, origin);
    }
  }
}
