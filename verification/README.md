# Verification models for k8e

Dafny models of the six stateful cores of the repository, and proofs of what they keep over whole runs.
etcd, the Kubernetes API, the file system and the cryptography are replaced by small abstract models;
the control logic follows the Go code branch by branch.

`dafny verify dfyconfig.toml` checks everything.

## The models and their main results

**Secrets-encryption key rotation** (`EncryptionProtocol`, `EncryptionSafety`, `EncryptionLoads`,
`EncryptionScans`, `EncryptionWaits`, `EncryptionDrops`, `EncryptionCycle`, `EncryptionKeys`). A state machine over any number of servers: key list on disk, key list loaded by the
apiserver, hash file, node annotation, the copy in the datastore, and secrets stored under keys. `Apply` and
`Enabled` are the steps of pkg/server/secrets-encrypt.go:204-286 and 350-441, an apiserver reload, and the
restart of pkg/server/server.go:669-674; each write of a request is a step of its own and other servers' steps
may come between. `EverySecretStaysReadable` and `DroppedKeyIsUnused` hold over every run. `CycleRuns` and `CyclesRun` are the other side: from every cluster between rotations the whole cycle
is accepted, again and again. The safety proof is an
inductive invariant with two phases: `Settled` (everybody holds a core list, plus at most one extra key) and
`Rotating` (everybody holds the same keys in one of two orders). Assumptions, all explicit in the model:

- every control-plane node carries an annotation;
- the guard of a stage request and its first write are atomic, and a server handles one request at a time;
- a request whose later writes fail leaves its server busy until that server restarts, and a restart (copying
  configuration and hash file from the datastore, loading them, setting the annotation) is one step;
- new keys are fresh, and a configuration hash stands for the key list;
- before rotate and reencrypt are requested, every apiserver has loaded its file. The code checks annotations
  only, and each of the two waits is needed. For each there is the exact condition under which skipping it is
  safe through every later run, with whatever clients write: `RotationSafeEverExactlyWhen` (every apiserver
  has loaded the prepared key, or there is one server) and `ReencryptSafeEverExactlyWhen` (every
  apiserver writes with a key other than the one to be dropped). `HastyRotationLosesSecret` and
  `HastyReencryptLosesSecret` are runs that do not wait.

**Layer store** (`LayerStore`, `SnapshotRuns`). Chunking, deduplication, manifests as leases, autosquash and
garbage collection over maps from file name to content. `Codec` is arbitrary; the store assumes
that decompressing undoes compressing, and that digests are collision-free on a universe that holds every slice
of every saved payload. `SnapshotsSurvive` covers every run of saves, manifest deletions and collections. GC
walks listings that succeed; layer removals may fail (`stuck`).
Saving a snapshot is two calls: `CollectBetweenPutAndSave` gives the exact condition under which a collection
by another process in between does no harm.

**Bootstrap key and token migration** (`EtcdStorage`, `BootstrapLock`, `BootstrapProgress`,
`TokenMigration`, `TokenFormat`). The
datastore is a map from key to data and modification revision, with a global revision. `BootstrapLock`
interleaves any number of servers on one token, call by call, with crashes and restarts between any two calls and saves repeated after a failure.
`BootstrapProgress` shows what a server achieves by its own calls, such as taking over a lock left behind after five polls and not before. "First writer wins" is not claimed: a save decides to overwrite before it reads the revision that it then
overwrites. `TokenMigration` interleaves racing migration passes, each of which may stop for good after any call, and whose
calls may be refused or fail.
Storage keys are injective in the token, so a key is written as its token; sealed data opens with its own token
only. Migration is non-destructive when the new key was absent at the start. When it was not,
`MigrationSafeExactlyWhen` says exactly when the data survives: the existing new key is kept and the old one
deleted, so an empty lock under the new token loses the old data (`LockUnderNewTokenLosesData`).

**Client load balancer** (`StringOrder`, `LoadBalancer`, `EtcdProxy`, `RotationRace`). The class keeps the
fields of the Go struct; `shuffle` is whatever permutation the random shuffle applies. The dial loop is proved
for one dialler against `Dialled`: first healthy accepting server, else first accepting one, else an error with
the rotation where it began. `RotationRace` splits `nextServer` into its unlocked reads and writes and proves index and
membership safety for every interleaving; index and current
server can part for good as soon as the list has two entries (`StayTogetherExactlyWhen`).

**Reconcilers** (`SnapshotRecords`, `BootstrapFiles`, `LearnerProgress`). Snapshot records converge in one
error-free pass, and a second pass is idle; the pruning that follows undoes this exactly when this node has
local snapshots and is not labelled as an etcd node (`PruneKeepsRecordsExactlyWhen`). Bootstrap files: stop
with the disk untouched, or end with every known path equal to the datastore. Learner progress: the record's
timestamp is stored with whole seconds, so a learner can be evicted up to one second before
five minutes without growth have passed; `EvictedExactlyWhen` is the exact rule and `GrowthWithinFiveMinutesCanFail` an instance.

**Warm pools** (`WarmPool`). One pass over the pools ends where a single pool with the largest target would, in any
pool order, within the shared cap. Capacity arithmetic is 64-bit. A capacity of 0 counts as
unknown, so `computeMaxPods` is the largest fitting number exactly when both resources admit a pod or neither
does (`MaxPodsIsLargestExactlyWhen`).

## Model

| member | source | states |
|---|---|---|
| EncryptionProtocol.RightRotated | pkg/server/secrets-encrypt.go:248 | rotating keeps the number of keys and every key with its multiplicity |
| EncryptionSafety.EverySecretStaysReadable | pkg/server/secrets-encrypt.go:204-286 | over every run of prepare, rotate, reencrypt, skip, restart, reload and secret writes, on any number of servers, every server can decrypt every stored secret |
| EncryptionSafety.DroppedKeyIsUnused | pkg/server/secrets-encrypt.go:350-441 | when a scan has gone through its list, every secret, also those written meanwhile and those whose update conflicted, is under the first key, and every server has loaded that list: the key about to be dropped is needed by none |
| EncryptionSafety.AcceptedRotationHasTwoKeys | pkg/server/secrets-encrypt.go:247-248 | whenever a rotate or reencrypt guard passes the list has two keys, so the slice expressions never see an empty one |
| EncryptionSafety.StepKeepsInv | pkg/server/secrets-encrypt.go:204-441 | each single write of any server keeps the two-phase invariant |
| EncryptionSafety.RunKeepsInv | pkg/server/secrets-encrypt.go:204-441 | so does every run |
| EncryptionSafety.RotateGuardMeans | pkg/server/secrets-encrypt.go:237-240 | an accepted rotate guard implies that every server is idle with the same prepared list, and that the datastore holds it, though only annotations are compared |
| EncryptionSafety.ReencryptGuardMeans | pkg/server/secrets-encrypt.go:268-271 | an accepted reencrypt guard implies one rotated list of two or more keys on every disk and in the datastore |
| EncryptionSafety.ScanBlocksRequests | pkg/server/secrets-encrypt.go:272-284 | no prepare, rotate or second reencrypt is accepted anywhere while a scan runs |
| EncryptionSafety.SettledDrop | pkg/server/secrets-encrypt.go:369-390 | dropping the last key after a complete scan gives back the common core list |
| EncryptionSafety.RotatingDrop | pkg/server/secrets-encrypt.go:369-390 | dropping the old key while others may still hold either order makes the rest of the rotated list the new core of all servers |
| EncryptionSafety.SettledRestart | pkg/server/server.go:669-674 | a server restarted from the datastore copy rejoins the cluster's phase |
| EncryptionSafety.ScanSurvivesUpdate | pkg/server/secrets-encrypt.go:417-436 | one update call, conflicting or not, leaves each secret under the write key or still to be updated at its present revision |
| EncryptionLoads.RotationSafeExactlyWhenLoaded | pkg/server/secrets-encrypt.go:237-252 | in every reachable state that accepts a rotate, the first secret written with the new key is readable everywhere if and only if every other apiserver has loaded that key |
| EncryptionWaits.RotationSafeEverExactlyWhen | pkg/server/secrets-encrypt.go:237-252 | in every reachable state that accepts a rotate without waiting, all later waiting runs keep every secret readable if and only if every apiserver has loaded the prepared key or there is one server only |
| EncryptionWaits.HeldRotationKeepsInv | pkg/server/secrets-encrypt.go:237-252 | a rotate accepted once all apiservers hold the key keeps the invariant, also when some have not loaded their latest file |
| EncryptionWaits.OtherIsBehind | pkg/server/secrets-encrypt.go:237-252 | another apiserver without the key always has a run that leaves it a secret it cannot read |
| EncryptionWaits.RotatorIsBehind | pkg/server/secrets-encrypt.go:248-265 | so has the rotating server itself, once another one restarts from what it published |
| EncryptionWaits.BehindRunSafe | pkg/server/secrets-encrypt.go:237-441 | a lone server that rotates before it has loaded the key stays able to read everything through every run |
| EncryptionWaits.RunKeepsFresh | pkg/server/secrets-encrypt.go:204-235 | over every run, a list noted as prepared ends with a key that does not occur before |
| EncryptionDrops.ReencryptSafeEverExactlyWhen | pkg/server/secrets-encrypt.go:268-390 | in every reachable state that accepts a reencrypt without waiting, all later waiting runs, with any client writes during the scan, keep every secret readable if and only if every apiserver has first loaded a key that is not the last one of the file |
| EncryptionDrops.HeldStep | pkg/server/secrets-encrypt.go:268-441 | every step during such a scan keeps all secrets readable and every one either under a key that stays or still to be updated, or ends the scan with the drop, or finds everyone caught up |
| EncryptionDrops.HeldDrop | pkg/server/secrets-encrypt.go:369-390 | the drop at its end leaves all secrets under keys that every apiserver holds, though some still have older lists |
| EncryptionDrops.LaggingStep | pkg/server/secrets-encrypt.go:204-441 | every later step keeps that, until a waiting request finds everyone caught up and the ordinary invariant is back |
| EncryptionDrops.LaggardSpoils | pkg/server/secrets-encrypt.go:394-441 | an apiserver that still writes with the key to be dropped always has a run, of one write after the scan, that loses a secret |
| EncryptionScans.ReencryptSafeExactlyWhen | pkg/server/secrets-encrypt.go:268-390 | one scan that nothing disturbs, through given apiservers: it leaves all secrets readable if and only if each of those had first loaded a key that is not dropped |
| EncryptionScans.UpdatesEffect | pkg/server/secrets-encrypt.go:394-441 | the updates of an undisturbed scan are a run for every order and choice of apiservers, and leave each secret under the first key its apiserver had loaded and all else as it was |
| EncryptionScans.WriteKeyIsShared | pkg/server/secrets-encrypt.go:204-286 | in every state of the invariant, what one apiserver would write with now, every apiserver can decrypt |
| EncryptionScans.HastyReencryptLosesSecret | pkg/server/secrets-encrypt.go:268-284 | a run that waits at rotate but not at reencrypt, after which the only server cannot read its secret |
| EncryptionLoads.HastyRotationLosesSecret | pkg/server/secrets-encrypt.go:506-546 | a run the annotation guard lets through without waiting for loads that leaves a secret one server cannot decrypt |
| EncryptionCycle.CycleRuns | pkg/server/secrets-encrypt.go:204-441 | from every cluster between rotations, with any number of servers, any new key and any apiservers handling the updates, prepare, rotate and reencrypt with their writes, restarts and reloads is a run that every guard accepts; it ends between rotations with the new key first, the oldest gone, and every secret under the new key |
| EncryptionCycle.CyclesRun | pkg/server/secrets-encrypt.go:204-441 | any number of such cycles is a run, and the cluster's key list is then that of as many cycles on the list alone |
| EncryptionCycle.PrepareRuns | pkg/server/secrets-encrypt.go:204-235 | a prepare is accepted after start and after a finished reencryption, and once all servers have caught up they hold the list with the new key last |
| EncryptionCycle.RotateRuns | pkg/server/secrets-encrypt.go:237-266 | a rotate is accepted on the prepared list and ends with the new key first everywhere |
| EncryptionCycle.ReencryptRuns | pkg/server/secrets-encrypt.go:268-392 | a reencrypt is accepted on the rotated list, rewrites every secret under the first key and ends with the last one dropped everywhere |
| EncryptionCycle.SkippedReencryptRuns | pkg/server/secrets-encrypt.go:355-367 | with skip it rewrites every secret and ends at the rotated stage again, with the list unchanged |
| EncryptionCycle.CatchUpRuns | pkg/server/server.go:669-674 | restarts from the datastore copy, in any order, bring every server to the saved list and note |
| EncryptionCycle.SecretsAreSpared | pkg/server/secrets-encrypt.go:417-436 | in every state, a stored secret changes or goes only by a client's step on it, or by an update that finds it at the revision it was listed with |
| EncryptionCycle.StepsAreLocal | pkg/server/secrets-encrypt.go:204-392 | every step leaves all other servers as they are, and only the last write of a request changes the datastore copy |
| EncryptionCycle.NewClusterIsInitial | pkg/secretsencrypt/config.go:178-187 | a new cluster of any servers with any keys is ready for a rotation |
| EncryptionKeys.VerifyHashAnnotation | pkg/server/secrets-encrypt.go:506-546 | which of the five outcomes the annotation check gives, each with its exact condition; nodes without annotation are skipped |
| EncryptionKeys.AgreementIsTheGuard | pkg/server/secrets-encrypt.go:506-546 | in any listing order of fully annotated nodes, that check is the guard used by the protocol |
| EncryptionKeys.RotateSlice | pkg/server/secrets-encrypt.go:248 | append-based rotation of a slice gives last-then-rest for every backing-array capacity, whether append copies in place or allocates, and leaves the original slice intact |
| EncryptionKeys.AddAndRotate | pkg/server/secrets-encrypt.go:288-307 | the two lists rotate_keys writes, the second with the new key first |
| EncryptionKeys.RotateKeysMatchesStages | pkg/server/secrets-encrypt.go:288-307 | rotate_keys ends with the key list of prepare, rotate, reencrypt, for every starting list and key |
| EncryptionKeys.CyclesKeepNewest | pkg/server/secrets-encrypt.go:369-379 | any number of cycles keeps the key count with the newest keys first; after as many cycles as keys no original key is left |
| LayerStore.Store.constructor | pkg/sandboxlayer/layerstore.go:29-41 | a store opened on a new directory is empty and sound |
| LayerStore.Store.Put | pkg/sandboxlayer/layerstore.go:54-90 | stores new content under its digest, leaves a present digest alone, and the layer decompresses to the content either way |
| LayerStore.Store.PutEachChunk | pkg/sandboxlayer/layerstore.go:99-112 | the chunking loop stores exactly the chunks in order and returns their digests |
| LayerStore.Store.PutChunks | pkg/sandboxlayer/layerstore.go:95-122 | for any content, also empty, and any chunk size, also zero or negative, the returned digests assemble to the content, their layers hold chunkSize bytes each (4 MiB if not given), the last at most that, and no existing layer changes |
| LayerStore.Store.Assemble | pkg/sandboxlayer/layerstore.go:124-134 | the concatenated layers, or an error when one is missing |
| LayerStore.Store.Squash | pkg/sandboxlayer/layerstore.go:331-345 | stores the assembled bytes as one layer; fails without change exactly when a layer is missing |
| LayerStore.Store.SaveManifest | pkg/sandboxlayer/layerstore.go:164-195 | succeeds exactly when no squash is needed or it succeeds; the saved list has at most 32 layers and assembles to the same bytes; no other manifest changes |
| LayerStore.Store.DeleteManifest | pkg/sandboxlayer/layerstore.go:211-213 | releases the one lease |
| LayerStore.Store.ReferencedLayers | pkg/sandboxlayer/layerstore.go:274-302 | exactly the digests leased by the manifests that the listing leads to |
| LayerStore.Store.GC | pkg/sandboxlayer/layerstore.go:250-271 | leaves exactly the referenced layers and those whose removal failed; size before is size after plus the bytes returned |
| LayerStore.Store.SizeBytes | pkg/sandboxlayer/layerstore.go:305-317 | the total size, in whatever order the directory is walked |
| LayerStore.ChunksRoundTrip | pkg/sandboxlayer/layerstore.go:95-134 | assembling what PutChunks stored gives the content back, for every chunk size and every earlier store content |
| LayerStore.StoredChunkSizes | pkg/sandboxlayer/layerstore.go:95-112 | the layers of a content hold exactly chunkSize bytes each, 4 MiB if none is given, the last one at most that |
| LayerStore.ChunkSizes | pkg/sandboxlayer/layerstore.go:95-112 | chunk sizes and, from them, the number of chunks |
| LayerStore.AssembledFrame | pkg/sandboxlayer/layerstore.go:124-134 | assembling depends on the listed layers only |
| LayerStore.AssembledWhenPresent | pkg/sandboxlayer/layerstore.go:124-134 | assembling succeeds exactly when every listed layer is there |
| LayerStore.DeltaSuffices | pkg/sandboxlayer/layerstore.go:230-246 | a store with the base's layers plus the delta assembles the target exactly, and the delta holds nothing the base lists |
| LayerStore.MissingCovers | pkg/sandboxlayer/layerstore.go:234-246 | the delta lists a digest exactly when the target does and the base does not |
| LayerStore.MissingIsFilter | pkg/sandboxlayer/layerstore.go:234-246 | the delta keeps the order and the repetitions of the target |
| LayerStore.Delta | pkg/sandboxlayer/layerstore.go:234-246 | the loop over a present-set computes that delta, in target order |
| LayerStore.TotalSizeSplit | pkg/sandboxlayer/layerstore.go:305-317 | the total does not depend on the order in which layers are counted |
| LayerStore.SizeOfFew | pkg/sandboxlayer/layerstore.go:305-317 | an empty store has size 0 and a single layer its own |
| LayerStore.ReferencedIsUnion | pkg/sandboxlayer/layerstore.go:274-302 | for manifests saved under a name, a digest is referenced exactly when some manifest lists it |
| LayerStore.TrimExtWithoutDot | pkg/sandboxlayer/layerstore.go:347-354 | a name without a dot is left as it is |
| LayerStore.TrimExtInverts | pkg/sandboxlayer/layerstore.go:216-228 | a listed manifest file leads back to the name it was saved under, whatever dots that name has |
| LayerStore.TrimExtension | pkg/sandboxlayer/layerstore.go:347-354 | the backward scan cuts at the last dot |
| SnapshotRuns.SaveStores | pkg/sandboxcli/snapshot.go:56-72 | a save leaves a list of 1 to 32 digests that assembles to the payload and disturbs no stored layer |
| SnapshotRuns.SavedLayerCount | pkg/sandboxcli/snapshot.go:56-72 | a payload above 128 MiB is saved as one layer, any other as one for each 4 MiB begun |
| SnapshotRuns.SnapshotsSurvive | pkg/sandboxcli/snapshot.go:56-91 | over every run of saves, manifest deletions and collections, each snapshot still saved assembles to exactly the bytes last saved under its name |
| SnapshotRuns.CollectLeavesLeased | pkg/sandboxlayer/layerstore.go:250-271 | a collection leaves exactly the leased layers that were there, and a second one finds nothing to do |
| SnapshotRuns.CollectBetweenPutAndSave | pkg/sandboxcli/snapshot.go:56-72 | a collection between PutChunks and SaveManifest is harmless if and only if other manifests lease all the chunks |
| SnapshotRuns.StoreSnapshot | pkg/sandboxcli/snapshot.go:56-72 | the two store calls have the effect of one save event, and succeed |
| SnapshotRuns.ReadSnapshot | pkg/sandboxcli/snapshot.go:80-91 | falls back exactly when the manifest is absent or lists nothing, fails exactly when a listed layer is missing, and assembles the manifest otherwise |
| SnapshotRuns.RemoveSnapshot | pkg/sandboxcli/snapshot.go:381-391 | deleting the manifest and then collecting has the effect of those two events; freed bytes are accounted for |
| EtcdStorage.Client.List | pkg/etcdstorage/client.go:58-74 | every value under the prefix, each once with its revision, and no other, in response order |
| EtcdStorage.Client.Create | pkg/etcdstorage/client.go:93-105 | writes exactly when the key is absent: the key then holds the data at the next revision; otherwise nothing changes; every other key keeps its version |
| EtcdStorage.Client.Update | pkg/etcdstorage/client.go:107-120 | writes exactly when the revision is still the given one: the key then holds the data at the next revision; otherwise nothing changes; every other key keeps its version |
| EtcdStorage.Client.Delete | pkg/etcdstorage/client.go:122-135 | removes exactly when the revision is still the given one; otherwise nothing changes; every other key keeps its version |
| EtcdStorage.WritesLeaveOthers | pkg/etcdstorage/client.go:93-135 | no write adds, changes or removes another key |
| EtcdStorage.WritesKeepPinned | pkg/etcdstorage/client.go:93-135 | whatever is written in between, a key that still has the revision that was read holds what was read |
| BootstrapLock.DataIsNeverLost | pkg/cluster/storage.go:98-236 | with any number of servers interleaved call by call, crashing and restarting, a bootstrap key that holds data never becomes empty or absent |
| BootstrapLock.WantsSaveOnlyWithOwnLock | pkg/cluster/storage.go:152-236 | a server leaves storageBootstrap wanting to save only if its own create made the lock |
| BootstrapLock.DeleteOnlyRemovesLock | pkg/cluster/storage.go:186-233 | a delete that takes effect removes an empty lock that this server saw at that very revision |
| BootstrapProgress.LockTimesOut | pkg/cluster/storage.go:186-222 | in every reachable state with a lock left behind, a polling server left to itself deletes exactly that lock after at most five polls and ends with a lock of its own, wanting to save |
| BootstrapProgress.NoDeleteBeforeFivePolls | pkg/cluster/storage.go:211-219 | in every run, with any interference, a server about to delete a lock has polled at least five times since it began counting |
| BootstrapProgress.StartEnds | pkg/cluster/storage.go:186-233 | an undisturbed start takes the lock on a free key within two calls, and on a key with data joins within four without touching it or wanting to save |
| BootstrapProgress.SaveEnds | pkg/cluster/storage.go:98-129 | an undisturbed save succeeds within five calls; it writes its payload when the key is free, locked or to be overwritten, and otherwise leaves the data |
| BootstrapLock.SuccessfulSaveLeavesData | pkg/cluster/storage.go:98-129 | a whole save, with any other servers' calls in between, that ends without an error either ends in the call that put its payload under the key, or was not asked to overwrite, found the key taken and left it |
| BootstrapLock.SaveGoesOn | pkg/cluster/storage.go:98-129 | through every run, a save that was asked to overwrite never forgets that |
| BootstrapLock.CallKeepsServerInv | pkg/cluster/storage.go:98-236 | no call of one server breaks what another server relies on |
| TokenMigration.DoMigrateToken | pkg/cluster/storage.go:315-346 | the create-then-conditional-delete effect on the datastore; an error exactly when the value cannot be decrypted |
| TokenMigration.MigrateTokens | pkg/cluster/storage.go:291-310 | the loop migrates the matching listed values in order up to the first that cannot be decrypted, and succeeds exactly when there is none; then, for a current listing, no migrated key is left, a new key that was there is kept and otherwise the first migrated plaintext opens under it, and no other key changes |
| TokenMigration.PassMoves | pkg/cluster/storage.go:291-346 | that effect of a whole pass, for every store, current listing and pair of tokens |
| TokenMigration.UndisturbedPassEnds | pkg/cluster/storage.go:291-346 | a pass that nobody disturbs ends with only the new key, holding the plaintext |
| TokenMigration.MigrationSafeExactlyWhen | pkg/cluster/storage.go:315-346 | an uninterrupted migration keeps the plaintext readable if and only if the new key was absent or already held it |
| TokenMigration.LockUnderNewTokenLosesData | pkg/cluster/storage.go:326-344 | an empty lock already under the new token costs the data of the old one |
| TokenMigration.MigrationIsNonDestructive | pkg/cluster/storage.go:291-346 | from an absent new key, with any number of racing servers that may each stop after any call, and whichever create calls a learner refuses or delete calls fail, the plaintext is readable under the old or new token; a pass that ended without leaving a value alone leaves only the new key with that plaintext |
| TokenFormat.Index | pkg/passwd/passwd.go:65 | the first occurrence of a substring, or -1 exactly when there is none |
| TokenFormat.ParseToken | pkg/clientaccess/token.go:188-236 | the rewriting steps compute the parse function that the token laws are about |
| TokenFormat.TokenRoundTrip | pkg/clientaccess/token.go:516-527 | a formatted token parses back to digest, user and password if and only if the user has no colon and the password is not empty |
| TokenFormat.DigestLengthIsChecked | pkg/clientaccess/token.go:210-218 | for well-formed credentials and any digest without a colon, the printed token is accepted with 0 or 64 digits and refused for its length otherwise |
| TokenFormat.PlainTokens | pkg/clientaccess/token.go:204-233 | a prefixed token without a double colon has no digest, and is accepted exactly when a colon has something behind it |
| TokenFormat.BootstrapShape | pkg/clientaccess/token.go:220-222 | which strings count as bootstrap tokens, character by character |
| TokenFormat.PrintedAgainParsesAlike | pkg/clientaccess/token.go:84-91 | any accepted token, bootstrap tokens included, printed again with a CA digest is accepted with the same credentials |
| TokenFormat.ParsedCredsAreWellFormed | pkg/clientaccess/token.go:220-233 | parsed credentials print to the very text they were parsed from |
| TokenFormat.NormalizeKeepsExactly | pkg/util/token.go:49-56 | a token normalises to itself if and only if it is not empty, has no K10 prefix and no bootstrap-token shape |
| TokenFormat.FileAndConfigAgreeExactlyWhen | pkg/util/token.go:49-70 | the formatted file token always normalises to its password; the bare password gives the same passphrase if and only if it neither starts with K10 nor has bootstrap-token shape |
| TokenFormat.StrippingAgreesExactlyWhen | pkg/passwd/passwd.go:63-68 | for every token with a user and a password, EnsureUser's own stripping agrees with the parser if and only if the token has no K10 prefix or has a double colon |
| TokenFormat.TableHoldsPassphrase | pkg/passwd/passwd.go:63-100 | after EnsureUser with a formatted token the table holds the passphrase of the storage key; repeating it changes nothing |
| TokenFormat.EmptyPasswordKeeps | pkg/passwd/passwd.go:70-98 | an empty password keeps a known user's, gives a new user the random one, and leaves other users alone |
| TokenFormat.Passwd.EnsureUser | pkg/passwd/passwd.go:63-100 | the table afterwards, and that the changed flag is raised exactly when the table differs |
| LoadBalancer.SortServers | pkg/agent/loadbalancer/utility.go:31-49 | sorted, free of duplicates and empty entries, with exactly the other input entries; tells whether the searched one is among them |
| StringOrder.LessAtFirstDifference | pkg/agent/loadbalancer/utility.go:47 | the order of the list: the first different character decides, and a prefix comes first |
| LoadBalancer.LoadBalancer.constructor | pkg/agent/loadbalancer/loadbalancer.go:95-107 | a new load balancer is valid and lists exactly the default server, healthy and current, or nothing if that is empty |
| LoadBalancer.LoadBalancer.SetServers | pkg/agent/loadbalancer/servers.go:65-125 | changes something exactly when the cleaned list is non-empty and differs as a set; then the list has the cleaned entries, new servers count as healthy, those that stay keep their check and others go unless they are the default; the current server is listed, every listed one is in the rotation, and an unlisted default is its last entry |
| LoadBalancer.LoadBalancer.SetDefault | pkg/agent/loadbalancer/servers.go:216-240 | the server map afterwards; the invariants hold for the new default |
| LoadBalancer.LoadBalancer.SetHealthCheck | pkg/agent/loadbalancer/servers.go:244-255 | replaces the one check of a server in the map, ignores other addresses, and keeps the invariants unless the address is an unlisted default |
| LoadBalancer.LoadBalancer.NextServer | pkg/agent/loadbalancer/servers.go:132-160 | moves one place on, with wrap-around, exactly when the failed server is the current one of several |
| LoadBalancer.LoadBalancer.DialContext | pkg/agent/loadbalancer/loadbalancer.go:159-210 | ends within 2n attempts with the first healthy accepting server from the current one on, else the first accepting one, else an error with the rotation back where it was |
| LoadBalancer.LoadBalancer.Dial | pkg/agent/loadbalancer/loadbalancer.go:159-210 | the loop with startIndex and allChecksFailed is two passes over the rotation |
| LoadBalancer.TwoPassesChoose | pkg/agent/loadbalancer/loadbalancer.go:159-210 | those two passes choose the first healthy accepting, else the first accepting server, with exact attempt counts |
| LoadBalancer.DialledBounds | pkg/agent/loadbalancer/loadbalancer.go:159-210 | at most 2n attempts; failure exactly when no entry accepts |
| LoadBalancer.DefaultIsLastResort | pkg/agent/loadbalancer/servers.go:101-115 | an unlisted default is not dialled while some listed server is healthy and accepting |
| LoadBalancer.UnlistedDefaultIsLastResort | pkg/agent/loadbalancer/servers.go:107-121 | a dial right after the list was set ends at an unlisted default only if no listed server accepts, healthy or not |
| LoadBalancer.UnlistedDefaultIsLast | pkg/agent/loadbalancer/servers.go:107-121 | the rotation is the listed servers, all of them, and then the unlisted default |
| LoadBalancer.ChangeChecks | pkg/agent/loadbalancer/servers.go:75-117 | which check every server of the map has after a list change |
| LoadBalancer.ChangeKeepsConsistent | pkg/agent/loadbalancer/servers.go:65-125 | a list change keeps the map between the list and the list plus default, an unlisted default failing, and the checks of servers that stay |
| LoadBalancer.DefaultKeepsConsistent | pkg/agent/loadbalancer/servers.go:216-240 | so does a change of default, which is in the map afterwards |
| LoadBalancer.RunKeepsTable | pkg/agent/loadbalancer/servers.go:65-255 | over any run of list, default and check changes that containment holds, and a server listed throughout has the health check last set for it |
| EtcdProxy.Proxy.Update | pkg/etcd/etcdproxy.go:77-106 | afterwards the disconnect keys are exactly the server addresses; servers new to it are probed, others keep their check |
| EtcdProxy.Proxy.StartRoutines | pkg/etcd/etcdproxy.go:84-91 | every address without a routine gets one and its probe |
| EtcdProxy.Proxy.StopRoutines | pkg/etcd/etcdproxy.go:93-105 | only routines of valid endpoints are left |
| RotationRace.StayTogetherExactlyWhen | pkg/agent/loadbalancer/servers.go:132-160 | for the different entries that setServers leaves: whenever all concurrent calls have returned, the index points just behind the current server, in every run, if and only if the list has one entry |
| RotationRace.IndexAndCurrentCanPart | pkg/agent/loadbalancer/servers.go:132-160 | the run of three calls that parts them on any list of two or more entries |
| LoadBalancer.RotationDistinct | pkg/agent/loadbalancer/servers.go:101-116 | the rotation has no entry twice, the default included |
| RotationRace.RaceKeepsMembership | pkg/agent/loadbalancer/servers.go:132-160 | under every interleaving of the unlocked reads and writes the subscript is in range and the current server is in the list |
| SnapshotRecords.Cluster.SyncSnapshotFile | pkg/etcd/snapshot.go:756-778 | a matched record claims its file; an unmatched one goes exactly when it is not retained |
| SnapshotRecords.Cluster.CreateMissingSnapshotFiles | pkg/etcd/snapshot.go:782-789 | writes a record for each file left and touches no other |
| SnapshotRecords.Cluster.SyncWithStorages | pkg/etcd/snapshot.go:864-880 | the two loops, in any listing order, give the records that the convergence laws are about |
| SnapshotRecords.Cluster.ReconcileSnapshotData | pkg/etcd/snapshot.go:830-916 | the pass, and after it the pruning except on agentless servers |
| SnapshotRecords.Cluster.PruneOrphaned | pkg/etcd/snapshot.go:888-916 | deleting the listed orphans one by one, in any order, leaves exactly the records stored on S3 or on a current etcd node, unchanged |
| SnapshotRecords.PassConverges | pkg/etcd/snapshot.go:735-789 | after an error-free pass each snapshot has its record, every other record of these storages satisfies the retention rule, and records of other storages are left |
| SnapshotRecords.RetainedSurvive | pkg/etcd/snapshot.go:756-778 | records of other storages, matched records and retained records all stay, matched ones unchanged |
| SnapshotRecords.FailedSnapshotIsKeptADay | pkg/etcd/snapshot.go:735-753 | the record of a failed snapshot carries the time of the failure and is retained for the day after it, not longer and not once deleted |
| SnapshotRecords.NewRecordIsKeptAMinute | pkg/etcd/snapshot.go:735-753 | a new record without error is retained exactly for a minute and on S3 |
| SnapshotRecords.RewrittenRecordKeeps | pkg/etcd/snapshot.go:602-645 | a rewritten record keeps its creation time and an error that no newer one replaces |
| SnapshotRecords.SecondPassIsIdle | pkg/etcd/snapshot.go:840-880 | a second pass at the same time creates, deletes and changes nothing |
| SnapshotRecords.PruneKeepsRecordsExactlyWhen | pkg/etcd/snapshot.go:882-916 | the pruning after the pass (skipped on agentless servers) leaves every snapshot its record if and only if this node is labelled as an etcd node or has no local snapshots |
| BootstrapFiles.IsNewerFile | pkg/cluster/bootstrap.go:353-387 | whether the file differs, and whether it is newer by at least three seconds |
| BootstrapFiles.Server.WriteToDiskFromStorage | pkg/bootstrap/bootstrap.go:69-93 | every known path gets the stored file with its time; no other path changes |
| BootstrapFiles.Server.CompareWithDisk | pkg/cluster/bootstrap.go:305-327 | whether any known file differs, and exactly the conflicting paths |
| BootstrapFiles.Server.ReconcileBootstrapData | pkg/cluster/bootstrap.go:305-351 | how the run may end and what it leaves on disk |
| BootstrapFiles.StopsOrMatches | pkg/cluster/bootstrap.go:305-351 | without cluster reset it stops, disk untouched, if and only if a known differing file is at least three seconds newer on disk; otherwise every known path has the datastore's content |
| BootstrapFiles.ConflictBySkew | pkg/cluster/bootstrap.go:353-387 | a differing file is a conflict if it is at least three seconds younger on disk, and not if at most two; exactly, by whole seconds of both timestamps |
| BootstrapFiles.ResetOverwrites | pkg/cluster/bootstrap.go:328-351 | a cluster reset stops for nothing and leaves every known path with the datastore's file |
| BootstrapFiles.OtherPathsStay | pkg/bootstrap/bootstrap.go:75-79 | paths that no key of the datastore leads to, and the empty path, are never touched |
| BootstrapFiles.SecondRunIsIdle | pkg/cluster/bootstrap.go:305-351 | a second run stops as the first did, or writes nothing |
| LearnerProgress.Tracker.TrackLearnerProgress | pkg/etcd/etcd.go:1330-1380 | promotion, record update from the first reachable client URL, eviction, and the stored record |
| LearnerProgress.EvictedExactlyWhen | pkg/etcd/etcd.go:1330-1380 | over every run of ticks for a sole learner, it is evicted if and only if its last shown growth, rounded down to the second, is more than five minutes back |
| LearnerProgress.PromotedExactlyWhen | pkg/etcd/etcd.go:1330-1345 | a learner that can be promoted is, however long it stalled, and is evicted or tracked only otherwise |
| LearnerProgress.ReportedIsFirst | pkg/etcd/etcd.go:1350-1362 | the first client URL that answers is the one that counts |
| LearnerProgress.GrowingLearnerStays | pkg/etcd/etcd.go:1354-1376 | growth within five minutes less one second keeps it |
| LearnerProgress.EvictionNeedsStall | pkg/etcd/etcd.go:1354-1376 | an evicted member was the tracked one and showed no growth for more than five minutes less one second |
| LearnerProgress.GrowthWithinFiveMinutesCanFail | pkg/etcd/etcd.go:1463-1491 | a run evicted although it grew within five minutes |
| WarmPool.ComputeMaxPods | pkg/sandboxmatrix/controller.go:344-386 | sums node capacities with 64-bit wrap-around and combines the two bounds; 0 without nodes or capacity |
| WarmPool.TotalsAdd | pkg/sandboxmatrix/controller.go:358-371 | the totals count every node once |
| WarmPool.CapacityIsLargest | pkg/sandboxmatrix/controller.go:389-396 | short of overflow, n pods are within the capacity exactly when they fit 90% of the total |
| WarmPool.MaxPodsIsLargestExactlyWhen | pkg/sandboxmatrix/controller.go:389-406 | the combined number is the largest that fits both resources if and only if one pod fits both or one pod fits neither |
| WarmPool.AdaptiveTargetIsLeast | pkg/sandboxmatrix/controller.go:273-296 | an adaptive pool's target is at most every size covering demand, size (at least 1) and minimum, covers them itself if and only if some size up to the maximum does, and is the maximum otherwise; a pool whose maximum is not above its size keeps its size |
| WarmPool.PoolTargetIsLargest | pkg/sandboxmatrix/controller.go:299-311 | the target is the largest size within the configured one (at least 1) and the cap, so a configured size within the cap is the target itself |
| WarmPool.Pods.ReconcileSinglePool | pkg/sandboxmatrix/controller.go:227-268 | the create loop fills the shortfall within what the cap leaves |
| WarmPool.Pods.ReconcilePools | pkg/sandboxmatrix/controller.go:135-160 | the whole loop creates min of the largest target's shortfall and the room below the cap |
| WarmPool.PassCreates | pkg/sandboxmatrix/controller.go:146-148 | pool after pool, a pass ends where one pool with the largest target would |
| WarmPool.PassCreatesExactly | pkg/sandboxmatrix/controller.go:227-268 | the number of pods a pass creates: what the largest target is short of, and no more than the cap leaves |
| WarmPool.PassRespectsCapInAnyOrder | pkg/sandboxmatrix/controller.go:146-148 | the total never passes the cap unless it was above already, and pool order and repetition do not matter |
| WarmPool.WarmDemand.Observe | pkg/sandboxmatrix/controller.go:168-188 | new cold starts are added once; the estimate is forgotten after a quiet window |

## Left out

- Encryption: forced stages, enabling and disabling encryption, and crashes between a configuration write and its save; the identity provider.
- rotate_keys as a protocol on several servers: only its key list is modelled, since any reload after the first of its two writes ends its wait.
- Bootstrap lock: a server that starts without a token, and the retry of learners; one token is in use.
- TokenMigration.MigrateTokens: the deprecation warnings and the random token that tokenRotate may generate are not modelled.
- TokenRotate's order of effects (password table, token file, datastore, in-memory token): each part is modelled, its HTTP handler is not.
- Layer store: file-system failures other than failed layer removals, a failing manifest listing (which GC treats as nothing referenced), and manifest metadata.
- Load balancer: connections and their closing, context cancellation, and the health-check timer. Since the index and the current server can part in a race, `DialContext` is a single-dialler claim.
- LoadBalancer.LoadBalancer.SetHealthCheck: replacing the check of a default outside the list would end the promise that it fails its check; the proxy only sets checks of listed servers.
- Snapshot records: record names and key sanitising are arbitrary functions with distinct names per file; metadata, S3 settings, the legacy config map and failing API calls are absent.
- SnapshotRecords.PassConverges: assumes that a record carrying a file's name is of the file's kind, as generated names encode the storage.
- Bootstrap files: read and write errors, and the certificate backup of a cluster reset; distinct keys have distinct paths; the order of the conflict list.
- Learner progress: several learners at once, failing status saves, and promotion itself (a parameter).
- Warm pools: failing creates, recycling of unhealthy pods, status updates, and changes of the pod list during a pass.
- HTTP handlers, CLI commands, gRPC, certificates and session-creator locks: no property of the kind proved here.
