/**
 Runs of snapshot saves, deletions and garbage collections over the layer store
 (pkg/sandboxcli/snapshot.go): a saved snapshot stays readable, byte for byte, until it is deleted.
 */
module SnapshotRuns {
  import opened LayerStore
  import opened Wrappers

  const SNAPSHOT_CHUNK_SIZE := 4 * 1024 * 1024

  datatype Contents = Contents(layers: Layers, manifests: Manifests)

  datatype Event =
    | Save(name: string, content: Bytes)
    | DeleteManifestOf(name: string)
    | Collect(stuck: set<Digest>)

  /** The digest list saved for a payload: squashed into one layer above the threshold. */
  function SavedDigests(c: Codec, content: Bytes): seq<Digest> {
    var chunks := SnapshotChunks(content, SNAPSHOT_CHUNK_SIZE);
    if |chunks| > SQUASH_THRESHOLD then [DigestOf(c, content)] else Digests(c, chunks)
  }

  function LayersAfterSave(c: Codec, layers: Layers, content: Bytes): Layers {
    var chunks := SnapshotChunks(content, SNAPSHOT_CHUNK_SIZE);
    var stored := WithLayers(c, layers, chunks);
    if |chunks| > SQUASH_THRESHOLD then WithLayer(c, stored, content) else stored
  }

  function Next(c: Codec, st: Contents, e: Event): Contents {
    match e
    case Save(name, content) =>
      Contents(LayersAfterSave(c, st.layers, content), st.manifests[name + JSON := SavedDigests(c, content)])
    case DeleteManifestOf(name) => st.(manifests := st.manifests - {name + JSON})
    case Collect(stuck) => st.(layers := Kept(st.layers, Referenced(st.manifests) + stuck))
  }

  function Run(c: Codec, st: Contents, events: seq<Event>): Contents
    decreases |events|
  {
    if events == [] then st else Run(c, Next(c, st, events[0]), events[1..])
  }

  /** What a user of the snapshots expects to read: the last payload saved under each file name. */
  function Remembered(saved: map<string, Bytes>, events: seq<Event>): map<string, Bytes>
    decreases |events|
  {
    if events == [] then saved else
      var after := match events[0]
        case Save(name, content) => saved[name + JSON := content]
        case DeleteManifestOf(name) => saved - {name + JSON}
        case Collect(_) => saved;
      Remembered(after, events[1..])
  }

  ghost predicate Fits(universe: iset<Bytes>, events: seq<Event>) {
    forall i | 0 <= i < |events| && events[i].Save? :: SlicesIn(events[i].content, universe)
  }

  /** Every saved manifest is found by the listing and assembles to the remembered payload. */
  ghost predicate Faithful(c: Codec, st: Contents, saved: map<string, Bytes>) {
    && st.manifests.Keys == saved.Keys
    && forall f | f in saved :: TrimExt(f) + JSON == f && Assembled(c, st.layers, st.manifests[f]) == Some(saved[f])
  }

  lemma SaveStores(c: Codec, universe: iset<Bytes>, layers: Layers, content: Bytes)
    requires Dependable(c, universe, layers) && SlicesIn(content, universe)
    ensures var after := LayersAfterSave(c, layers, content);
            && Dependable(c, universe, after) && Extends(layers, after)
            && Assembled(c, after, SavedDigests(c, content)) == Some(content)
            && 0 < |SavedDigests(c, content)| <= SQUASH_THRESHOLD
  {
    var chunks := SnapshotChunks(content, SNAPSHOT_CHUNK_SIZE);
    ChunksRoundTrip(c, universe, layers, content, SNAPSHOT_CHUNK_SIZE);
    SnapshotChunksFit(content, SNAPSHOT_CHUNK_SIZE, universe);
    if |chunks| > SQUASH_THRESHOLD {
      var stored := WithLayers(c, layers, chunks);
      PutHoldsContent(c, universe, stored, content);
      AssembledSingle(c, WithLayer(c, stored, content), DigestOf(c, content));
    }
  }

  /** How many layers a snapshot lists: one above 128 MiB, and otherwise one for each 4 MiB begun. */
  lemma SavedLayerCount(c: Codec, content: Bytes)
    ensures |content| > 134_217_728 ==> SavedDigests(c, content) == [DigestOf(c, content)]
    ensures 0 < |content| <= 134_217_728 ==>
              var n := |SavedDigests(c, content)|; (n - 1) * 4_194_304 < |content| <= n * 4_194_304
    ensures content == [] ==> |SavedDigests(c, content)| == 1
  {
    if content != [] {
      ChunkSizes(content, 4_194_304);
      assert SnapshotChunks(content, SNAPSHOT_CHUNK_SIZE) == Chunks(content, 4_194_304);
    }
  }

  lemma SaveKeepsFaithful(c: Codec, universe: iset<Bytes>, st: Contents, saved: map<string, Bytes>, name: string, content: Bytes)
    requires Dependable(c, universe, st.layers) && Faithful(c, st, saved) && SlicesIn(content, universe)
    ensures var next := Next(c, st, Save(name, content));
            Dependable(c, universe, next.layers) && Faithful(c, next, saved[name + JSON := content])
  {
    var next := Next(c, st, Save(name, content));
    SaveStores(c, universe, st.layers, content);
    TrimExtInverts(name);
    forall f | f in saved
      ensures Assembled(c, next.layers, st.manifests[f]) == Some(saved[f])
    {
      AssembledFrame(c, st.layers, next.layers, st.manifests[f]);
    }
  }

  lemma CollectKeepsFaithful(c: Codec, universe: iset<Bytes>, st: Contents, saved: map<string, Bytes>, stuck: set<Digest>)
    requires Dependable(c, universe, st.layers) && Faithful(c, st, saved)
    ensures var next := Next(c, st, Collect(stuck));
            Dependable(c, universe, next.layers) && Faithful(c, next, saved)
  {
    var next := Next(c, st, Collect(stuck));
    forall f | f in saved
      ensures Assembled(c, next.layers, st.manifests[f]) == Some(saved[f])
    {
      assert forall d | d in st.manifests[f] :: d in Leases(st.manifests, f);
      AssembledFrame(c, st.layers, next.layers, st.manifests[f]);
    }
  }

  /** MAIN: after any run, each snapshot not deleted assembles to exactly what was last saved under it. */
  lemma {:induction false} SnapshotsSurvive(c: Codec, universe: iset<Bytes>, st: Contents, saved: map<string, Bytes>, events: seq<Event>)
    requires Dependable(c, universe, st.layers) && Faithful(c, st, saved) && Fits(universe, events)
    ensures Dependable(c, universe, Run(c, st, events).layers)
    ensures Faithful(c, Run(c, st, events), Remembered(saved, events))
    decreases |events|
  {
    if events != [] {
      var next := Next(c, st, events[0]);
      assert forall i | 0 <= i < |events[1..]| :: events[1..][i] == events[i + 1];
      match events[0]
      case Save(name, content) =>
        SaveKeepsFaithful(c, universe, st, saved, name, content);
        SnapshotsSurvive(c, universe, next, saved[name + JSON := content], events[1..]);
      case DeleteManifestOf(name) =>
        SnapshotsSurvive(c, universe, next, saved - {name + JSON}, events[1..]);
      case Collect(stuck) =>
        CollectKeepsFaithful(c, universe, st, saved, stuck);
        SnapshotsSurvive(c, universe, next, saved, events[1..]);
    }
  }

  /** A collection without failed removals leaves exactly the leased layers that were there. */
  lemma CollectLeavesLeased(c: Codec, st: Contents)
    ensures Next(c, st, Collect({})).layers.Keys == st.layers.Keys * Referenced(st.manifests)
    ensures Next(c, Next(c, st, Collect({})), Collect({})) == Next(c, st, Collect({}))
  {
    var once := Next(c, st, Collect({}));
    assert Kept(once.layers, Referenced(st.manifests) + {}) == once.layers;
  }

  /**
   PutChunks and SaveManifest are two calls.  When another process collects between them, the
   snapshot can be assembled afterwards exactly when other manifests lease all of its layers.
   */
  lemma CollectBetweenPutAndSave(c: Codec, universe: iset<Bytes>, st: Contents, content: Bytes)
    requires Dependable(c, universe, st.layers) && SlicesIn(content, universe)
    ensures var chunks := SnapshotChunks(content, SNAPSHOT_CHUNK_SIZE);
            var put := st.(layers := WithLayers(c, st.layers, chunks));
            var collected := Next(c, put, Collect({}));
            Assembled(c, collected.layers, Digests(c, chunks)) == Some(content) <==>
            forall d | d in Digests(c, chunks) :: d in Referenced(st.manifests)
  {
    var chunks := SnapshotChunks(content, SNAPSHOT_CHUNK_SIZE);
    var ds := Digests(c, chunks);
    var put := st.(layers := WithLayers(c, st.layers, chunks));
    var collected := Next(c, put, Collect({}));
    ChunksRoundTrip(c, universe, st.layers, content, SNAPSHOT_CHUNK_SIZE);
    AssembledWhenPresent(c, put.layers, ds);
    AssembledWhenPresent(c, collected.layers, ds);
    if forall d | d in ds :: d in Referenced(st.manifests) {
      AssembledFrame(c, put.layers, collected.layers, ds);
    }
  }

  // ---------- The commands ----------

  ghost function View(s: Store): Contents
    reads s
  {
    Contents(s.layers, s.manifests)
  }

  /** storeSnapshotLayer: chunk the payload, then lease its layers. */
  method StoreSnapshot(s: Store, name: string, content: Bytes) returns (ok: bool)
    requires s.Valid() && SlicesIn(content, s.universe)
    modifies s
    ensures s.Valid() && ok && View(s) == Next(s.codec, old(View(s)), Save(name, content))
  {
    SnapshotChunksFit(content, SNAPSHOT_CHUNK_SIZE, s.universe);
    var ds := s.PutChunks(content, SNAPSHOT_CHUNK_SIZE);
    ok := s.SaveManifest(name, ds);
  }

  /** A payload from the layer store, a missing layer, or nothing saved there: the legacy file is read. */
  datatype Payload = Payload(content: Bytes) | MissingLayer | Legacy

  /** readSnapshotPayload, up to the legacy file. */
  method ReadSnapshot(s: Store, name: string) returns (r: Payload)
    ensures r == Legacy <==> name + JSON !in s.manifests || s.manifests[name + JSON] == []
    ensures r == MissingLayer <==> name + JSON in s.manifests && exists d | d in s.manifests[name + JSON] :: d !in s.layers
    ensures r.Payload? ==> name + JSON in s.manifests && Assembled(s.codec, s.layers, s.manifests[name + JSON]) == Some(r.content)
  {
    if name + JSON in s.manifests && |s.manifests[name + JSON]| > 0 {
      var ds := s.manifests[name + JSON];
      AssembledWhenPresent(s.codec, s.layers, ds);
      var content := s.Assemble(ds);
      r := if content.None? then MissingLayer else Payload(content.value);
    } else {
      r := Legacy;
    }
  }

  /** Deleting a snapshot releases its lease and collects. */
  method RemoveSnapshot(s: Store, name: string, stuck: set<Digest>) returns (freed: nat)
    requires s.Valid()
    modifies s
    ensures s.Valid() && View(s) == Next(s.codec, Next(s.codec, old(View(s)), DeleteManifestOf(name)), Collect(stuck))
    ensures TotalSize(old(s.layers)) == TotalSize(s.layers) + freed
  {
    s.DeleteManifest(name);
    freed := s.GC(stuck);
  }
}
