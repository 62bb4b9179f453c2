/**
 The content-addressed layer store for sandbox snapshots (pkg/sandboxlayer/layerstore.go): chunking,
 deduplication, manifests as leases, autosquash and garbage collection.

 The layer and manifest directories are maps from file name to content.  SHA-256 and zstd are an
 arbitrary `Codec`; what is assumed of it is stated in `Store.Valid`.
 */
module LayerStore {
  import opened Wrappers

  type Bytes = seq<bv8>
  type Digest = string
  type Layers = map<Digest, Bytes>
  type Manifests = map<string, seq<Digest>>

  datatype Codec = Codec(digest: Bytes -> Digest, compress: Bytes -> Bytes, decompress: Bytes -> Bytes)

  const SQUASH_THRESHOLD := 32
  const DEFAULT_CHUNK_SIZE := 4 * 1024 * 1024
  const JSON := ".json"

  function DigestOf(c: Codec, content: Bytes): Digest {
    c.digest(content)
  }

  function Compressed(c: Codec, content: Bytes): Bytes {
    c.compress(content)
  }

  function Decompressed(c: Codec, stored: Bytes): Bytes {
    c.decompress(stored)
  }

  // ---------- What the operations compute ----------

  /** Put: a digest that is already present is left alone. */
  function WithLayer(c: Codec, layers: Layers, content: Bytes): Layers {
    var d := DigestOf(c, content);
    if d in layers then layers else layers[d := Compressed(c, content)]
  }

  function WithLayers(c: Codec, layers: Layers, contents: seq<Bytes>): Layers
    decreases |contents|
  {
    if contents == [] then layers else WithLayers(c, WithLayer(c, layers, contents[0]), contents[1..])
  }

  function Digests(c: Codec, contents: seq<Bytes>): (ds: seq<Digest>)
    ensures |ds| == |contents| && forall i | 0 <= i < |ds| :: ds[i] == DigestOf(c, contents[i])
  {
    if contents == [] then [] else [DigestOf(c, contents[0])] + Digests(c, contents[1..])
  }

  function Chunks(content: Bytes, size: nat): seq<Bytes>
    requires size > 0
    decreases |content|
  {
    if content == [] then [] else
      var end := if size > |content| then |content| else size;
      [content[..end]] + Chunks(content[end..], size)
  }

  function EffectiveChunkSize(size: int): (n: nat)
    ensures n > 0
  {
    if size <= 0 then DEFAULT_CHUNK_SIZE else size
  }

  /** The contents PutChunks stores: an empty workspace is stored as one empty layer. */
  function SnapshotChunks(content: Bytes, size: int): seq<Bytes> {
    if content == [] then [[]] else Chunks(content, EffectiveChunkSize(size))
  }

  function Concat(contents: seq<Bytes>): Bytes {
    if contents == [] then [] else contents[0] + Concat(contents[1..])
  }

  /** Assemble: the concatenated layer contents, or nothing when a layer is missing. */
  function Assembled(c: Codec, layers: Layers, ds: seq<Digest>): Option<Bytes>
    decreases |ds|
  {
    if ds == [] then Some([]) else
      var init := Assembled(c, layers, ds[..|ds| - 1]);
      var last := ds[|ds| - 1];
      if init.None? || last !in layers then None else Some(init.value + Decompressed(c, layers[last]))
  }

  function TrimExt(name: string): string {
    if '.' !in name then name
    else if name[|name| - 1] == '.' then name[..|name| - 1]
    else TrimExt(name[..|name| - 1])
  }

  /** The digests leased by the manifests that a directory listing leads to. */
  function Referenced(manifests: Manifests): set<Digest> {
    set f, d | f in manifests && d in Leases(manifests, f) :: d
  }

  /** What loading the manifest that a listed file name leads to adds to the referenced layers. */
  function Leases(manifests: Manifests, f: string): set<Digest> {
    var path := TrimExt(f) + JSON;
    if path in manifests then set d | d in manifests[path] else {}
  }

  function Kept(layers: Layers, keep: set<Digest>): Layers {
    map d | d in layers && d in keep :: layers[d]
  }

  ghost function TotalSize(layers: Layers): nat
    decreases |layers|
  {
    if layers == map[] then 0 else
      var d :| d in layers;
      |layers[d]| + TotalSize(layers - {d})
  }

  /** The layers of `want` that `have` does not list, in order. */
  function Missing(have: seq<Digest>, want: seq<Digest>): (ds: seq<Digest>)
    decreases |want|
  {
    if want == [] then [] else
      var init, last := Missing(have, want[..|want| - 1]), want[|want| - 1];
      if last in have then init else init + [last]
  }

  // ---------- What is assumed of the codec, and of stored layers ----------

  ghost predicate Lossless(c: Codec) {
    forall b: Bytes :: Decompressed(c, Compressed(c, b)) == b
  }

  /** No two different contents of the universe share a digest. */
  ghost predicate CollisionFree(c: Codec, universe: iset<Bytes>) {
    forall a, b | a in universe && b in universe && DigestOf(c, a) == DigestOf(c, b) :: a == b
  }

  /** Every layer file holds the content its name is the digest of. */
  ghost predicate Sound(c: Codec, universe: iset<Bytes>, layers: Layers) {
    forall d | d in layers :: Decompressed(c, layers[d]) in universe && DigestOf(c, Decompressed(c, layers[d])) == d
  }

  ghost predicate Dependable(c: Codec, universe: iset<Bytes>, layers: Layers) {
    Lossless(c) && CollisionFree(c, universe) && Sound(c, universe, layers)
  }

  /** Everything that can be cut out of `content` belongs to the universe. */
  ghost predicate SlicesIn(content: Bytes, universe: iset<Bytes>) {
    forall i, j | 0 <= i <= j <= |content| :: content[i..j] in universe
  }

  ghost predicate AllIn(contents: seq<Bytes>, universe: iset<Bytes>) {
    forall i | 0 <= i < |contents| :: contents[i] in universe
  }

  predicate Extends(old': Layers, new': Layers) {
    forall d | d in old' :: d in new' && new'[d] == old'[d]
  }

  // ---------- Laws ----------

  lemma PutHoldsContent(c: Codec, universe: iset<Bytes>, layers: Layers, content: Bytes)
    requires Dependable(c, universe, layers) && content in universe
    ensures var after := WithLayer(c, layers, content);
            && Dependable(c, universe, after) && Extends(layers, after)
            && DigestOf(c, content) in after && Decompressed(c, after[DigestOf(c, content)]) == content
  {
  }

  lemma {:induction false} PutAllHoldsContents(c: Codec, universe: iset<Bytes>, layers: Layers, contents: seq<Bytes>)
    requires Dependable(c, universe, layers) && AllIn(contents, universe)
    ensures var after := WithLayers(c, layers, contents);
            && Dependable(c, universe, after) && Extends(layers, after)
            && (forall i | 0 <= i < |contents| ::
                  DigestOf(c, contents[i]) in after && Decompressed(c, after[DigestOf(c, contents[i])]) == contents[i])
    decreases |contents|
  {
    if contents != [] {
      PutHoldsContent(c, universe, layers, contents[0]);
      assert forall i | 0 <= i < |contents| - 1 :: contents[1..][i] == contents[1 + i];
      PutAllHoldsContents(c, universe, WithLayer(c, layers, contents[0]), contents[1..]);
      forall i | 0 <= i < |contents|
        ensures var after := WithLayers(c, layers, contents);
                DigestOf(c, contents[i]) in after && Decompressed(c, after[DigestOf(c, contents[i])]) == contents[i]
      {
        if i > 0 {
          assert contents[i] == contents[1..][i - 1];
        }
      }
    }
  }

  lemma {:induction false} ConcatSnoc(contents: seq<Bytes>, last: Bytes)
    ensures Concat(contents + [last]) == Concat(contents) + last
  {
    if contents != [] {
      ConcatSnoc(contents[1..], last);
      assert (contents + [last])[1..] == contents[1..] + [last];
    } else {
      assert [last][1..] == [];
    }
  }

  /** Layers that hold the given contents assemble to their concatenation. */
  lemma {:induction false} AssembledIsConcat(c: Codec, layers: Layers, contents: seq<Bytes>)
    requires forall i | 0 <= i < |contents| ::
               DigestOf(c, contents[i]) in layers && Decompressed(c, layers[DigestOf(c, contents[i])]) == contents[i]
    ensures Assembled(c, layers, Digests(c, contents)) == Some(Concat(contents))
    decreases |contents|
  {
    if contents != [] {
      var init, last := contents[..|contents| - 1], contents[|contents| - 1];
      assert contents == init + [last];
      assert Digests(c, contents)[..|contents| - 1] == Digests(c, init);
      AssembledIsConcat(c, layers, init);
      ConcatSnoc(init, last);
    }
  }

  lemma {:induction false} ChunksConcat(content: Bytes, size: nat)
    requires size > 0
    ensures Concat(Chunks(content, size)) == content
    decreases |content|
  {
    if content != [] {
      var end := if size > |content| then |content| else size;
      ChunksConcat(content[end..], size);
      assert content == content[..end] + content[end..];
      assert Chunks(content, size)[1..] == Chunks(content[end..], size);
    }
  }

  lemma {:induction false} ChunksAreSlices(content: Bytes, size: nat, universe: iset<Bytes>)
    requires size > 0 && SlicesIn(content, universe)
    ensures AllIn(Chunks(content, size), universe)
    decreases |content|
  {
    if content != [] {
      var end := if size > |content| then |content| else size;
      assert content[..end] == content[0..end];
      forall i, j | 0 <= i <= j <= |content[end..]|
        ensures content[end..][i..j] in universe
      {
        assert content[end..][i..j] == content[end + i..end + j];
      }
      ChunksAreSlices(content[end..], size, universe);
    }
  }

  /** All chunks have the chunk size, the last one at most that; so their number follows. */
  lemma {:induction false} ChunkSizes(content: Bytes, size: nat)
    requires size > 0
    ensures var chunks := Chunks(content, size);
            && (forall i | 0 <= i < |chunks| - 1 :: |chunks[i]| == size)
            && (chunks != [] ==> 0 < |chunks[|chunks| - 1]| <= size)
            && (|chunks| - 1) * size < |content| + (if content == [] then 1 else 0) && |content| <= |chunks| * size
    decreases |content|
  {
    if content != [] {
      var end := if size > |content| then |content| else size;
      var rest := Chunks(content[end..], size);
      ChunkSizes(content[end..], size);
      assert Chunks(content, size) == [content[..end]] + rest;
      assert (1 + |rest|) * size == size + |rest| * size;
    }
  }

  /** No size given means 4 MiB. */
  lemma SnapshotChunkSizes(content: Bytes, chunkSize: int)
    ensures var size := if chunkSize <= 0 then 4_194_304 else chunkSize;
            var chunks := SnapshotChunks(content, chunkSize);
            && (forall i | 0 <= i < |chunks| :: |chunks[i]| <= size)
            && (forall i | 0 <= i < |chunks| - 1 :: |chunks[i]| == size)
  {
    if content != [] {
      ChunkSizes(content, EffectiveChunkSize(chunkSize));
    }
  }

  /** The layers that PutChunks leaves for a content, by size. */
  lemma StoredChunkSizes(c: Codec, universe: iset<Bytes>, layers: Layers, content: Bytes, chunkSize: int)
    requires Dependable(c, universe, layers) && SlicesIn(content, universe)
    ensures var size := if chunkSize <= 0 then 4_194_304 else chunkSize;
            var chunks := SnapshotChunks(content, chunkSize);
            var ds, after := Digests(c, chunks), WithLayers(c, layers, chunks);
            && (forall i | 0 <= i < |ds| :: ds[i] in after && |Decompressed(c, after[ds[i]])| <= size)
            && (forall i | 0 <= i < |ds| - 1 :: |Decompressed(c, after[ds[i]])| == size)
  {
    var chunks := SnapshotChunks(content, chunkSize);
    SnapshotChunksFit(content, chunkSize, universe);
    SnapshotChunkSizes(content, chunkSize);
    PutAllHoldsContents(c, universe, layers, chunks);
    var ds, after := Digests(c, chunks), WithLayers(c, layers, chunks);
    forall i | 0 <= i < |ds|
      ensures ds[i] in after && Decompressed(c, after[ds[i]]) == chunks[i]
    {
    }
  }

  lemma SnapshotChunksFit(content: Bytes, size: int, universe: iset<Bytes>)
    requires SlicesIn(content, universe)
    ensures AllIn(SnapshotChunks(content, size), universe)
    ensures Concat(SnapshotChunks(content, size)) == content
    ensures content in universe
  {
    assert content == content[0..|content|];
    if content != [] {
      ChunksAreSlices(content, EffectiveChunkSize(size), universe);
      ChunksConcat(content, EffectiveChunkSize(size));
    } else {
      assert [content][1..] == [];
      assert Concat([content]) == content;
    }
  }

  /** MAIN: assembling what PutChunks stored gives the content back, for every chunk size. */
  lemma ChunksRoundTrip(c: Codec, universe: iset<Bytes>, layers: Layers, content: Bytes, size: int)
    requires Dependable(c, universe, layers) && SlicesIn(content, universe)
    ensures var chunks := SnapshotChunks(content, size);
            var after := WithLayers(c, layers, chunks);
            && Dependable(c, universe, after) && Extends(layers, after)
            && Assembled(c, after, Digests(c, chunks)) == Some(content)
  {
    var chunks := SnapshotChunks(content, size);
    SnapshotChunksFit(content, size, universe);
    PutAllHoldsContents(c, universe, layers, chunks);
    AssembledIsConcat(c, WithLayers(c, layers, chunks), chunks);
  }

  /** Assembling only depends on the listed layers. */
  lemma {:induction false} AssembledFrame(c: Codec, layers: Layers, others: Layers, ds: seq<Digest>)
    requires forall d | d in ds && d in layers :: d in others && others[d] == layers[d]
    requires Assembled(c, layers, ds).Some?
    ensures Assembled(c, others, ds) == Assembled(c, layers, ds)
    decreases |ds|
  {
    if ds != [] {
      assert ds[|ds| - 1] in ds;
      AssembledFrame(c, layers, others, ds[..|ds| - 1]);
    }
  }

  lemma {:induction false} AssembledWhenPresent(c: Codec, layers: Layers, ds: seq<Digest>)
    ensures Assembled(c, layers, ds).Some? <==> forall d | d in ds :: d in layers
    decreases |ds|
  {
    if ds != [] {
      AssembledWhenPresent(c, layers, ds[..|ds| - 1]);
      assert ds == ds[..|ds| - 1] + [ds[|ds| - 1]];
    }
  }

  lemma AssembledPrefix(c: Codec, layers: Layers, ds: seq<Digest>, i: nat)
    requires i < |ds| && ds[i] !in layers
    ensures Assembled(c, layers, ds).None?
  {
    AssembledWhenPresent(c, layers, ds);
    assert ds[i] in ds;
  }

  lemma {:induction false} TrimExtAtLastDot(name: string, ext: string)
    requires '.' !in ext
    ensures TrimExt(name + "." + ext) == name
    decreases |ext|
  {
    var f := name + "." + ext;
    assert f[|name|] == '.';
    if ext == "" {
      assert f[..|f| - 1] == name;
    } else {
      assert f[|f| - 1] == ext[|ext| - 1];
      assert f[..|f| - 1] == name + "." + ext[..|ext| - 1];
      TrimExtAtLastDot(name, ext[..|ext| - 1]);
    }
  }

  /** The directory listing leads back to every manifest saved under a name. */
  lemma TrimExtInverts(name: string)
    ensures TrimExt(name + JSON) == name
  {
    TrimExtAtLastDot(name, "json");
    assert name + JSON == name + "." + "json";
  }

  lemma {:induction false} TrimExtFindsLastDot(name: string, i: nat)
    requires i < |name| && name[i] == '.' && '.' !in name[i + 1..]
    ensures TrimExt(name) == name[..i]
  {
    TrimExtAtLastDot(name[..i], name[i + 1..]);
    assert name == name[..i] + "." + name[i + 1..];
  }

  lemma AssembledSingle(c: Codec, layers: Layers, d: Digest)
    requires d in layers
    ensures Assembled(c, layers, [d]) == Some(Decompressed(c, layers[d]))
  {
    assert [d][..0] == [];
    assert [] + Decompressed(c, layers[d]) == Decompressed(c, layers[d]);
  }

  /** `ds` are the digests of the chunks stored so far, `todo` the chunks from `start` on. */
  ghost predicate ChunkedUpTo(c: Codec, content: Bytes, size: nat, start: nat, todo: seq<Bytes>, ds: seq<Digest>)
    requires size > 0
  {
    && todo == Chunks(Rest(content, start), size)
    && ds + Digests(c, todo) == Digests(c, Chunks(content, size))
  }

  /** One turn of the chunking loop. */
  lemma NextChunk(c: Codec, content: Bytes, size: nat, start: nat, end: nat, todo: seq<Bytes>, ds: seq<Digest>)
    requires size > 0 && ChunkedUpTo(c, content, size, start, todo, ds)
    requires start < |content| && end == if start + size > |content| then |content| else start + size
    ensures todo != [] && todo[0] == content[start..end]
    ensures ChunkedUpTo(c, content, size, start + size, todo[1..], ds + [DigestOf(c, content[start..end])])
  {
    var rest := Rest(content, start);
    assert rest[..end - start] == content[start..end];
    assert rest[end - start..] == Rest(content, start + size);
    var d := DigestOf(c, todo[0]);
    assert ds + ([d] + Digests(c, todo[1..])) == ds + [d] + Digests(c, todo[1..]);
  }

  lemma EmptyIsOneChunk(c: Codec, layers: Layers, size: int)
    ensures WithLayers(c, layers, SnapshotChunks([], size)) == WithLayer(c, layers, [])
    ensures Digests(c, SnapshotChunks([], size)) == [DigestOf(c, [])]
  {
    var one: seq<Bytes> := [[]];
    assert SnapshotChunks([], size) == one && one[1..] == [];
  }

  lemma {:induction false} TotalSizeSplit(layers: Layers, d: Digest)
    requires d in layers
    ensures TotalSize(layers) == |layers[d]| + TotalSize(layers - {d})
    decreases |layers|
  {
    var e :| e in layers && TotalSize(layers) == |layers[e]| + TotalSize(layers - {e});
    if e != d {
      TotalSizeSplit(layers - {e}, d);
      TotalSizeSplit(layers - {d}, e);
      assert layers - {e} - {d} == layers - {d} - {e};
    }
  }

  /** A store that holds what `have` lists plus the missing layers assembles all of `want`. */
  lemma DeltaSuffices(c: Codec, origin: Layers, target: Layers, have: seq<Digest>, want: seq<Digest>)
    requires Assembled(c, origin, want).Some?
    requires forall d | d in have || d in Missing(have, want) :: d in origin ==> d in target && target[d] == origin[d]
    ensures Assembled(c, target, want) == Assembled(c, origin, want)
    ensures forall d | d in Missing(have, want) :: d in want && d !in have
  {
    MissingCovers(have, want);
    AssembledFrame(c, origin, target, want);
  }

  lemma {:induction false} MissingCovers(have: seq<Digest>, want: seq<Digest>)
    ensures forall d :: d in Missing(have, want) <==> d in want && d !in have
    decreases |want|
  {
    if want != [] {
      MissingCovers(have, want[..|want| - 1]);
      assert want == want[..|want| - 1] + [want[|want| - 1]];
    }
  }

  /** The delta keeps the order and the repetitions of what is wanted. */
  lemma {:induction false} MissingIsFilter(have: seq<Digest>, first: seq<Digest>, rest: seq<Digest>, d: Digest)
    ensures Missing(have, first + rest) == Missing(have, first) + Missing(have, rest)
    ensures Missing(have, [d]) == if d in have then [] else [d]
    decreases |rest|
  {
    assert [d][..0] == [];
    if rest == [] {
      assert first + rest == first;
    } else {
      var n := |rest| - 1;
      MissingIsFilter(have, first, rest[..n], d);
      assert (first + rest)[..|first| + n] == first + rest[..n];
      assert Missing(have, rest) == Missing(have, rest[..n]) + if rest[n] in have then [] else [rest[n]];
    }
  }

  /** For manifests saved under a name, exactly the digests that some manifest lists are referenced. */
  lemma ReferencedIsUnion(manifests: Manifests, d: Digest)
    requires forall f | f in manifests :: TrimExt(f) + JSON == f
    ensures d in Referenced(manifests) <==> exists f :: f in manifests && d in manifests[f]
  {
    if f :| f in manifests && d in manifests[f] {
      assert d in Leases(manifests, f);
    }
  }

  lemma SizeOfFew(d: Digest, stored: Bytes)
    ensures TotalSize(map[]) == 0 && TotalSize(map[d := stored]) == |stored|
  {
    TotalSizeSplit(map[d := stored], d);
    assert map[d := stored] - {d} == map[];
  }

  lemma {:induction false} TrimExtWithoutDot(name: string)
    requires '.' !in name
    ensures TrimExt(name) == name
  {
  }

  lemma KeptAll(layers: Layers, keep: set<Digest>)
    requires layers.Keys <= keep
    ensures Kept(layers, keep) == layers
  {
  }

  /** One turn of the collection loop: the entry `d` is decided. */
  lemma KeptDecides(layers: Layers, keep: set<Digest>, entries: set<Digest>, d: Digest)
    requires d in entries && d in layers
    ensures d in Kept(layers, keep + entries) && Kept(layers, keep + entries)[d] == layers[d]
    ensures d !in keep ==> Kept(layers, keep + entries) - {d} == Kept(layers, keep + (entries - {d}))
    ensures d in keep ==> Kept(layers, keep + entries) == Kept(layers, keep + (entries - {d}))
  {
    if d in keep {
      assert keep + entries == keep + (entries - {d});
    }
  }

  // ---------- The store ----------

  class Store {
    const codec: Codec
    ghost const universe: iset<Bytes>
    var layers: Layers
    var manifests: Manifests

    ghost predicate Valid()
      reads this
    {
      Dependable(codec, universe, layers)
    }

    constructor (codec: Codec, ghost universe: iset<Bytes>)
      requires Lossless(codec) && CollisionFree(codec, universe)
      ensures Valid() && layers == map[] && manifests == map[]
      ensures this.codec == codec && this.universe == universe
    {
      this.codec := codec;
      this.universe := universe;
      layers := map[];
      manifests := map[];
    }

    method Put(content: Bytes) returns (d: Digest)
      requires Valid() && content in universe
      modifies `layers
      ensures Valid() && layers == WithLayer(codec, old(layers), content)
      ensures d == DigestOf(codec, content) && d in layers && Decompressed(codec, layers[d]) == content
    {
      PutHoldsContent(codec, universe, layers, content);
      d := DigestOf(codec, content);
      if d !in layers {
        layers := layers[d := Compressed(codec, content)];
      }
    }

    /** The chunking loop of PutChunks. */
    method PutEachChunk(content: Bytes, size: nat) returns (digests: seq<Digest>)
      requires Valid() && SlicesIn(content, universe) && size > 0
      modifies `layers
      ensures Valid() && layers == WithLayers(codec, old(layers), Chunks(content, size))
      ensures digests == Digests(codec, Chunks(content, size))
    {
      digests := [];
      var start := 0;
      ghost var todo := Chunks(content, size);
      while start < |content|
        invariant Valid() && start >= 0 && ChunkedUpTo(codec, content, size, start, todo, digests)
        invariant WithLayers(codec, layers, todo) == WithLayers(codec, old(layers), Chunks(content, size))
        decreases |content| - start
      {
        var end := start + size;
        if end > |content| {
          end := |content|;
        }
        NextChunk(codec, content, size, start, end, todo, digests);
        todo := todo[1..];
        var d := Put(content[start..end]);
        digests := digests + [d];
        start := start + size;
      }
    }

    /** Stores the chunks of `content` and returns digests that assemble to it. */
    method PutChunks(content: Bytes, chunkSize: int) returns (digests: seq<Digest>)
      requires Valid() && SlicesIn(content, universe)
      modifies `layers
      ensures Valid() && layers == WithLayers(codec, old(layers), SnapshotChunks(content, chunkSize))
      ensures digests == Digests(codec, SnapshotChunks(content, chunkSize))
      ensures Extends(old(layers), layers) && Assembled(codec, layers, digests) == Some(content)
      ensures var size := if chunkSize <= 0 then 4_194_304 else chunkSize;
              && (forall i | 0 <= i < |digests| :: digests[i] in layers && |Decompressed(codec, layers[digests[i]])| <= size)
              && (forall i | 0 <= i < |digests| - 1 :: |Decompressed(codec, layers[digests[i]])| == size)
    {
      var size := chunkSize;
      if size <= 0 {
        size := DEFAULT_CHUNK_SIZE;
      }
      digests := PutEachChunk(content, size);
      if |content| == 0 {
        EmptyIsOneChunk(codec, old(layers), chunkSize);
        assert content == content[0..0] == [];
        var d := Put([]);
        digests := digests + [d];
      }
      ChunksRoundTrip(codec, universe, old(layers), content, chunkSize);
      StoredChunkSizes(codec, universe, old(layers), content, chunkSize);
    }

    method Assemble(ds: seq<Digest>) returns (r: Option<Bytes>)
      ensures r == Assembled(codec, layers, ds)
    {
      var out: Bytes := [];
      for i := 0 to |ds|
        invariant Assembled(codec, layers, ds[..i]) == Some(out)
      {
        if ds[i] !in layers {
          AssembledPrefix(codec, layers, ds, i);
          return None;
        }
        assert ds[..i + 1][..i] == ds[..i];
        out := out + Decompressed(codec, layers[ds[i]]);
      }
      assert ds[..|ds|] == ds;
      return Some(out);
    }

    /** Stores the concatenation of the listed layers as one layer; fails when one is missing. */
    method Squash(ds: seq<Digest>) returns (r: Option<Digest>)
      requires Valid() && (var whole := Assembled(codec, layers, ds); whole.Some? ==> whole.value in universe)
      modifies `layers
      ensures Valid()
      ensures r.None? <==> Assembled(codec, old(layers), ds).None?
      ensures r.None? ==> layers == old(layers)
      ensures r.Some? ==> var whole := Assembled(codec, old(layers), ds).value;
                          r.value == DigestOf(codec, whole) && layers == WithLayer(codec, old(layers), whole)
    {
      var out := Assemble(ds);
      if out.None? {
        return None;
      }
      var d := Put(out.value);
      return Some(d);
    }

    /** Saves a manifest of at most 32 layers that assembles to what the given layers assemble to. */
    method SaveManifest(name: string, ds: seq<Digest>) returns (ok: bool)
      requires Valid() && (var whole := Assembled(codec, layers, ds); whole.Some? ==> whole.value in universe)
      modifies `layers, `manifests
      ensures Valid()
      ensures ok <==> |ds| <= SQUASH_THRESHOLD || Assembled(codec, old(layers), ds).Some?
      ensures !ok ==> layers == old(layers) && manifests == old(manifests)
      ensures ok ==> name + JSON in manifests && |manifests[name + JSON]| <= SQUASH_THRESHOLD
      ensures ok ==> manifests == old(manifests)[name + JSON := manifests[name + JSON]]
      ensures ok ==> Assembled(codec, layers, manifests[name + JSON]) == Assembled(codec, old(layers), ds)
      ensures ok && |ds| <= SQUASH_THRESHOLD ==> layers == old(layers) && manifests[name + JSON] == ds
      ensures ok && |ds| > SQUASH_THRESHOLD ==>
                var whole := Assembled(codec, old(layers), ds).value;
                layers == WithLayer(codec, old(layers), whole) && manifests[name + JSON] == [DigestOf(codec, whole)]
    {
      var saved := ds;
      if |ds| > SQUASH_THRESHOLD {
        ghost var whole := Assembled(codec, layers, ds);
        if whole.Some? {
          PutHoldsContent(codec, universe, layers, whole.value);
          AssembledSingle(codec, WithLayer(codec, layers, whole.value), DigestOf(codec, whole.value));
        }
        var consolidated := Squash(ds);
        if consolidated.None? {
          return false;
        }
        saved := [consolidated.value];
      }
      manifests := manifests[name + JSON := saved];
      return true;
    }

    method DeleteManifest(name: string)
      modifies `manifests
      ensures manifests == old(manifests) - {name + JSON}
    {
      manifests := manifests - {name + JSON};
    }

    method ReferencedLayers() returns (referenced: set<Digest>)
      ensures referenced == Referenced(manifests)
    {
      referenced := {};
      var files := manifests.Keys;
      while files != {}
        invariant files <= manifests.Keys
        invariant forall d :: d in referenced <==> exists f :: f in manifests.Keys - files && d in Leases(manifests, f)
        decreases |files|
      {
        var f :| f in files;
        ghost var done := manifests.Keys - files;
        files := files - {f};
        var name := TrimExtension(f);
        var path := name + JSON;
        ghost var before := referenced;
        if path in manifests {
          referenced := referenced + (set d | d in manifests[path]);
        }
        assert referenced == before + Leases(manifests, f);
        assert manifests.Keys - files == done + {f};
      }
    }

    /** Removes unreferenced layers; `stuck` are those whose removal fails, which are not counted. */
    method GC(stuck: set<Digest>) returns (removed: nat)
      requires Valid()
      modifies `layers
      ensures Valid() && layers == Kept(old(layers), Referenced(manifests) + stuck)
      ensures TotalSize(old(layers)) == TotalSize(layers) + removed
    {
      var referenced := ReferencedLayers();
      removed := 0;
      var entries := layers.Keys;
      ghost var was := layers;
      ghost var keep := referenced + stuck;
      KeptAll(was, keep + entries);
      while entries != {}
        invariant entries <= was.Keys
        invariant layers == Kept(was, keep + entries)
        invariant TotalSize(was) == TotalSize(layers) + removed
        decreases |entries|
      {
        var name :| name in entries;
        KeptDecides(was, keep, entries, name);
        entries := entries - {name};
        if name !in referenced && name !in stuck {
          TotalSizeSplit(layers, name);
          removed := removed + |layers[name]|;
          layers := layers - {name};
        }
      }
      assert keep + entries == keep;
    }

    method SizeBytes() returns (total: nat)
      ensures total == TotalSize(layers)
    {
      total := 0;
      var rest := layers;
      while rest != map[]
        invariant total + TotalSize(rest) == TotalSize(layers)
        decreases |rest|
      {
        var d :| d in rest;
        TotalSizeSplit(rest, d);
        total := total + |rest[d]|;
        rest := rest - {d};
      }
    }
  }

  /** trimExt: scans from the end for the last dot. */
  method TrimExtension(name: string) returns (r: string)
    ensures r == TrimExt(name)
  {
    var i := |name| - 1;
    while i >= 0
      invariant -1 <= i < |name|
      invariant '.' !in name[i + 1..]
    {
      if name[i] == '.' {
        TrimExtFindsLastDot(name, i);
        return name[..i];
      }
      assert name[i..] == [name[i]] + name[i + 1..];
      i := i - 1;
    }
    assert name[0..] == name;
    return name;
  }

  ghost function Rest(content: Bytes, start: nat): Bytes {
    if start <= |content| then content[start..] else []
  }

  /** The layers of `want` that are missing from `have`. */
  method Delta(have: seq<Digest>, want: seq<Digest>) returns (missing: seq<Digest>)
    ensures missing == Missing(have, want)
  {
    var present: set<Digest> := {};
    for i := 0 to |have|
      invariant present == set d | d in have[..i]
    {
      present := present + {have[i]};
    }
    assert have[..|have|] == have;
    missing := [];
    for i := 0 to |want|
      invariant missing == Missing(have, want[..i])
    {
      assert want[..i + 1][..i] == want[..i];
      if want[i] !in present {
        missing := missing + [want[i]];
      }
    }
    assert want[..|want|] == want;
  }
}
