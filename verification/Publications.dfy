/**
 Publishing prepared values (vime/data/codec.py, `prepare`, `publish_many` and
 `_publish`): tensors go out in bounded chunks, and integer dependencies are moved
 once when values are joined and once more when the list is split into batches.
 */
module Publications {
  import opened Common
  import opened CodecValues
  import opened CodecEncode

  /** A record set already stored, or an earlier publication of the same list. */
  datatype Dependency = Existing(ref: Ref) | Earlier(index: nat)

  datatype Publication = Publication(records: seq<Record>, dependencies: seq<Dependency>)

  // ------------------------------------------------------------- store

  function Resolve(base: nat, ds: seq<Dependency>): (r: seq<Ref>)
    ensures |r| == |ds|
    ensures forall i | 0 <= i < |ds| :: r[i] == if ds[i].Existing? then ds[i].ref else base + ds[i].index
  {
    seq(|ds|, i requires 0 <= i < |ds| => if ds[i].Existing? then ds[i].ref else base + ds[i].index)
  }

  /** The stored form of a list whose first publication becomes record set `base`. */
  function Link(base: nat, pubs: seq<Publication>): (r: seq<StoredSet>)
    ensures |r| == |pubs|
    ensures forall i | 0 <= i < |pubs| :: r[i] == StoredSet(pubs[i].records, Resolve(base, pubs[i].dependencies))
  {
    seq(|pubs|, i requires 0 <= i < |pubs| => StoredSet(pubs[i].records, Resolve(base, pubs[i].dependencies)))
  }

  function Count(pubs: seq<Publication>): nat {
    if pubs == [] then 0 else Count(pubs[..|pubs| - 1]) + |pubs[|pubs| - 1].records| + 1
  }

  predicate EarlierThan(p: Publication, n: nat) {
    forall j | 0 <= j < |p.dependencies| && p.dependencies[j].Earlier? :: p.dependencies[j].index < n
  }

  /** Integer dependencies point back. */
  predicate Ordered(pubs: seq<Publication>) {
    forall i | 0 <= i < |pubs| :: EarlierThan(pubs[i], i)
  }

  /** The store takes one bounded batch and numbers its record sets in order. */
  method StorePublish(store: Store, batch: seq<Publication>, max: nat) returns (store': Store, refs: seq<Ref>)
    requires Count(batch) <= max && Ordered(batch)
    ensures store' == store + Link(|store|, batch)
    ensures |refs| == |batch| && forall i | 0 <= i < |refs| :: refs[i] == |store| + i
  {
    store' := store + Link(|store|, batch);
    refs := seq(|batch|, i => |store| + i);
  }

  // ------------------------------------------------------------- splitting

  /** A dependency as a batch sees it: relative to the batch, or already stored. */
  function InBatch(d: Dependency, refs: seq<Ref>, start: nat): Dependency
    requires |refs| == start
  {
    if d.Existing? then d else if d.index < start then Existing(refs[d.index]) else Earlier(d.index - start)
  }

  function BatchPublication(p: Publication, refs: seq<Ref>, start: nat): (r: Publication)
    requires |refs| == start
    ensures r.records == p.records && |r.dependencies| == |p.dependencies|
    ensures forall j | 0 <= j < |p.dependencies| :: r.dependencies[j] == InBatch(p.dependencies[j], refs, start)
  {
    Publication(p.records,
      seq(|p.dependencies|, j requires 0 <= j < |p.dependencies| => InBatch(p.dependencies[j], refs, start)))
  }

  function BatchOf(pubs: seq<Publication>, refs: seq<Ref>, start: nat, stop: nat): (r: seq<Publication>)
    requires start <= stop <= |pubs| && |refs| == start
    ensures |r| == stop - start
    ensures forall i | 0 <= i < |r| :: r[i] == BatchPublication(pubs[start + i], refs, start)
  {
    seq(stop - start, i requires 0 <= i < stop - start => BatchPublication(pubs[start + i], refs, start))
  }

  lemma {:induction false} CountBatch(pubs: seq<Publication>, refs: seq<Ref>, start: nat, stop: nat)
    requires start <= stop <= |pubs| && |refs| == start
    ensures Count(BatchOf(pubs, refs, start, stop)) == Count(pubs[start..stop])
    decreases stop
  {
    if start < stop {
      var n := stop - start - 1;
      CountBatch(pubs, refs, start, stop - 1);
      assert BatchOf(pubs, refs, start, stop)[..n] == BatchOf(pubs, refs, start, stop - 1);
      assert pubs[start..stop][..n] == pubs[start..stop - 1];
    }
  }

  lemma CountOneMore(pubs: seq<Publication>, start: nat, stop: nat)
    requires start <= stop < |pubs|
    ensures Count(pubs[start..stop + 1]) == Count(pubs[start..stop]) + |pubs[stop].records| + 1
  {
    assert pubs[start..stop + 1][..stop - start] == pubs[start..stop];
  }

  lemma BatchOrdered(pubs: seq<Publication>, refs: seq<Ref>, start: nat, stop: nat)
    requires start <= stop <= |pubs| && |refs| == start && Ordered(pubs)
    ensures Ordered(BatchOf(pubs, refs, start, stop))
  {
    var batch := BatchOf(pubs, refs, start, stop);
    forall i | 0 <= i < |batch|
      ensures EarlierThan(batch[i], i)
    {
      assert EarlierThan(pubs[start + i], start + i);
    }
  }

  /** Batch-relative links resolve to the same record sets as the whole list's. */
  lemma BatchLinks(base: nat, pubs: seq<Publication>, refs: seq<Ref>, start: nat, stop: nat)
    requires start <= stop <= |pubs| && |refs| == start
    requires forall i | 0 <= i < start :: refs[i] == base + i
    ensures Link(base + start, BatchOf(pubs, refs, start, stop)) == Link(base, pubs)[start..stop]
  {
    var batch := BatchOf(pubs, refs, start, stop);
    forall i | 0 <= i < |batch|
      ensures Resolve(base + start, batch[i].dependencies) == Resolve(base, pubs[start + i].dependencies)
    {
    }
  }

  /** How many publications from `start` on fit one batch; a batch has at least one. */
  method BatchEnd(pubs: seq<Publication>, start: nat, max: nat) returns (stop: nat)
    requires start < |pubs| && forall i | 0 <= i < |pubs| :: |pubs[i].records| + 1 <= max
    ensures start < stop <= |pubs| && Count(pubs[start..stop]) <= max
  {
    stop := start;
    var count := 0;
    while stop < |pubs|
      invariant start <= stop <= |pubs| && count == Count(pubs[start..stop]) <= max
    {
      CountOneMore(pubs, start, stop);
      if stop > start && count + |pubs[stop].records| + 1 > max {
        break;
      }
      count := count + |pubs[stop].records| + 1;
      stop := stop + 1;
    }
  }

  /** References of record sets that follow one another from `base` on. */
  predicate Numbered(base: nat, refs: seq<Ref>) {
    forall i | 0 <= i < |refs| :: refs[i] == base + i
  }

  /** One batch, with its dependencies made relative to it or looked up. */
  method PublishBatch(base: nat, store: Store, pubs: seq<Publication>, refs: seq<Ref>, stop: nat, max: nat)
    returns (store': Store, refs': seq<Ref>)
    requires |refs| <= stop <= |pubs| && |store| == base + |refs| && Numbered(base, refs)
    requires Ordered(pubs) && Count(pubs[|refs|..stop]) <= max
    ensures store' == store + Link(base, pubs)[|refs|..stop]
    ensures |refs'| == stop && Numbered(base, refs')
  {
    var start := |refs|;
    var batch := BatchOf(pubs, refs, start, stop);
    CountBatch(pubs, refs, start, stop);
    BatchOrdered(pubs, refs, start, stop);
    BatchLinks(base, pubs, refs, start, stop);
    var more;
    store', more := StorePublish(store, batch, max);
    refs' := refs + more;
  }

  /**
   `_publish`: no batch exceeds the limit, and the outcome is that of publishing
   the whole list at once.
   */
  method Publish(store: Store, pubs: seq<Publication>, max: nat) returns (store': Store, refs: seq<Ref>)
    requires Ordered(pubs) && forall i | 0 <= i < |pubs| :: |pubs[i].records| + 1 <= max
    ensures store' == store + Link(|store|, pubs)
    ensures |refs| == |pubs| && Numbered(|store|, refs)
  {
    store', refs := store, [];
    while |refs| < |pubs|
      invariant |refs| <= |pubs| && Numbered(|store|, refs)
      invariant store' == store + Link(|store|, pubs)[..|refs|]
      decreases |pubs| - |refs|
    {
      var stop := BatchEnd(pubs, |refs|, max);
      PrefixGrows(Link(|store|, pubs), |refs|, stop);
      store', refs := PublishBatch(|store|, store', pubs, refs, stop, max);
    }
  }

  // ------------------------------------------------------------- chunks

  /** Tensors in chunks of `size`. */
  function Chunks(blobs: seq<Tensor>, size: nat): (r: seq<seq<Tensor>>)
    requires size > 0
    ensures forall k | 0 <= k < |r| :: 0 < |r[k]| <= size
    decreases |blobs|
  {
    if blobs == [] then []
    else if |blobs| <= size then [blobs]
    else [blobs[..size]] + Chunks(blobs[size..], size)
  }

  lemma {:induction false} ChunkHas(blobs: seq<Tensor>, size: nat, k: nat, r: nat, start: nat)
    requires r < size && start == k * size && start + r < |blobs|
    ensures k < |Chunks(blobs, size)| && r < |Chunks(blobs, size)[k]|
    ensures Chunks(blobs, size)[k][r] == blobs[start + r]
    decreases k
  {
    if k > 0 {
      NextMultiple(k - 1, size);
      var before: nat := start - size;
      ChunkHas(blobs[size..], size, k - 1, r, before);
      LaterChunkHas(blobs, size, k, r, before);
    }
  }

  /** What a chunk of the rest has, the next chunk of the whole has. */
  lemma LaterChunkHas(blobs: seq<Tensor>, size: nat, k: nat, r: nat, before: nat)
    requires 0 < k && 0 < size < |blobs| && size + before + r < |blobs|
    requires k - 1 < |Chunks(blobs[size..], size)| && r < |Chunks(blobs[size..], size)[k - 1]|
    requires Chunks(blobs[size..], size)[k - 1][r] == blobs[size..][before + r]
    ensures k < |Chunks(blobs, size)| && r < |Chunks(blobs, size)[k]|
    ensures Chunks(blobs, size)[k][r] == blobs[size + before + r]
  {
    FirstChunk(blobs, size);
  }

  lemma FirstChunk(blobs: seq<Tensor>, size: nat)
    requires 0 < size < |blobs|
    ensures Chunks(blobs, size) == [blobs[..size]] + Chunks(blobs[size..], size)
  {
  }

  /** The place of blob `i` names the element of the chunk that holds it. */
  lemma BlobInChunk(blobs: seq<Tensor>, base: nat, size: nat, i: nat) returns (k: nat, r: nat)
    requires size > 0 && i < |blobs|
    ensures PlaceOf(base, size, Blob(i)) == At(base + k, r)
    ensures k < |Chunks(blobs, size)| && r < |Chunks(blobs, size)[k]| && Chunks(blobs, size)[k][r] == blobs[i]
  {
    k, r := i / size, i % size;
    assert i == k * size + r;
    ChunkHas(blobs, size, k, r, k * size);
  }

  function TensorRecords(chunk: seq<Tensor>): (r: seq<Record>)
    ensures |r| == |chunk| && forall i | 0 <= i < |chunk| :: r[i] == TensorRecord(chunk[i])
  {
    seq(|chunk|, i requires 0 <= i < |chunk| => TensorRecord(chunk[i]))
  }

  function ChunkPublications(chunks: seq<seq<Tensor>>): (r: seq<Publication>)
    ensures |r| == |chunks|
    ensures forall k | 0 <= k < |chunks| :: r[k] == Publication(TensorRecords(chunks[k]), [])
  {
    seq(|chunks|, k requires 0 <= k < |chunks| => Publication(TensorRecords(chunks[k]), []))
  }

  function RootDependencies(refs: seq<Ref>, chunks: nat): (r: seq<Dependency>)
    ensures |r| == |refs| + chunks
    ensures forall j | 0 <= j < |refs| :: r[j] == Existing(refs[j])
    ensures forall k | 0 <= k < chunks :: r[|refs| + k] == Earlier(k)
  {
    seq(|refs| + chunks, j requires 0 <= j < |refs| + chunks => if j < |refs| then Existing(refs[j]) else Earlier(j - |refs|))
  }

  /** The chunks, then the record with the tree. */
  function Assemble(tree: Node, w: Writer, max: nat): (r: seq<Publication>)
    requires max >= 2
    ensures |r| == |Chunks(w.blobs, max - 1)| + 1
    ensures ChunkPublications(Chunks(w.blobs, max - 1)) <= r
    ensures r[|r| - 1] ==
      Publication([Collection(1, Patch(|w.dependencies|, max - 1, tree))],
                  RootDependencies(w.dependencies, |Chunks(w.blobs, max - 1)|))
  {
    var chunks := Chunks(w.blobs, max - 1);
    ChunkPublications(chunks) +
    [Publication([Collection(1, Patch(|w.dependencies|, max - 1, tree))], RootDependencies(w.dependencies, |chunks|))]
  }

  /** What `prepare` gives. */
  function Prepared(objects: Objects, v: Value, max: nat): (r: seq<Publication>)
    requires max >= 2
    ensures r != []
  {
    var (n, w) := Visit(objects, FRESH, v);
    Assemble(n, w, max)
  }

  /** The list fits the store's batches. */
  predicate Publishable(pubs: seq<Publication>, max: nat) {
    Ordered(pubs) && forall i | 0 <= i < |pubs| :: |pubs[i].records| + 1 <= max
  }

  /** Every assembled publication fits a batch, and points back. */
  lemma AssembledFits(tree: Node, w: Writer, max: nat)
    requires max >= 2
    ensures Publishable(Assemble(tree, w, max), max)
  {
    var pubs, chunks := Assemble(tree, w, max), Chunks(w.blobs, max - 1);
    forall i | 0 <= i < |pubs|
      ensures EarlierThan(pubs[i], i) && |pubs[i].records| + 1 <= max
    {
      if i < |chunks| {
        assert pubs[i] == ChunkPublications(chunks)[i];
      }
    }
  }

  /** Every blob's final place. */
  ghost predicate PlacesOf(base: nat, size: nat, positions: seq<Slot>)
    requires size > 0
  {
    forall i | 0 <= i < |positions| :: positions[i] == PlaceOf(base, size, Blob(i))
  }

  /** One chunk's blobs get their places. */
  method PlaceChunk(before: seq<Slot>, base: nat, k: nat, size: nat, stop: nat) returns (positions: seq<Slot>)
    requires size > 0 && |before| == k * size && |before| <= stop <= |before| + size && PlacesOf(base, size, before)
    ensures |positions| == stop && PlacesOf(base, size, positions)
  {
    positions := before;
    var start := |before|;
    while |positions| < stop
      invariant start <= |positions| <= stop && PlacesOf(base, size, positions)
    {
      PlaceInChunk(base, k, size, |positions|, start);
      positions := positions + [At(base + k, |positions| - start)];
    }
  }

  /** The chunk loop of `prepare`: the final place of every blob, and the chunk publications. */
  method ChunkBlobs(blobs: seq<Tensor>, base: nat, max: nat)
    returns (pubs: seq<Publication>, positions: seq<Slot>)
    requires max >= 2
    ensures pubs == ChunkPublications(Chunks(blobs, max - 1))
    ensures |positions| == |blobs| && PlacesOf(base, max - 1, positions)
  {
    pubs, positions := [], [];
    var start: nat := 0;
    var size: nat := max - 1;
    assert blobs[0..] == blobs;
    ghost var done: seq<seq<Tensor>> := [];
    while start < |blobs|
      invariant start <= |blobs| && |positions| == start
      invariant start < |blobs| ==> start == |pubs| * size
      invariant pubs == ChunkPublications(done) && done + Chunks(blobs[start..], size) == Chunks(blobs, size)
      invariant PlacesOf(base, size, positions)
    {
      var stop: nat := Min(|blobs|, start + size);
      NextMultiple(|pubs|, size);
      positions := PlaceChunk(positions, base, |pubs|, size, stop);
      ChunkTaken(blobs, start, stop, size, done);
      pubs := pubs + [Publication(TensorRecords(blobs[start..stop]), [])];
      done := done + [blobs[start..stop]];
      start := stop;
    }
    assert blobs[start..] == [] && done + [] == done;
  }

  /** One chunk more is done. */
  lemma ChunkTaken(blobs: seq<Tensor>, start: nat, stop: nat, size: nat, done: seq<seq<Tensor>>)
    requires size > 0 && start < |blobs| && stop == Min(|blobs|, start + size)
    ensures
      var chunk := blobs[start..stop];
      && ChunkPublications(done + [chunk]) == ChunkPublications(done) + [Publication(TensorRecords(chunk), [])]
      && done + [chunk] + Chunks(blobs[stop..], size) == done + Chunks(blobs[start..], size)
  {
    ChunkStep(blobs, start, stop, size);
  }

  lemma ChunkStep(blobs: seq<Tensor>, start: nat, stop: nat, size: nat)
    requires size > 0 && start < |blobs| && stop == Min(|blobs|, start + size)
    ensures Chunks(blobs[start..], size) == [blobs[start..stop]] + Chunks(blobs[stop..], size)
  {
    var rest := blobs[start..];
    assert rest[..stop - start] == blobs[start..stop] && rest[stop - start..] == blobs[stop..];
    if stop == |blobs| {
      assert rest == blobs[start..stop] && blobs[stop..] == [];
    }
  }

  lemma PlaceInChunk(base: nat, k: nat, size: nat, i: nat, start: nat)
    requires size > 0 && start == k * size && start <= i < start + size
    ensures PlaceOf(base, size, Blob(i)) == At(base + k, i - start)
  {
    DivModOf(size, k, i - start);
  }
}
