/** Publishing and loading values (vime/data/codec.py, `SampleCodec`). */
module SampleCodec {
  import opened Common
  import opened CodecValues
  import opened CodecEncode
  import opened CodecDecode
  import opened CodecRoundTrip
  import opened CodecAgreement
  import opened Publications
  import ObjectGraph

  /** `load` without a selection. */
  function Load(store: Store, ref: Ref): Outcome<Loaded> {
    var tree := TreeAt(store, ref);
    if tree.None? then Failed(UnsupportedSchema)
    else Decode(Context(store, store[ref].dependencies), tree.value, map[])
  }

  /** A collection is one record of the one known version. */
  function TreeAt(store: Store, ref: Ref): (r: Option<Node>)
    ensures r.Some? ==> ref < |store|
  {
    if ref < |store| && |store[ref].records| == 1
       && store[ref].records[0].Collection? && store[ref].records[0].version == 1
    then Some(store[ref].records[0].tree) else None
  }

  /** The list `pubs` lies in the store from record set `base` on. */
  ghost predicate Sits(store: Store, base: nat, pubs: seq<Publication>) {
    base + |pubs| <= |store| && store[base..base + |pubs|] == Link(base, pubs)
  }

  /** The context in which an assembled tree is read, once its publications lie at `base`. */
  ghost function ContextOf(store: Store, base: nat, w: Writer, max: nat): Context
    requires max >= 2
  {
    Context(store, Resolve(base, RootDependencies(w.dependencies, |Chunks(w.blobs, max - 1)|)))
  }

  lemma AppendedSits(before: Store, pubs: seq<Publication>)
    ensures Sits(before + Link(|before|, pubs), |before|, pubs)
  {
  }

  lemma ChunkIsHeld(
    store: Store, base: nat, pubs: seq<Publication>, refs: seq<Ref>, chunks: seq<seq<Tensor>>, k: nat, r: nat)
    requires Sits(store, base, pubs) && ChunkPublications(chunks) <= pubs
    requires k < |chunks| && r < |chunks[k]|
    ensures HoldsBlob(
      Context(store, Resolve(base, RootDependencies(refs, |chunks|))), At(|refs| + k, r), chunks[k][r])
  {
  }

  lemma BlobIsHeld(store: Store, base: nat, tree: Node, w: Writer, max: nat, i: nat)
    requires max >= 2 && Sits(store, base, Assemble(tree, w, max)) && i < |w.blobs|
    ensures HoldsBlob(ContextOf(store, base, w, max), PlaceOf(|w.dependencies|, max - 1, Blob(i)), w.blobs[i])
  {
    var k, r := BlobInChunk(w.blobs, |w.dependencies|, max - 1, i);
    ChunkElementIsHeld(
      store, base, tree, w, max, k, r, PlaceOf(|w.dependencies|, max - 1, Blob(i)), w.blobs[i]);
  }

  lemma ChunkElementIsHeld(
    store: Store, base: nat, tree: Node, w: Writer, max: nat, k: nat, r: nat, slot: Slot, data: Tensor)
    requires max >= 2 && Sits(store, base, Assemble(tree, w, max)) && slot == At(|w.dependencies| + k, r)
    requires k < |Chunks(w.blobs, max - 1)| && r < |Chunks(w.blobs, max - 1)[k]|
    requires data == Chunks(w.blobs, max - 1)[k][r]
    ensures HoldsBlob(ContextOf(store, base, w, max), slot, data)
  {
    ChunkIsHeld(store, base, Assemble(tree, w, max), w.dependencies, Chunks(w.blobs, max - 1), k, r);
  }

  lemma AssembledCovers(before: Store, store: Store, base: nat, tree: Node, w: Writer, max: nat)
    requires max >= 2 && before <= store && Sits(store, base, Assemble(tree, w, max))
    ensures Covers(ContextOf(store, base, w, max), before, w, max - 1)
  {
    forall i: nat | i < |w.blobs|
      ensures HoldsBlob(ContextOf(store, base, w, max), PlaceOf(|w.dependencies|, max - 1, Blob(i)), w.blobs[i])
    {
      BlobIsHeld(store, base, tree, w, max, i);
    }
  }

  lemma AssembledRoot(store: Store, base: nat, tree: Node, w: Writer, max: nat)
    requires max >= 2 && Sits(store, base, Assemble(tree, w, max))
    ensures
      var root := base + |Assemble(tree, w, max)| - 1;
      && TreeAt(store, root) == Some(Patch(|w.dependencies|, max - 1, tree))
      && ContextOf(store, base, w, max) == Context(store, store[root].dependencies)
  {
  }

  /** Loading gives the published value up to marks, and exactly when all handles of a place agree. */
  ghost predicate RoundTrips(objects: Objects, store: Store, ref: Ref, v: Value) {
    && Load(store, ref).Done?
    && Unmarked(Load(store, ref).value) == Unmarked(Meaning(objects, v))
    && (Load(store, ref).value == Meaning(objects, v) <==> HandlesAgree(objects, v))
  }

  lemma AssembledTree(
    objects: Objects, before: Store, store: Store, base: nat, tree: Node, w: Writer, v: Value, max: nat)
    requires max >= 2 && before <= store && Backed(objects, before)
    requires Encodes(objects, w, tree, v) && Sits(store, base, Assemble(tree, w, max))
    ensures
      var c, n := ContextOf(store, base, w, max), Patch(|w.dependencies|, max - 1, tree);
      && Sound(c, n) && Fill(c, n, d => Own(c, d)) == Meaning(objects, v)
      && (Agree(c, Tensors(n)) <==> HandlesAgree(objects, v))
  {
    var c := ContextOf(store, base, w, max);
    AssembledCovers(before, store, base, tree, w, max);
    EncodesReads(objects, before, c, w, max - 1, tree, v);
    AgreeIffHandlesAgree(objects, before, c, w, max - 1, tree, v);
  }

  lemma AssembledRead(
    objects: Objects, before: Store, store: Store, base: nat, tree: Node, w: Writer, v: Value, max: nat, root: nat)
    returns (c: Context, n: Node)
    requires max >= 2 && before <= store && Backed(objects, before)
    requires Encodes(objects, w, tree, v) && Sits(store, base, Assemble(tree, w, max))
    requires root == base + |Assemble(tree, w, max)| - 1
    ensures TreeAt(store, root) == Some(n) && c == Context(store, store[root].dependencies)
    ensures Sound(c, n) && Fill(c, n, d => Own(c, d)) == Meaning(objects, v)
    ensures Agree(c, Tensors(n)) <==> HandlesAgree(objects, v)
  {
    AssembledRoot(store, base, tree, w, max);
    AssembledTree(objects, before, store, base, tree, w, v, max);
    c, n := ContextOf(store, base, w, max), Patch(|w.dependencies|, max - 1, tree);
  }

  /** `pubs` are the publications of some faithful encoding of `v`. */
  ghost predicate Publishes(objects: Objects, v: Value, max: nat, pubs: seq<Publication>)
    requires max >= 2
  {
    pubs != [] && exists tree, w :: Encodes(objects, w, tree, v) && pubs == Assemble(tree, w, max)
  }

  lemma PreparedPublishes(objects: Objects, v: Value, max: nat)
    requires max >= 2
    ensures Publishes(objects, v, max, Prepared(objects, v, max))
  {
    var (tree, w) := Visit(objects, FRESH, v);
    VisitEncodes(objects, FRESH, v);
  }

  /** The published tree loads, says what the value means, and shares exactly what the value's handles share. */
  lemma PublishedTree(
    objects: Objects, before: Store, store: Store, base: nat, v: Value, max: nat, pubs: seq<Publication>, root: nat)
    returns (c: Context, n: Node)
    requires max >= 2 && before <= store && Backed(objects, before)
    requires Publishes(objects, v, max, pubs) && Sits(store, base, pubs) && root == base + |pubs| - 1
    ensures TreeAt(store, root) == Some(n) && c == Context(store, store[root].dependencies)
    ensures Sound(c, n) && Fill(c, n, d => Own(c, d)) == Meaning(objects, v)
    ensures Agree(c, Tensors(n)) <==> HandlesAgree(objects, v)
  {
    var tree, w :| Encodes(objects, w, tree, v) && pubs == Assemble(tree, w, max);
    c, n := AssembledRead(objects, before, store, base, tree, w, v, max, root);
  }

  lemma RoundTrip(
    objects: Objects, before: Store, store: Store, base: nat, v: Value, max: nat, pubs: seq<Publication>, root: nat)
    requires max >= 2 && before <= store && Backed(objects, before)
    requires Publishes(objects, v, max, pubs) && Sits(store, base, pubs) && root == base + |pubs| - 1
    ensures RoundTrips(objects, store, root, v)
  {
    var c, n := PublishedTree(objects, before, store, base, v, max, pubs, root);
    DecodeIffAgree(c, n);
    DecodeUpToMarks(c, n);
  }

  // ------------------------------------------------------------- marks can be lost

  /** Two handles of one stored tensor, of which only the first is marked as validated. */
  function TwoHandles(id: Id): TensorObject {
    Stored(Tensor([0], "int32", []), Place(0, 0), true, None, id == 0)
  }

  const ONE_TENSOR: Store := [StoredSet([TensorRecord(Tensor([0], "int32", []))], [])]

  const BOTH := Branch(List, [TensorAt(0), TensorAt(1)])

  /** A list of both is loaded with the same mark twice. */
  lemma MarksCanBeLost(max: nat, pubs: seq<Publication>, store: Store)
    requires max >= 2 && Publishes(TwoHandles, BOTH, max, pubs) && store == ONE_TENSOR + Link(1, pubs)
    ensures Load(store, |pubs|).Done? && Load(store, |pubs|).value != Meaning(TwoHandles, BOTH)
  {
    AppendedSits(ONE_TENSOR, pubs);
    TwoHandlesDisagree();
    RoundTrip(TwoHandles, ONE_TENSOR, store, 1, BOTH, max, pubs, |pubs|);
    LoadedOrNot(TwoHandles, store, |pubs|, BOTH);
  }

  lemma LoadedOrNot(objects: Objects, store: Store, ref: Ref, v: Value)
    requires RoundTrips(objects, store, ref, v) && !HandlesAgree(objects, v)
    ensures Load(store, ref).Done? && Load(store, ref).value != Meaning(objects, v)
  {
  }

  lemma TwoHandlesDisagree()
    ensures !HandlesAgree(TwoHandles, BOTH)
  {
    var v := BOTH;
    var a, b := Use(0, true, None, false), Use(1, true, None, false);
    assert v.parts[1..] == [TensorAt(1)];
    assert a in Uses(TwoHandles, v) && b in Uses(TwoHandles, v);
    assert SamePlace(TwoHandles, a, b) && !SameMarks(TwoHandles, a, b);
  }

  // ------------------------------------------------------------- methods

  method Prepare(objects: Objects, v: Value, max: nat) returns (pubs: seq<Publication>)
    requires max >= 2
    ensures pubs == Prepared(objects, v, max)
    ensures Publishable(pubs, max) && Publishes(objects, v, max, pubs)
  {
    var (n, w) := Visit(objects, FRESH, v);
    var chunks, positions := ChunkBlobs(w.blobs, |w.dependencies|, max);
    var tree := Patch(|w.dependencies|, max - 1, n);
    pubs := chunks + [Publication([Collection(1, tree)], RootDependencies(w.dependencies, |chunks|))];
    AssembledFits(n, w, max);
    PreparedPublishes(objects, v, max);
  }

  /** `publish`: the reference that is returned loads to the value. */
  method PublishValue(objects: Objects, store: Store, v: Value, max: nat) returns (store': Store, ref: Ref)
    requires max >= 2 && Backed(objects, store)
    ensures store <= store' && RoundTrips(objects, store', ref, v)
  {
    var pubs := Prepare(objects, v, max);
    var refs;
    store', refs := Publish(store, pubs, max);
    ref := refs[|refs| - 1];
    AppendedSits(store, pubs);
    RoundTrip(objects, store, store', |store|, v, max, pubs, ref);
  }

  /**
   `publish` from the object itself. A value that contains itself or something of
   an unknown type is refused before anything is written.
   */
  method PublishObject(heap: ObjectGraph.Heap, objects: Objects, store: Store, id: Id, max: nat)
    returns (store': Store, ref: Option<Ref>)
    requires max >= 2 && Backed(objects, store) && ObjectGraph.WellFormed(heap) && id in heap
    ensures store <= store' && (ref.None? ==> store' == store)
    ensures ref.None? <==> ObjectGraph.Refusable(heap, id)
    ensures ref.Some? ==> exists v :: ObjectGraph.Denotes(heap, id, v) && RoundTrips(objects, store', ref.value, v)
  {
    ObjectGraph.RefusedIffBadPath(heap, id);
    match ObjectGraph.Unfold(heap, id, {})
    case Error(_) =>
      store', ref := store, None;
    case Value(v) =>
      ObjectGraph.UnfoldDenotes(heap, id, {});
      var root;
      store', root := PublishValue(objects, store, v, max);
      ref := Some(root);
  }

  /** A publication moved by `offset` in its list. */
  function Shifted(p: Publication, offset: nat): (r: Publication)
    ensures r.records == p.records && |r.dependencies| == |p.dependencies|
    ensures forall j | 0 <= j < |p.dependencies| :: r.dependencies[j] == ShiftedDependency(p.dependencies[j], offset)
  {
    Publication(p.records,
      seq(|p.dependencies|, j requires 0 <= j < |p.dependencies| => ShiftedDependency(p.dependencies[j], offset)))
  }

  function ShiftedDependency(d: Dependency, offset: nat): Dependency {
    if d.Earlier? then Earlier(d.index + offset) else d
  }

  function ShiftedAll(pubs: seq<Publication>, offset: nat): (r: seq<Publication>)
    ensures |r| == |pubs| && forall i | 0 <= i < |pubs| :: r[i] == Shifted(pubs[i], offset)
  {
    seq(|pubs|, i requires 0 <= i < |pubs| => Shifted(pubs[i], offset))
  }

  /** A moved list links to the record sets it would have had on its own. */
  lemma ShiftedLinks(base: nat, pubs: seq<Publication>, offset: nat)
    ensures Link(base, ShiftedAll(pubs, offset)) == Link(base + offset, pubs)
  {
    forall i | 0 <= i < |pubs|
      ensures Resolve(base, ShiftedAll(pubs, offset)[i].dependencies) == Resolve(base + offset, pubs[i].dependencies)
    {
    }
  }

  lemma ShiftedPublishable(all: seq<Publication>, pubs: seq<Publication>, max: nat)
    requires Publishable(all, max) && Publishable(pubs, max)
    ensures Publishable(all + ShiftedAll(pubs, |all|), max)
  {
  }

  /** The list `pubs` was joined into `all`, its last element at index `root`. */
  ghost predicate Placed(all: seq<Publication>, pubs: seq<Publication>, root: nat) {
    var offset := root + 1 - |pubs|;
    0 <= offset && root < |all| && all[offset..root + 1] == ShiftedAll(pubs, offset)
  }

  lemma PlacedSits(store: Store, base: nat, all: seq<Publication>, pubs: seq<Publication>, root: nat, own: nat)
    requires Placed(all, pubs, root) && Sits(store, base, all) && own == base + root + 1 - |pubs|
    ensures Sits(store, own, pubs)
  {
    var offset: nat := root + 1 - |pubs|;
    ShiftedLinks(base, pubs, offset);
    LinkSlice(base, all, offset, root + 1);
    SliceOfSlice(store, base, base + |all|, offset, root + 1);
  }

  lemma LinkSlice(base: nat, all: seq<Publication>, from: nat, to: nat)
    requires from <= to <= |all|
    ensures Link(base, all)[from..to] == Link(base, all[from..to])
  {
  }

  /** Some faithful encoding of `v` was joined into `all`, its tree at index `root`. */
  ghost predicate Joined(objects: Objects, all: seq<Publication>, v: Value, max: nat, root: nat)
    requires max >= 2
  {
    exists pubs :: Publishes(objects, v, max, pubs) && Placed(all, pubs, root)
  }

  lemma JoinedRoundTrips(
    objects: Objects, store: Store, store': Store, all: seq<Publication>, v: Value, max: nat, root: nat, ref: Ref)
    requires max >= 2 && store <= store' && Backed(objects, store)
    requires Joined(objects, all, v, max, root) && Sits(store', |store|, all) && ref == |store| + root
    ensures RoundTrips(objects, store', ref, v)
  {
    var pubs :| Publishes(objects, v, max, pubs) && Placed(all, pubs, root);
    var base: nat := |store| + root + 1 - |pubs|;
    PlacedSits(store', |store|, all, pubs, root, base);
    RoundTrip(objects, store, store', base, v, max, pubs, ref);
  }

  /** `publish_many`: one round trip for every value; an empty list is refused. */
  method PublishMany(objects: Objects, store: Store, values: seq<Value>, max: nat)
    returns (store': Store, refs: Option<seq<Ref>>)
    requires max >= 2 && Backed(objects, store)
    ensures store <= store' && (refs.None? <==> values == []) && (refs.None? ==> store' == store)
    ensures refs.Some? ==>
      |refs.value| == |values| && forall k | 0 <= k < |values| :: RoundTrips(objects, store', refs.value[k], values[k])
  {
    var all, roots := JoinPrepared(objects, values, max);
    if values == [] {
      return store, None;
    }
    var published;
    store', published := Publish(store, all, max);
    AppendedSits(store, all);
    forall k | 0 <= k < |values|
      ensures RoundTrips(objects, store', published[roots[k]], values[k])
    {
      assert Joined(objects, all, values[k], max, roots[k]);
      JoinedRoundTrips(objects, store, store', all, values[k], max, roots[k], published[roots[k]]);
    }
    refs := Some(seq(|roots|, k requires 0 <= k < |roots| => published[roots[k]]));
  }

  /** The joining loop of `publish_many`. */
  method JoinPrepared(objects: Objects, values: seq<Value>, max: nat)
    returns (all: seq<Publication>, roots: seq<nat>)
    requires max >= 2
    ensures Publishable(all, max) && |roots| == |values|
    ensures AllJoined(objects, all, values, max, roots)
  {
    all, roots := [], [];
    var i := 0;
    while i < |values|
      invariant i <= |values| && |roots| == i && Publishable(all, max)
      invariant AllJoined(objects, all, values[..i], max, roots)
    {
      var pubs := Prepare(objects, values[i], max);
      ShiftedPublishable(all, pubs, max);
      var before := all;
      all := all + ShiftedAll(pubs, |all|);
      AllStillJoined(objects, before, all, values[..i], max, roots);
      JustPlaced(before, pubs);
      var root: nat := |all| - 1;
      OneMoreJoined(objects, all, values[..i], values[i], max, roots, root, pubs);
      PrefixNext(values, i);
      roots := roots + [root];
      i := i + 1;
    }
    WholePrefix(values);
  }

  ghost predicate AllJoined(objects: Objects, all: seq<Publication>, values: seq<Value>, max: nat, roots: seq<nat>)
    requires max >= 2
  {
    && |roots| == |values|
    && forall k | 0 <= k < |values| :: roots[k] < |all| && Joined(objects, all, values[k], max, roots[k])
  }

  lemma AllStillJoined(
    objects: Objects, all: seq<Publication>, all': seq<Publication>, values: seq<Value>, max: nat, roots: seq<nat>)
    requires max >= 2 && all <= all' && AllJoined(objects, all, values, max, roots)
    ensures AllJoined(objects, all', values, max, roots)
  {
  }

  lemma OneMoreJoined(
    objects: Objects, all: seq<Publication>, values: seq<Value>, v: Value, max: nat, roots: seq<nat>, root: nat,
    pubs: seq<Publication>)
    requires max >= 2 && AllJoined(objects, all, values, max, roots)
    requires Publishes(objects, v, max, pubs) && Placed(all, pubs, root)
    ensures AllJoined(objects, all, values + [v], max, roots + [root])
  {
  }

  lemma JustPlaced(before: seq<Publication>, pubs: seq<Publication>)
    requires pubs != []
    ensures
      var all := before + ShiftedAll(pubs, |before|);
      Placed(all, pubs, |all| - 1)
  {
  }
}
