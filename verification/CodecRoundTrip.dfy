/** Loading an encoded value gives the value back. */
module CodecRoundTrip {
  import opened Common
  import opened CodecValues
  import opened CodecEncode
  import opened CodecDecode

  /** Shared handles point at their tensor. */
  ghost predicate Backed(objects: Objects, store: Store) {
    forall id | SharesStorage(objects(id)) :: HoldsTensor(store, objects(id).at, objects(id).data)
  }

  predicate SharesStorage(o: TensorObject) {
    o.Stored? && o.shares
  }

  // ------------------------------------------------------------- what was written

  /** Descriptor `d` is what the writer made of object `o` in one use. */
  ghost predicate Fits(w: Writer, d: Descriptor, o: TensorObject, lazy: bool, kind: Option<string>, validated: bool) {
    && d == Describe(d.slot, o.data, lazy, KindOf(o, kind), ValidatedOf(o, validated))
    && if SharesStorage(o) then
         o.at.ref in w.dependencies && d.slot == At(IndexOf(w.dependencies, o.at.ref), o.at.ordinal)
       else
         && d.slot.Blob?
         && d.slot.index < |w.blobs| && w.blobs[d.slot.index] == o.data
         && d.slot.index < |w.owners| && w.owners[d.slot.index] == d
  }

  ghost predicate AliasesFit(objects: Objects, w: Writer) {
    && |w.owners| == |w.blobs|
    && forall i | i in w.aliases :: Fits(w, w.aliases[i], objects(i.id), i.lazy, i.kind, i.validated)
  }

  ghost predicate Grows(w: Writer, w': Writer) {
    w.blobs <= w'.blobs && w.owners <= w'.owners && w.dependencies <= w'.dependencies
  }

  lemma {:induction false} IndexStable(refs: seq<Ref>, refs': seq<Ref>, ref: Ref)
    requires refs <= refs' && ref in refs
    ensures IndexOf(refs', ref) == IndexOf(refs, ref)
  {
    if refs[0] != ref {
      IndexStable(refs[1..], refs'[1..], ref);
    }
  }

  lemma FitsStable(w: Writer, w': Writer, d: Descriptor, o: TensorObject, lazy: bool, kind: Option<string>, validated: bool)
    requires Grows(w, w') && Fits(w, d, o, lazy, kind, validated)
    ensures Fits(w', d, o, lazy, kind, validated)
  {
    if SharesStorage(o) {
      IndexStable(w.dependencies, w'.dependencies, o.at.ref);
    }
  }

  ghost predicate TagFits(w: Writer, tag: Tag<Ref>, tag': Tag<nat>) {
    match tag
    case List => tag' == List
    case Tuple => tag' == Tuple
    case Dict => tag' == Dict
    case Sample => tag' == Sample
    case SpecInfo => tag' == SpecInfo
    case PrefixCacheInfo => tag' == PrefixCacheInfo
    case DynamicFilter => tag' == DynamicFilter
    case Rollout(cls, ref) =>
      tag'.Rollout? && tag'.cls == cls && tag'.ref < |w.dependencies| && w.dependencies[tag'.ref] == ref
  }

  /** Node `n` is value `v` as the writer put it down. */
  ghost predicate Encodes(objects: Objects, w: Writer, n: Node, v: Value)
    decreases v
  {
    match v
    case Prim(s) => n == WriteScalar(s)
    case NumpyScalar(s) => n == WriteScalar(s)
    case Bytes(bytes, _) => n == NBytes(bytes)
    case Status(name) => n == NStatus(name)
    case Image(png) => n == NImage(png)
    case RecordSet(ref) =>
      n.NRecordSet? && n.dependency < |w.dependencies| && w.dependencies[n.dependency] == ref
    case TensorAt(id) => n.NTensor? && Fits(w, n.tensor, objects(id), objects(id).Stored?, None, false)
    case ArrayAt(id) => n.NArray? && Fits(w, n.tensor, objects(id), false, None, false)
    case Capture(id, field, checked) => n.NTensor? && Fits(w, n.tensor, objects(id), true, Some(field), checked)
    case Branch(tag, parts) => n.NBranch? && TagFits(w, tag, n.tag) && EncodesAll(objects, w, n.parts, parts)
  }

  ghost predicate EncodesAll(objects: Objects, w: Writer, ns: seq<Node>, vs: seq<Value>)
    decreases vs
  {
    |ns| == |vs| && (vs != [] ==> Encodes(objects, w, ns[0], vs[0]) && EncodesAll(objects, w, ns[1..], vs[1..]))
  }

  lemma {:induction false} EncodesStable(objects: Objects, w: Writer, w': Writer, n: Node, v: Value)
    requires Grows(w, w') && Encodes(objects, w, n, v)
    ensures Encodes(objects, w', n, v)
    decreases v
  {
    match v
    case TensorAt(id) => FitsStable(w, w', n.tensor, objects(id), objects(id).Stored?, None, false);
    case ArrayAt(id) => FitsStable(w, w', n.tensor, objects(id), false, None, false);
    case Capture(id, field, checked) => FitsStable(w, w', n.tensor, objects(id), true, Some(field), checked);
    case Branch(_, parts) => EncodesAllStable(objects, w, w', n.parts, parts);
    case _ =>
  }

  lemma {:induction false} EncodesAllStable(objects: Objects, w: Writer, w': Writer, ns: seq<Node>, vs: seq<Value>)
    requires Grows(w, w') && EncodesAll(objects, w, ns, vs)
    ensures EncodesAll(objects, w', ns, vs)
    decreases vs
  {
    if vs != [] {
      EncodesStable(objects, w, w', ns[0], vs[0]);
      EncodesAllStable(objects, w, w', ns[1..], vs[1..]);
    }
  }

  lemma AliasesStable(objects: Objects, w: Writer, w': Writer)
    requires AliasesFit(objects, w) && Grows(w, w') && |w'.owners| == |w'.blobs| && w'.aliases == w.aliases
    ensures AliasesFit(objects, w')
  {
    forall i | i in w'.aliases
      ensures Fits(w', w'.aliases[i], objects(i.id), i.lazy, i.kind, i.validated)
    {
      FitsStable(w, w', w.aliases[i], objects(i.id), i.lazy, i.kind, i.validated);
    }
  }

  lemma WriteTensorFits(objects: Objects, w: Writer, i: Identity)
    requires AliasesFit(objects, w)
    ensures
      var (d, w') := WriteTensor(objects, w, i);
      AliasesFit(objects, w') && Grows(w, w') && Fits(w', d, objects(i.id), i.lazy, i.kind, i.validated)
  {
    if i !in w.aliases {
      var o := objects(i.id);
      var (d, w') := WriteNew(w, o, i);
      assert Fits(w', d, o, i.lazy, i.kind, i.validated);
      AliasesStable(objects, w, w');
      var w'' := w'.(aliases := w'.aliases[i := d]);
      FitsStable(w', w'', d, o, i.lazy, i.kind, i.validated);
      forall j | j in w'.aliases
        ensures Fits(w'', w'.aliases[j], objects(j.id), j.lazy, j.kind, j.validated)
      {
        FitsStable(w', w'', w'.aliases[j], objects(j.id), j.lazy, j.kind, j.validated);
      }
    }
  }

  lemma VisitTagFits(objects: Objects, w: Writer, tag: Tag<Ref>)
    requires AliasesFit(objects, w)
    ensures
      var (tag', w') := VisitTag(w, tag);
      AliasesFit(objects, w') && Grows(w, w') && TagFits(w', tag, tag')
  {
    AliasesStable(objects, w, VisitTag(w, tag).1);
  }

  lemma TagFitsStable(w: Writer, w': Writer, tag: Tag<Ref>, tag': Tag<nat>)
    requires Grows(w, w') && TagFits(w, tag, tag')
    ensures TagFits(w', tag, tag')
  {
  }

  lemma CaptureFits(objects: Objects, w: Writer, v: Value)
    requires v.Capture? && AliasesFit(objects, w)
    ensures
      var (n, w') := Visit(objects, w, v);
      AliasesFit(objects, w') && Grows(w, w') && Encodes(objects, w', n, v)
  {
    if objects(v.id).Stored? {
      WriteTensorFits(objects, w, Identity(v.id, true, Some(v.field), v.checked));
    } else {
      AliasesStable(objects, w, Visit(objects, w, v).1);
    }
  }

  lemma {:induction false} VisitEncodes(objects: Objects, w: Writer, v: Value)
    requires AliasesFit(objects, w)
    ensures
      var (n, w') := Visit(objects, w, v);
      AliasesFit(objects, w') && Grows(w, w') && Encodes(objects, w', n, v)
    decreases v
  {
    match v
    case RecordSet(ref) => AliasesStable(objects, w, WithDependency(w, ref));
    case TensorAt(id) => WriteTensorFits(objects, w, Identity(id, objects(id).Stored?, None, false));
    case ArrayAt(id) => WriteTensorFits(objects, w, Identity(id, false, None, false));
    case Capture(id, field, checked) => CaptureFits(objects, w, v);
    case Branch(tag, parts) =>
      VisitTagFits(objects, w, tag);
      var (tag', w') := VisitTag(w, tag);
      VisitAllEncodes(objects, w', parts);
      TagFitsStable(w', VisitAll(objects, w', parts).1, tag, tag');
    case _ =>
  }

  lemma {:induction false} VisitAllEncodes(objects: Objects, w: Writer, vs: seq<Value>)
    requires AliasesFit(objects, w)
    ensures
      var (ns, w') := VisitAll(objects, w, vs);
      AliasesFit(objects, w') && Grows(w, w') && EncodesAll(objects, w', ns, vs)
    decreases vs
  {
    if vs != [] {
      VisitEncodes(objects, w, vs[0]);
      var (n, w') := Visit(objects, w, vs[0]);
      VisitAllEncodes(objects, w', vs[1..]);
      EncodesStable(objects, w', VisitAll(objects, w', vs[1..]).1, n, vs[0]);
    }
  }

  // ------------------------------------------------------------- reading it back

  /** The context holds what the writer put down, its blobs in chunks of `size` after the dependencies. */
  ghost predicate Covers(c: Context, store: Store, w: Writer, size: nat)
    requires size > 0
  {
    && store <= c.store
    && w.dependencies <= c.dependencies
    && forall i: nat | i < |w.blobs| :: HoldsBlob(c, PlaceOf(|w.dependencies|, size, Blob(i)), w.blobs[i])
  }

  predicate HoldsBlob(c: Context, slot: Slot, data: Tensor) {
    slot.At? && slot.dependency < |c.dependencies|
    && HoldsTensor(c.store, Place(c.dependencies[slot.dependency], slot.ordinal), data)
  }

  lemma FitsReads(
    objects: Objects, store: Store, c: Context, w: Writer, size: nat,
    d: Descriptor, id: Id, lazy: bool, kind: Option<string>, validated: bool)
    requires size > 0 && Covers(c, store, w, size) && Backed(objects, store)
    requires Fits(w, d, objects(id), lazy, kind, validated)
    ensures
      var d' := PatchTensor(|w.dependencies|, size, d);
      && Resolves(c, d') && d'.lazy == lazy
      && Own(c, d') == if lazy then LazyMeaning(objects(id), kind, validated) else LTensor(objects(id).data)
  {
  }

  lemma {:induction false} EncodesReads(objects: Objects, store: Store, c: Context, w: Writer, size: nat, n: Node, v: Value)
    requires size > 0 && Covers(c, store, w, size) && Backed(objects, store) && Encodes(objects, w, n, v)
    ensures
      var n' := Patch(|w.dependencies|, size, n);
      Sound(c, n') && Fill(c, n', d => Own(c, d)) == Meaning(objects, v)
    decreases v
  {
    match v
    case TensorAt(id) => FitsReads(objects, store, c, w, size, n.tensor, id, objects(id).Stored?, None, false);
    case ArrayAt(id) => FitsReads(objects, store, c, w, size, n.tensor, id, false, None, false);
    case Capture(id, field, checked) => FitsReads(objects, store, c, w, size, n.tensor, id, true, Some(field), checked);
    case Branch(tag, parts) =>
      EncodesAllReads(objects, store, c, w, size, n.parts, parts);
      TagReads(c, w, tag, n.tag);
    case _ =>
  }

  lemma TagReads(c: Context, w: Writer, tag: Tag<Ref>, tag': Tag<nat>)
    requires TagFits(w, tag, tag') && w.dependencies <= c.dependencies
    ensures LoadTag(c, tag') == Some(tag)
  {
  }

  lemma {:induction false} EncodesAllReads(
    objects: Objects, store: Store, c: Context, w: Writer, size: nat, ns: seq<Node>, vs: seq<Value>)
    requires size > 0 && Covers(c, store, w, size) && Backed(objects, store) && EncodesAll(objects, w, ns, vs)
    ensures
      var ns' := PatchAll(|w.dependencies|, size, ns);
      SoundAll(c, ns') && FillAll(c, ns', d => Own(c, d)) == MeaningAll(objects, vs)
    decreases vs
  {
    if vs != [] {
      EncodesReads(objects, store, c, w, size, ns[0], vs[0]);
      EncodesAllReads(objects, store, c, w, size, ns[1..], vs[1..]);
    }
  }
}
