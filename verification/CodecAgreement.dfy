/**
 When sharing shows. Loading keeps one object per stored place, whatever the kind
 and the validated mark of the later descriptors, so the round trip is exact
 precisely when all handles of one place carry the same marks.
 */
module CodecAgreement {
  import opened Common
  import opened CodecValues
  import opened CodecEncode
  import opened CodecDecode
  import opened CodecRoundTrip

  /** One way a value uses a tensor object. */
  datatype Use = Use(id: Id, lazy: bool, kind: Option<string>, validated: bool)

  function Uses(objects: Objects, v: Value): set<Use> {
    match v
    case TensorAt(id) => {Use(id, objects(id).Stored?, None, false)}
    case ArrayAt(id) => {Use(id, false, None, false)}
    case Capture(id, field, checked) => {Use(id, true, Some(field), checked)}
    case Branch(_, parts) => UsesAll(objects, parts)
    case _ => {}
  }

  function UsesAll(objects: Objects, vs: seq<Value>): set<Use> {
    if vs == [] then {} else Uses(objects, vs[0]) + UsesAll(objects, vs[1..])
  }

  /** Both uses read the same place of the store lazily. */
  predicate SamePlace(objects: Objects, a: Use, b: Use) {
    && SharesStorage(objects(a.id)) && SharesStorage(objects(b.id)) && a.lazy && b.lazy
    && objects(a.id).at == objects(b.id).at
  }

  /** Both uses leave the same kind and the same validated mark. */
  predicate SameMarks(objects: Objects, a: Use, b: Use) {
    && KindOf(objects(a.id), a.kind) == KindOf(objects(b.id), b.kind)
    && ValidatedOf(objects(a.id), a.validated) == ValidatedOf(objects(b.id), b.validated)
  }

  ghost predicate HandlesAgree(objects: Objects, v: Value) {
    forall a, b | a in Uses(objects, v) && b in Uses(objects, v) && SamePlace(objects, a, b) ::
      SameMarks(objects, a, b)
  }

  ghost predicate UseFits(objects: Objects, w: Writer, d: Descriptor, u: Use) {
    Fits(w, d, objects(u.id), u.lazy, u.kind, u.validated)
  }

  /** Every descriptor of the patched tree comes from a use of the value. */
  lemma {:induction false} TensorHasUse(objects: Objects, w: Writer, size: nat, n: Node, v: Value, d: Descriptor)
    returns (u: Use, o: Descriptor)
    requires size > 0 && Encodes(objects, w, n, v) && d in Tensors(Patch(|w.dependencies|, size, n))
    ensures u in Uses(objects, v) && UseFits(objects, w, o, u) && d == PatchTensor(|w.dependencies|, size, o)
    decreases v
  {
    match v
    case TensorAt(id) => u, o := Use(id, objects(id).Stored?, None, false), n.tensor;
    case ArrayAt(id) => u, o := Use(id, false, None, false), n.tensor;
    case Capture(id, field, checked) => u, o := Use(id, true, Some(field), checked), n.tensor;
    case Branch(_, parts) => u, o := TensorHasUseAll(objects, w, size, n.parts, parts, d);
  }

  lemma {:induction false} TensorHasUseAll(
    objects: Objects, w: Writer, size: nat, ns: seq<Node>, vs: seq<Value>, d: Descriptor)
    returns (u: Use, o: Descriptor)
    requires size > 0 && EncodesAll(objects, w, ns, vs) && d in TensorsAll(PatchAll(|w.dependencies|, size, ns))
    ensures u in UsesAll(objects, vs) && UseFits(objects, w, o, u) && d == PatchTensor(|w.dependencies|, size, o)
    decreases vs
  {
    if d in Tensors(Patch(|w.dependencies|, size, ns[0])) {
      u, o := TensorHasUse(objects, w, size, ns[0], vs[0], d);
    } else {
      u, o := TensorHasUseAll(objects, w, size, ns[1..], vs[1..], d);
    }
  }

  /** Every use of the value has its descriptor in the patched tree. */
  lemma {:induction false} UseHasTensor(objects: Objects, w: Writer, size: nat, n: Node, v: Value, u: Use)
    returns (o: Descriptor)
    requires size > 0 && Encodes(objects, w, n, v) && u in Uses(objects, v)
    ensures UseFits(objects, w, o, u)
    ensures PatchTensor(|w.dependencies|, size, o) in Tensors(Patch(|w.dependencies|, size, n))
    decreases v
  {
    if v.Branch? {
      o := UseHasTensorAll(objects, w, size, n.parts, v.parts, u);
    } else {
      o := n.tensor;
    }
  }

  lemma {:induction false} UseHasTensorAll(
    objects: Objects, w: Writer, size: nat, ns: seq<Node>, vs: seq<Value>, u: Use)
    returns (o: Descriptor)
    requires size > 0 && EncodesAll(objects, w, ns, vs) && u in UsesAll(objects, vs)
    ensures UseFits(objects, w, o, u)
    ensures PatchTensor(|w.dependencies|, size, o) in TensorsAll(PatchAll(|w.dependencies|, size, ns))
    decreases vs
  {
    if u in Uses(objects, vs[0]) {
      o := UseHasTensor(objects, w, size, ns[0], vs[0], u);
    } else {
      o := UseHasTensorAll(objects, w, size, ns[1..], vs[1..], u);
    }
  }

  // ------------------------------------------------------------- places

  lemma SlotUnique(size: nat, i: nat, j: nat)
    requires size > 0 && i / size == j / size && i % size == j % size
    ensures i == j
  {
    assert i == size * (i / size) + i % size;
    assert j == size * (j / size) + j % size;
  }

  /** A blob has one place, of its own: equal places mean the same descriptor. */
  lemma BlobPlace(objects: Objects, w: Writer, size: nat, o: Descriptor, u: Use, o': Descriptor, u': Use)
    requires size > 0 && UseFits(objects, w, o, u) && UseFits(objects, w, o', u')
    requires !SharesStorage(objects(u.id))
    requires PlaceOf(|w.dependencies|, size, o.slot) == PlaceOf(|w.dependencies|, size, o'.slot)
    ensures o == o'
  {
    var i := o.slot.index;
    assert 0 <= i / size;
    if o'.slot.Blob? {
      SlotUnique(size, i, o'.slot.index);
    }
  }

  /** Shared handles have the same place in the tree exactly when they have the same place in the store. */
  lemma SharedPlace(objects: Objects, w: Writer, size: nat, o: Descriptor, u: Use, o': Descriptor, u': Use)
    requires size > 0 && UseFits(objects, w, o, u) && UseFits(objects, w, o', u')
    requires SharesStorage(objects(u.id)) && SharesStorage(objects(u'.id))
    ensures o.slot == o'.slot <==> objects(u.id).at == objects(u'.id).at
  {
  }

  lemma AgreePair(
    objects: Objects, store: Store, c: Context, w: Writer, size: nat, v: Value,
    o: Descriptor, u: Use, o': Descriptor, u': Use)
    requires size > 0 && Covers(c, store, w, size) && Backed(objects, store) && HandlesAgree(objects, v)
    requires u in Uses(objects, v) && u' in Uses(objects, v)
    requires UseFits(objects, w, o, u) && UseFits(objects, w, o', u')
    requires KeyOf(PatchTensor(|w.dependencies|, size, o)) == KeyOf(PatchTensor(|w.dependencies|, size, o'))
    ensures Own(c, PatchTensor(|w.dependencies|, size, o)) == Own(c, PatchTensor(|w.dependencies|, size, o'))
  {
    if !SharesStorage(objects(u.id)) {
      BlobPlace(objects, w, size, o, u, o', u');
    } else if !SharesStorage(objects(u'.id)) {
      BlobPlace(objects, w, size, o', u', o, u);
    } else {
      SharedPlace(objects, w, size, o, u, o', u');
      FitsReads(objects, store, c, w, size, o, u.id, u.lazy, u.kind, u.validated);
      FitsReads(objects, store, c, w, size, o', u'.id, u'.lazy, u'.kind, u'.validated);
      if u.lazy {
        assert SamePlace(objects, u, u');
      }
      SameData(store, objects(u.id), objects(u'.id));
    }
  }

  lemma SameData(store: Store, o: TensorObject, o': TensorObject)
    requires SharesStorage(o) && SharesStorage(o') && o.at == o'.at
    ensures HoldsTensor(store, o.at, o.data) && HoldsTensor(store, o'.at, o'.data) ==> o.data == o'.data
  {
  }

  lemma AgreeIfHandlesAgree(objects: Objects, store: Store, c: Context, w: Writer, size: nat, n: Node, v: Value)
    requires size > 0 && Covers(c, store, w, size) && Backed(objects, store) && Encodes(objects, w, n, v)
    requires HandlesAgree(objects, v)
    ensures Agree(c, Tensors(Patch(|w.dependencies|, size, n)))
  {
    var base, ds := |w.dependencies|, Tensors(Patch(|w.dependencies|, size, n));
    forall d, e | d in ds && e in ds && KeyOf(d) == KeyOf(e)
      ensures Own(c, d) == Own(c, e)
    {
      var u, o := TensorHasUse(objects, w, size, n, v, d);
      var u', o' := TensorHasUse(objects, w, size, n, v, e);
      AgreePair(objects, store, c, w, size, v, o, u, o', u');
    }
  }

  lemma HandlesAgreeIfAgree(objects: Objects, store: Store, c: Context, w: Writer, size: nat, n: Node, v: Value)
    requires size > 0 && Covers(c, store, w, size) && Backed(objects, store) && Encodes(objects, w, n, v)
    requires Agree(c, Tensors(Patch(|w.dependencies|, size, n)))
    ensures HandlesAgree(objects, v)
  {
    var base, ds := |w.dependencies|, Tensors(Patch(|w.dependencies|, size, n));
    forall u, u' | u in Uses(objects, v) && u' in Uses(objects, v) && SamePlace(objects, u, u')
      ensures SameMarks(objects, u, u')
    {
      var o := UseHasTensor(objects, w, size, n, v, u);
      var o' := UseHasTensor(objects, w, size, n, v, u');
      SharedPlace(objects, w, size, o, u, o', u');
      FitsReads(objects, store, c, w, size, o, u.id, u.lazy, u.kind, u.validated);
      FitsReads(objects, store, c, w, size, o', u'.id, u'.lazy, u'.kind, u'.validated);
      assert KeyOf(PatchTensor(base, size, o)) == KeyOf(PatchTensor(base, size, o'));
    }
  }

  lemma AgreeIffHandlesAgree(objects: Objects, store: Store, c: Context, w: Writer, size: nat, n: Node, v: Value)
    requires size > 0 && Covers(c, store, w, size) && Backed(objects, store) && Encodes(objects, w, n, v)
    ensures Agree(c, Tensors(Patch(|w.dependencies|, size, n))) <==> HandlesAgree(objects, v)
  {
    if HandlesAgree(objects, v) {
      AgreeIfHandlesAgree(objects, store, c, w, size, n, v);
    }
    if Agree(c, Tensors(Patch(|w.dependencies|, size, n))) {
      HandlesAgreeIfAgree(objects, store, c, w, size, n, v);
    }
  }
}
