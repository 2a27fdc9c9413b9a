/** Encoding a value (vime/data/codec.py, `prepare`): the tree, the tensors moved out of it, and the dependencies. */
module CodecEncode {
  import opened Common
  import opened CodecValues

  /** Aliases are indexed by object identity and by how the tensor is used. */
  datatype Identity = Identity(id: Id, lazy: bool, kind: Option<string>, validated: bool)

  /** `owners[i]` is the descriptor of the tensor moved out as `blobs[i]`. */
  datatype Writer = Writer(
    blobs: seq<Tensor>, owners: seq<Descriptor>, dependencies: seq<Ref>, aliases: map<Identity, Descriptor>)

  const FRESH := Writer([], [], [], map[])

  function IndexOf(refs: seq<Ref>, ref: Ref): (i: nat)
    ensures i <= |refs|
    ensures i < |refs| ==> refs[i] == ref
    ensures i == |refs| ==> ref !in refs
  {
    if refs == [] then 0
    else if refs[0] == ref then 0
    else 1 + IndexOf(refs[1..], ref)
  }

  function WithRef(refs: seq<Ref>, ref: Ref): (r: seq<Ref>)
    ensures refs <= r && ref in r
  {
    if ref in refs then refs else refs + [ref]
  }

  function WithDependency(w: Writer, ref: Ref): Writer {
    w.(dependencies := WithRef(w.dependencies, ref))
  }

  /** Kind of a lazy tensor: a shared handle keeps its own. */
  function KindOf(o: TensorObject, kind: Option<string>): Option<string> {
    match o
    case InMemory(_) => kind
    case Stored(_, _, shares, own, _) => if shares || kind.None? then own else kind
  }

  function ValidatedOf(o: TensorObject, validated: bool): bool {
    validated || (o.Stored? && o.validated)
  }

  function Describe(slot: Slot, data: Tensor, lazy: bool, kind: Option<string>, validated: bool): Descriptor {
    Descriptor(slot, data.shape, data.dtype, lazy, kind, validated)
  }

  /** A tensor that is written out as a new blob. */
  function WriteBlob(w: Writer, data: Tensor, lazy: bool, kind: Option<string>, validated: bool): (Descriptor, Writer) {
    var d := Describe(Blob(|w.blobs|), data, lazy, kind, validated);
    (d, w.(blobs := w.blobs + [data], owners := w.owners + [d]))
  }

  /** A tensor already in this store is named, not copied. */
  function WriteShared(w: Writer, o: TensorObject, lazy: bool, validated: bool): (Descriptor, Writer)
    requires o.Stored?
  {
    var w' := WithDependency(w, o.at.ref);
    var slot := At(IndexOf(w'.dependencies, o.at.ref), o.at.ordinal);
    (Describe(slot, o.data, lazy, o.kind, ValidatedOf(o, validated)), w')
  }

  function WriteNew(w: Writer, o: TensorObject, i: Identity): (Descriptor, Writer) {
    if o.Stored? && o.shares then WriteShared(w, o, i.lazy, i.validated)
    else WriteBlob(w, o.data, i.lazy, KindOf(o, i.kind), ValidatedOf(o, i.validated))
  }

  /** One tensor object in one use is written once. */
  function WriteTensor(objects: Objects, w: Writer, i: Identity): (Descriptor, Writer) {
    if i in w.aliases then (w.aliases[i], w)
    else
      var (d, w') := WriteNew(w, objects(i.id), i);
      (d, w'.(aliases := w'.aliases[i := d]))
  }

  function WriteScalar(s: Scalar): Node {
    if s.NonFinite? then NFloat(SpecialName(s.special)) else NPrim(s)
  }

  function Visit(objects: Objects, w: Writer, v: Value): (Node, Writer)
    decreases v
  {
    match v
    case Prim(s) => (WriteScalar(s), w)
    case NumpyScalar(s) => (WriteScalar(s), w)
    case Bytes(bytes, _) => (NBytes(bytes), w)
    case Status(name) => (NStatus(name), w)
    case Image(png) => (NImage(png), w)
    case RecordSet(ref) =>
      var w' := WithDependency(w, ref);
      (NRecordSet(IndexOf(w'.dependencies, ref)), w')
    case TensorAt(id) =>
      var (d, w') := WriteTensor(objects, w, Identity(id, objects(id).Stored?, None, false));
      (NTensor(d), w')
    case ArrayAt(id) =>
      var (d, w') := WriteTensor(objects, w, Identity(id, false, None, false));
      (NArray(d), w')
    case Capture(id, field, checked) =>
      var (d, w') :=
        if objects(id).Stored? then WriteTensor(objects, w, Identity(id, true, Some(field), checked))
        else WriteBlob(w, objects(id).data, true, Some(field), checked);
      (NTensor(d), w')
    case Branch(tag, parts) =>
      var (tag', w') := VisitTag(w, tag);
      var (nodes, w'') := VisitAll(objects, w', parts);
      (NBranch(tag', nodes), w'')
  }

  /** A rollout reference becomes a dependency; other containers have none. */
  function VisitTag(w: Writer, tag: Tag<Ref>): (Tag<nat>, Writer) {
    match tag
    case List => (List, w)
    case Tuple => (Tuple, w)
    case Dict => (Dict, w)
    case Sample => (Sample, w)
    case SpecInfo => (SpecInfo, w)
    case PrefixCacheInfo => (PrefixCacheInfo, w)
    case DynamicFilter => (DynamicFilter, w)
    case Rollout(cls, ref) =>
      var w' := WithDependency(w, ref);
      (Rollout(cls, IndexOf(w'.dependencies, ref)), w')
  }

  function VisitAll(objects: Objects, w: Writer, vs: seq<Value>): (seq<Node>, Writer)
    decreases vs
  {
    if vs == [] then ([], w)
    else
      var (n, w') := Visit(objects, w, vs[0]);
      var (ns, w'') := VisitAll(objects, w', vs[1..]);
      ([n] + ns, w'')
  }

  // ------------------------------------------------------------- chunks

  /** Where blob `i` ends up: its chunk follows `base` other dependencies. */
  function PlaceOf(base: nat, size: nat, slot: Slot): Slot
    requires size > 0
  {
    match slot
    case Blob(i) => At(base + i / size, i % size)
    case At(_, _) => slot
  }

  function PatchTensor(base: nat, size: nat, d: Descriptor): Descriptor
    requires size > 0
  {
    d.(slot := PlaceOf(base, size, d.slot))
  }

  /** The tree with every blob index replaced by its final place. */
  function Patch(base: nat, size: nat, n: Node): Node
    requires size > 0
  {
    match n
    case NTensor(d) => NTensor(PatchTensor(base, size, d))
    case NArray(d) => NArray(PatchTensor(base, size, d))
    case NBranch(tag, parts) => NBranch(tag, PatchAll(base, size, parts))
    case _ => n
  }

  function PatchAll(base: nat, size: nat, ns: seq<Node>): (r: seq<Node>)
    requires size > 0
    ensures |r| == |ns| && forall i | 0 <= i < |ns| :: r[i] == Patch(base, size, ns[i])
  {
    if ns == [] then [] else [Patch(base, size, ns[0])] + PatchAll(base, size, ns[1..])
  }
}
