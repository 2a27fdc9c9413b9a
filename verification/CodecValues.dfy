/**
 The values of the durable codec (vime/data/codec.py): what may be published, what
 loading gives back, and the tagged tree in between. Text encodings of JSON,
 bytes and images are taken as exact.
 */
module CodecValues {
  import opened Common

  type Id = nat
  type Ref = nat

  /** Elements are bit patterns in row-major order. */
  datatype Tensor = Tensor(shape: seq<nat>, dtype: string, elements: seq<nat>)

  datatype Special = PosInf | NegInf | NotANumber

  datatype Scalar =
    | Null | Bool(b: bool) | Int(i: int) | Text(text: string) | Finite(r: real) | NonFinite(special: Special)

  /** One tensor record of a stored record set. */
  datatype Place = Place(ref: Ref, ordinal: nat)

  /** A tensor in memory, or a handle of one in storage; `shares` says it is in the codec's own store. */
  datatype TensorObject =
    | InMemory(data: Tensor)
    | Stored(data: Tensor, at: Place, shares: bool, kind: Option<string>, validated: bool)

  /** The tensor behind each object identity. */
  type Objects = Id -> TensorObject

  datatype RefClass = DiskPayload | RawRollout | RolloutGroup | TrainBatch

  /** Containers; a dictionary's parts are its keys and values in turn. */
  datatype Tag<R> =
    | List | Tuple | Dict | Sample | SpecInfo | PrefixCacheInfo | DynamicFilter | Rollout(cls: RefClass, ref: R)

  /** A value to publish. `Capture` is a sampler capture field of a sample. */
  datatype Value =
    | Prim(scalar: Scalar)
    | NumpyScalar(scalar: Scalar)
    | Bytes(bytes: seq<nat>, mutable: bool)
    | Status(name: string)
    | Image(png: seq<nat>)
    | RecordSet(ref: Ref)
    | TensorAt(id: Id)
    | ArrayAt(id: Id)
    | Capture(id: Id, field: string, checked: bool)
    | Branch(tag: Tag<Ref>, parts: seq<Value>)

  /** A loaded value; `LLazy` is a tensor that has not been read yet. */
  datatype Loaded =
    | LPrim(scalar: Scalar)
    | LBytes(bytes: seq<nat>)
    | LStatus(name: string)
    | LImage(png: seq<nat>)
    | LRecordSet(ref: Ref)
    | LTensor(data: Tensor)
    | LArray(data: Tensor)
    | LLazy(data: Tensor, kind: Option<string>, validated: bool)
    | LBranch(tag: Tag<Ref>, parts: seq<Loaded>)

  datatype Slot = Blob(index: nat) | At(dependency: nat, ordinal: nat)

  datatype Descriptor = Descriptor(
    slot: Slot, shape: seq<nat>, dtype: string, lazy: bool, kind: Option<string>, validated: bool)

  /** The tagged tree. Containers name a record set by its index among the dependencies. */
  datatype Node =
    | NPrim(scalar: Scalar)
    | NFloat(name: string)
    | NBytes(bytes: seq<nat>)
    | NStatus(name: string)
    | NImage(png: seq<nat>)
    | NRecordSet(dependency: nat)
    | NTensor(tensor: Descriptor)
    | NArray(tensor: Descriptor)
    | NBranch(tag: Tag<nat>, parts: seq<Node>)
    | NUnknown(name: string)

  datatype Record = TensorRecord(data: Tensor) | Collection(version: nat, tree: Node)

  datatype StoredSet = StoredSet(records: seq<Record>, dependencies: seq<Ref>)

  type Store = seq<StoredSet>

  /** The store has tensor `data` at `place`. */
  predicate HoldsTensor(store: Store, place: Place, data: Tensor) {
    && place.ref < |store|
    && place.ordinal < |store[place.ref].records|
    && store[place.ref].records[place.ordinal] == TensorRecord(data)
  }

  // ------------------------------------------------------------- meaning

  /**
   What a tensor is once loaded that may not be read yet. A tensor in memory is used as
   it is said to be; a handle keeps its mark, and its kind where it is shared or no
   other is given.
   */
  function LazyMeaning(o: TensorObject, kind: Option<string>, validated: bool): Loaded {
    match o
    case InMemory(data) => LLazy(data, kind, validated)
    case Stored(data, _, true, own, marked) => LLazy(data, own, validated || marked)
    case Stored(data, _, false, own, marked) => LLazy(data, if kind.Some? then kind else own, validated || marked)
  }

  /** What a value is once loaded: lazy tensors stay lazy, numpy scalars and byte arrays are normalised. */
  function Meaning(objects: Objects, v: Value): Loaded {
    match v
    case Prim(s) => LPrim(s)
    case NumpyScalar(s) => LPrim(s)
    case Bytes(bytes, _) => LBytes(bytes)
    case Status(name) => LStatus(name)
    case Image(png) => LImage(png)
    case RecordSet(ref) => LRecordSet(ref)
    case TensorAt(id) =>
      if objects(id).Stored? then LazyMeaning(objects(id), None, false) else LTensor(objects(id).data)
    case ArrayAt(id) => LArray(objects(id).data)
    case Capture(id, field, checked) => LazyMeaning(objects(id), Some(field), checked)
    case Branch(tag, parts) => LBranch(tag, MeaningAll(objects, parts))
  }

  function MeaningAll(objects: Objects, vs: seq<Value>): (r: seq<Loaded>)
    ensures |r| == |vs| && forall i | 0 <= i < |vs| :: r[i] == Meaning(objects, vs[i])
  {
    if vs == [] then [] else [Meaning(objects, vs[0])] + MeaningAll(objects, vs[1..])
  }

  /** The value without the kinds and validated marks of its lazy tensors. */
  function Unmarked(l: Loaded): Loaded {
    match l
    case LLazy(data, _, _) => LLazy(data, None, false)
    case LBranch(tag, parts) => LBranch(tag, UnmarkedAll(parts))
    case _ => l
  }

  function UnmarkedAll(ls: seq<Loaded>): (r: seq<Loaded>)
    ensures |r| == |ls| && forall i | 0 <= i < |ls| :: r[i] == Unmarked(ls[i])
  {
    if ls == [] then [] else [Unmarked(ls[0])] + UnmarkedAll(ls[1..])
  }

  function SpecialName(s: Special): string {
    match s
    case PosInf => "inf"
    case NegInf => "-inf"
    case NotANumber => "nan"
  }

  function ParseSpecial(name: string): (r: Option<Special>)
    ensures r.Some? ==> SpecialName(r.value) == name
    ensures r.None? ==> forall s :: SpecialName(s) != name
  {
    if name == "inf" then Some(PosInf)
    else if name == "-inf" then Some(NegInf)
    else if name == "nan" then Some(NotANumber)
    else None
  }
}
