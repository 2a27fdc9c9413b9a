/** Decoding the tagged tree (vime/data/codec.py, the `visit` inside `load`). */
module CodecDecode {
  import opened Common
  import opened CodecValues

  datatype Error = CorruptData | UnsupportedSchema | WrongType | OutOfRange

  /** What the tree is read against: the store and the dependencies of its record set. */
  datatype Context = Context(store: Store, dependencies: seq<Ref>)

  /** Loaded tensors are shared under their place and laziness. */
  datatype Key = Key(slot: Slot, lazy: bool)

  type Memo = map<Key, Loaded>

  datatype Outcome<T> = Done(value: T, memo: Memo) | Failed(error: Error)

  function KeyOf(d: Descriptor): Key {
    Key(d.slot, d.lazy)
  }

  /** The descriptor names a tensor record and agrees with it. */
  predicate Resolves(c: Context, d: Descriptor) {
    && d.slot.At?
    && d.slot.dependency < |c.dependencies|
    && c.dependencies[d.slot.dependency] < |c.store|
    && var records := c.store[c.dependencies[d.slot.dependency]].records;
    && d.slot.ordinal < |records|
    && records[d.slot.ordinal].TensorRecord?
    && records[d.slot.ordinal].data.shape == d.shape
    && records[d.slot.ordinal].data.dtype == d.dtype
  }

  function DataOf(c: Context, d: Descriptor): Tensor
    requires Resolves(c, d)
  {
    c.store[c.dependencies[d.slot.dependency]].records[d.slot.ordinal].data
  }

  /** What a descriptor says on its own. */
  function Own(c: Context, d: Descriptor): Loaded {
    if !Resolves(c, d) then LPrim(Null)
    else if d.lazy then LLazy(DataOf(c, d), d.kind, d.validated)
    else LTensor(DataOf(c, d))
  }

  function LoadTensor(c: Context, d: Descriptor, memo: Memo): Outcome<Loaded> {
    if KeyOf(d) in memo then Done(memo[KeyOf(d)], memo)
    else if !Resolves(c, d) then Failed(CorruptData)
    else Done(Own(c, d), memo[KeyOf(d) := Own(c, d)])
  }

  function LoadTag(c: Context, tag: Tag<nat>): Option<Tag<Ref>> {
    match tag
    case List => Some(List)
    case Tuple => Some(Tuple)
    case Dict => Some(Dict)
    case Sample => Some(Sample)
    case SpecInfo => Some(SpecInfo)
    case PrefixCacheInfo => Some(PrefixCacheInfo)
    case DynamicFilter => Some(DynamicFilter)
    case Rollout(cls, i) => if i < |c.dependencies| then Some(Rollout(cls, c.dependencies[i])) else None
  }

  function Decode(c: Context, n: Node, memo: Memo): Outcome<Loaded> {
    match n
    case NPrim(s) => Done(LPrim(s), memo)
    case NFloat(name) =>
      var s := ParseSpecial(name);
      if s.Some? then Done(LPrim(NonFinite(s.value)), memo) else Failed(CorruptData)
    case NBytes(bytes) => Done(LBytes(bytes), memo)
    case NStatus(name) => Done(LStatus(name), memo)
    case NImage(png) => Done(LImage(png), memo)
    case NRecordSet(i) =>
      if i < |c.dependencies| then Done(LRecordSet(c.dependencies[i]), memo) else Failed(CorruptData)
    case NTensor(d) => LoadTensor(c, d, memo)
    case NArray(d) =>
      (match LoadTensor(c, d, memo)
       case Done(LTensor(data), m) => Done(LArray(data), m)
       case Done(_, _) => Failed(WrongType)
       case Failed(e) => Failed(e))
    case NBranch(tag, parts) =>
      (match DecodeAll(c, parts, memo)
       case Done(values, m) =>
         var tag' := LoadTag(c, tag);
         if tag'.Some? then Done(LBranch(tag'.value, values), m) else Failed(CorruptData)
       case Failed(e) => Failed(e))
    case NUnknown(_) => Failed(UnsupportedSchema)
  }

  function DecodeAll(c: Context, ns: seq<Node>, memo: Memo): Outcome<seq<Loaded>> {
    if ns == [] then Done([], memo)
    else
      match Decode(c, ns[0], memo)
      case Failed(e) => Failed(e)
      case Done(value, m) =>
        match DecodeAll(c, ns[1..], m)
        case Failed(e) => Failed(e)
        case Done(values, m') => Done([value] + values, m')
  }

  // ------------------------------------------------------------- without sharing

  /** All tensor descriptors of a tree. */
  function Tensors(n: Node): set<Descriptor> {
    match n
    case NTensor(d) => {d}
    case NArray(d) => {d}
    case NBranch(_, parts) => TensorsAll(parts)
    case _ => {}
  }

  function TensorsAll(ns: seq<Node>): set<Descriptor> {
    if ns == [] then {} else Tensors(ns[0]) + TensorsAll(ns[1..])
  }

  function AsArray(l: Loaded): Loaded {
    if l.LTensor? then LArray(l.data) else LPrim(Null)
  }

  /** The tree with `f` in place of its tensors; a bad index or name reads as null. */
  function Fill(c: Context, n: Node, f: Descriptor -> Loaded): Loaded {
    match n
    case NPrim(s) => LPrim(s)
    case NFloat(name) =>
      var s := ParseSpecial(name);
      if s.Some? then LPrim(NonFinite(s.value)) else LPrim(Null)
    case NBytes(bytes) => LBytes(bytes)
    case NStatus(name) => LStatus(name)
    case NImage(png) => LImage(png)
    case NRecordSet(i) => if i < |c.dependencies| then LRecordSet(c.dependencies[i]) else LPrim(Null)
    case NTensor(d) => f(d)
    case NArray(d) => AsArray(f(d))
    case NBranch(tag, parts) =>
      var tag' := LoadTag(c, tag);
      if tag'.Some? then LBranch(tag'.value, FillAll(c, parts, f)) else LPrim(Null)
    case NUnknown(_) => LPrim(Null)
  }

  function FillAll(c: Context, ns: seq<Node>, f: Descriptor -> Loaded): (r: seq<Loaded>)
    ensures |r| == |ns| && forall i | 0 <= i < |ns| :: r[i] == Fill(c, ns[i], f)
  {
    if ns == [] then [] else [Fill(c, ns[0], f)] + FillAll(c, ns[1..], f)
  }

  /** A tree that loads without an error. */
  predicate Sound(c: Context, n: Node) {
    match n
    case NFloat(name) => ParseSpecial(name).Some?
    case NRecordSet(i) => i < |c.dependencies|
    case NTensor(d) => Resolves(c, d)
    case NArray(d) => Resolves(c, d) && !d.lazy
    case NBranch(tag, parts) => LoadTag(c, tag).Some? && SoundAll(c, parts)
    case NUnknown(_) => false
    case _ => true
  }

  predicate SoundAll(c: Context, ns: seq<Node>) {
    ns == [] || (Sound(c, ns[0]) && SoundAll(c, ns[1..]))
  }

  /** `f` makes plain tensors of the tensors that are not lazy. */
  ghost predicate Plain(f: Descriptor -> Loaded, ds: set<Descriptor>) {
    forall d | d in ds && !d.lazy :: f(d).LTensor?
  }

  ghost predicate SameOn(f: Descriptor -> Loaded, g: Descriptor -> Loaded, ds: set<Descriptor>) {
    forall d | d in ds :: f(d) == g(d)
  }

  lemma {:induction false} FillSame(c: Context, n: Node, f: Descriptor -> Loaded, g: Descriptor -> Loaded)
    requires SameOn(f, g, Tensors(n))
    ensures Fill(c, n, f) == Fill(c, n, g)
    decreases n
  {
    if n.NBranch? {
      FillAllSame(c, n.parts, f, g);
    }
  }

  lemma {:induction false} FillAllSame(c: Context, ns: seq<Node>, f: Descriptor -> Loaded, g: Descriptor -> Loaded)
    requires SameOn(f, g, TensorsAll(ns))
    ensures FillAll(c, ns, f) == FillAll(c, ns, g)
    decreases ns
  {
    if ns != [] {
      FillSame(c, ns[0], f, g);
      FillAllSame(c, ns[1..], f, g);
    }
  }

  /** A filled tree tells what every tensor was filled with. */
  lemma {:induction false} FillInjective(c: Context, n: Node, f: Descriptor -> Loaded, g: Descriptor -> Loaded)
    requires Sound(c, n) && Fill(c, n, f) == Fill(c, n, g)
    requires Plain(f, Tensors(n)) && Plain(g, Tensors(n))
    ensures SameOn(f, g, Tensors(n))
    decreases n
  {
    if n.NBranch? {
      FillAllInjective(c, n.parts, f, g);
    }
  }

  lemma {:induction false} FillAllInjective(
    c: Context, ns: seq<Node>, f: Descriptor -> Loaded, g: Descriptor -> Loaded)
    requires SoundAll(c, ns) && FillAll(c, ns, f) == FillAll(c, ns, g)
    requires Plain(f, TensorsAll(ns)) && Plain(g, TensorsAll(ns))
    ensures SameOn(f, g, TensorsAll(ns))
    decreases ns
  {
    if ns != [] {
      assert FillAll(c, ns, f)[0] == FillAll(c, ns, g)[0];
      assert FillAll(c, ns, f)[1..] == FillAll(c, ns, g)[1..];
      FillInjective(c, ns[0], f, g);
      FillAllInjective(c, ns[1..], f, g);
    }
  }

  // ------------------------------------------------------------- with sharing

  function Pick(memo: Memo): Descriptor -> Loaded {
    d => if KeyOf(d) in memo then memo[KeyOf(d)] else LPrim(Null)
  }

  /** What loading adds to the memo: nothing is overwritten, and new values are own values of `ds`. */
  ghost predicate Extends(c: Context, memo: Memo, memo': Memo, ds: set<Descriptor>) {
    && (forall k | k in memo :: k in memo' && memo'[k] == memo[k])
    && (forall d | d in ds :: KeyOf(d) in memo')
    && (forall k | k in memo' && k !in memo :: exists d :: d in ds && KeyOf(d) == k && memo'[k] == Own(c, d))
  }

  /** Plain tensors are kept under keys that are not lazy. */
  ghost predicate PlainMemo(memo: Memo) {
    forall k | k in memo && !k.lazy :: memo[k].LTensor?
  }

  lemma LoadTensorFills(c: Context, d: Descriptor, memo: Memo)
    requires Resolves(c, d) && PlainMemo(memo)
    ensures var r := LoadTensor(c, d, memo);
      r.Done? && r.value == Pick(r.memo)(d) && Extends(c, memo, r.memo, {d}) && PlainMemo(r.memo)
  {
  }

  lemma {:induction false} DecodeFills(c: Context, n: Node, memo: Memo)
    requires Sound(c, n) && PlainMemo(memo)
    ensures var r := Decode(c, n, memo);
      r.Done? && r.value == Fill(c, n, Pick(r.memo)) && Extends(c, memo, r.memo, Tensors(n)) && PlainMemo(r.memo)
    decreases n
  {
    match n
    case NTensor(d) => LoadTensorFills(c, d, memo);
    case NArray(d) => LoadTensorFills(c, d, memo);
    case NBranch(_, parts) => DecodeAllFills(c, parts, memo);
    case _ =>
  }

  lemma {:induction false} DecodeAllFills(c: Context, ns: seq<Node>, memo: Memo)
    requires SoundAll(c, ns) && PlainMemo(memo)
    ensures var r := DecodeAll(c, ns, memo);
      r.Done? && r.value == FillAll(c, ns, Pick(r.memo)) && Extends(c, memo, r.memo, TensorsAll(ns)) && PlainMemo(r.memo)
    decreases ns
  {
    if ns != [] {
      DecodeFills(c, ns[0], memo);
      var m := Decode(c, ns[0], memo).memo;
      DecodeAllFills(c, ns[1..], m);
      var m' := DecodeAll(c, ns[1..], m).memo;
      FillSame(c, ns[0], Pick(m), Pick(m'));
    }
  }

  /** Descriptors that share a loaded tensor say the same about it. */
  ghost predicate Agree(c: Context, ds: set<Descriptor>) {
    forall d, e | d in ds && e in ds && KeyOf(d) == KeyOf(e) :: Own(c, d) == Own(c, e)
  }

  /** Sharing does not show in the loaded value exactly when the descriptors agree. */
  lemma DecodeIffAgree(c: Context, n: Node)
    requires Sound(c, n)
    ensures
      var r := Decode(c, n, map[]);
      r.Done? && (r.value == Fill(c, n, d => Own(c, d)) <==> Agree(c, Tensors(n)))
  {
    DecodeFills(c, n, map[]);
    var memo := Decode(c, n, map[]).memo;
    var own := d => Own(c, d);
    if Agree(c, Tensors(n)) {
      assert SameOn(Pick(memo), own, Tensors(n));
      FillSame(c, n, Pick(memo), own);
    }
    if Fill(c, n, Pick(memo)) == Fill(c, n, own) {
      SoundTensors(c, n);
      FillInjective(c, n, Pick(memo), own);
    }
  }

  lemma {:induction false} SoundTensors(c: Context, n: Node)
    requires Sound(c, n)
    ensures forall d | d in Tensors(n) :: Resolves(c, d)
    decreases n
  {
    if n.NBranch? {
      SoundAllTensors(c, n.parts);
    }
  }

  lemma {:induction false} SoundAllTensors(c: Context, ns: seq<Node>)
    requires SoundAll(c, ns)
    ensures forall d | d in TensorsAll(ns) :: Resolves(c, d)
    decreases ns
  {
    if ns != [] {
      SoundTensors(c, ns[0]);
      SoundAllTensors(c, ns[1..]);
    }
  }

  // ------------------------------------------------------------- up to marks

  ghost predicate SameUnmarked(f: Descriptor -> Loaded, g: Descriptor -> Loaded, ds: set<Descriptor>) {
    forall d | d in ds :: Unmarked(f(d)) == Unmarked(g(d))
  }

  lemma {:induction false} FillUnmarked(c: Context, n: Node, f: Descriptor -> Loaded, g: Descriptor -> Loaded)
    requires SameUnmarked(f, g, Tensors(n))
    ensures Unmarked(Fill(c, n, f)) == Unmarked(Fill(c, n, g))
    decreases n
  {
    match n
    case NBranch(_, parts) => FillAllUnmarked(c, parts, f, g);
    case NArray(d) => UnmarkedArray(f(d), g(d));
    case _ =>
  }

  lemma UnmarkedArray(a: Loaded, b: Loaded)
    requires Unmarked(a) == Unmarked(b)
    ensures AsArray(a) == AsArray(b)
  {
  }

  lemma {:induction false} FillAllUnmarked(
    c: Context, ns: seq<Node>, f: Descriptor -> Loaded, g: Descriptor -> Loaded)
    requires SameUnmarked(f, g, TensorsAll(ns))
    ensures UnmarkedAll(FillAll(c, ns, f)) == UnmarkedAll(FillAll(c, ns, g))
    decreases ns
  {
    if ns != [] {
      FillUnmarked(c, ns[0], f, g);
      FillAllUnmarked(c, ns[1..], f, g);
    }
  }

  /** One place has one content, whatever its descriptors say about it. */
  lemma SamePlaceSameContent(c: Context, d: Descriptor, e: Descriptor)
    requires Resolves(c, d) && Resolves(c, e) && KeyOf(d) == KeyOf(e)
    ensures Unmarked(Own(c, d)) == Unmarked(Own(c, e))
  {
  }

  /** Sharing never shows in the contents of the loaded value. */
  lemma DecodeUpToMarks(c: Context, n: Node)
    requires Sound(c, n)
    ensures
      var r := Decode(c, n, map[]);
      r.Done? && Unmarked(r.value) == Unmarked(Fill(c, n, d => Own(c, d)))
  {
    DecodeFills(c, n, map[]);
    SoundTensors(c, n);
    var memo := Decode(c, n, map[]).memo;
    var own := d => Own(c, d);
    forall d | d in Tensors(n)
      ensures Unmarked(Pick(memo)(d)) == Unmarked(own(d))
    {
      var e :| e in Tensors(n) && KeyOf(e) == KeyOf(d) && memo[KeyOf(d)] == Own(c, e);
      SamePlaceSameContent(c, d, e);
    }
    FillUnmarked(c, n, Pick(memo), own);
  }
}
