/**
 Loading some columns of a published dictionary (vime/data/codec.py, `load` with a
 selection). Contents are always those of the whole dictionary; marks are, exactly
 when the handles in its text-keyed columns agree.
 */
module SelectionAgreement {
  import opened Common
  import opened CodecValues
  import opened CodecEncode
  import opened CodecDecode
  import opened CodecRoundTrip
  import opened CodecAgreement
  import opened Publications
  import opened SampleCodec
  import opened ColumnSelection

  predicate Distinct(names: seq<string>) {
    names == [] || (names[0] !in names[1..] && Distinct(names[1..]))
  }

  /** A dictionary has each text key once. */
  predicate DistinctKeys(parts: seq<Loaded>) {
    Distinct(Names(parts))
  }

  function Zip(names: seq<string>, values: seq<Loaded>): (r: Columns)
    requires |names| == |values|
    ensures forall k :: k in r <==> k in names
  {
    if names == [] then map[] else map[names[0] := values[0]] + Zip(names[1..], values[1..])
  }

  /** The text-keyed part of a dictionary. */
  function ColumnsOf(parts: seq<Loaded>): (r: Columns)
    ensures forall k :: k in r <==> k in Names(parts)
  {
    Zip(Names(parts), TextParts(parts))
  }

  lemma {:induction false} ZipInjective(names: seq<string>, a: seq<Loaded>, b: seq<Loaded>)
    requires |names| == |a| == |b| && Distinct(names) && Zip(names, a) == Zip(names, b)
    ensures a == b
  {
    if names != [] {
      var rest, rest' := Zip(names[1..], a[1..]), Zip(names[1..], b[1..]);
      assert a[0] == Zip(names, a)[names[0]] == Zip(names, b)[names[0]] == b[0];
      forall k | k in rest
        ensures k in rest' && rest[k] == rest'[k]
      {
        assert rest[k] == Zip(names, a)[k] && rest'[k] == Zip(names, b)[k];
      }
      assert rest == rest';
      ZipInjective(names[1..], a[1..], b[1..]);
      assert a == [a[0]] + a[1..] && b == [b[0]] + b[1..];
    }
  }

  // ------------------------------------------------------------- every column, whole

  /** The selection that takes all the named columns whole. */
  function Whole(names: seq<string>): Selection {
    map k | k in names :: None
  }

  lemma NamesFirst(values: seq<Loaded>)
    requires |values| >= 2 && IsText(values[0])
    ensures Names(values)[0] == values[0].scalar.text && Names(values)[1..] == Names(values[2..])
    ensures TextParts(values)[0] == values[1] && TextParts(values)[1..] == TextParts(values[2..])
  {
  }

  lemma NamesSkip(values: seq<Loaded>)
    requires |values| >= 2 && !IsText(values[0])
    ensures Names(values) == Names(values[2..]) && TextParts(values) == TextParts(values[2..])
  {
  }

  lemma NodesFirst(parts: seq<Node>)
    requires |parts| >= 2
    ensures TextNodes(parts) == if IsTextNode(parts[0]) then [parts[1]] + TextNodes(parts[2..]) else TextNodes(parts[2..])
  {
  }

  lemma AloneFirst(c: Context, n: Node, ns: seq<Node>)
    ensures AloneAll(c, [n] + ns) == [Alone(c, n)] + AloneAll(c, ns)
  {
  }

  lemma SoundFirst(c: Context, n: Node, ns: seq<Node>)
    requires Sound(c, n) && SoundAll(c, ns)
    ensures SoundAll(c, [n] + ns)
  {
    assert ([n] + ns)[1..] == ns;
  }

  /** Text keys are read from the tree as they are written. */
  lemma {:induction false} TextPartsAlone(c: Context, parts: seq<Node>)
    requires SoundAll(c, parts)
    ensures TextParts(AloneAll(c, parts)) == AloneAll(c, TextNodes(parts)) && SoundAll(c, TextNodes(parts))
    decreases |parts|
  {
    if |parts| >= 2 {
      FirstColumn(c, parts);
      KeyAlone(c, parts[0]);
      TextPartsAlone(c, parts[2..]);
      NodesFirst(parts);
      var values := AloneAll(c, parts);
      if IsTextNode(parts[0]) {
        NamesFirst(values);
        AloneFirst(c, parts[1], TextNodes(parts[2..]));
        SoundFirst(c, parts[1], TextNodes(parts[2..]));
      } else {
        NamesSkip(values);
      }
    }
  }

  lemma {:induction false} SelectsInOrder(values: seq<Loaded>, selection: Selection, gather: Gather)
    requires forall k | k in Names(values) :: k in selection && selection[k] == None
    ensures SelectColumns(values, selection, gather) == Some(Zip(Names(values), TextParts(values)))
    decreases |values|
  {
    if |values| >= 2 {
      if IsText(values[0]) {
        NamesFirst(values);
        assert values[0].scalar.text in Names(values);
        assert forall k | k in Names(values)[1..] :: k in Names(values);
        SelectsInOrder(values[2..], selection, gather);
      } else {
        NamesSkip(values);
        SelectsInOrder(values[2..], selection, gather);
      }
    }
  }

  /** Loading them reads the text-keyed columns one after the other. */
  ghost predicate LoadsAs(r: Outcome<Columns>, t: Outcome<seq<Loaded>>, names: seq<string>) {
    r.Done? && t.Done? && |t.value| == |names| && r.value == Zip(names, t.value)
  }

  lemma {:induction false} LoadsInOrder(
    c: Context, parts: seq<Node>, names: seq<string>, selection: Selection, gather: Gather, memo: Memo)
    requires SoundAll(c, parts) && ScalarKeys(parts) && PlainMemo(memo) && names == Names(AloneAll(c, parts))
    requires forall k | k in names :: k in selection && selection[k] == None
    ensures LoadsAs(LoadColumns(c, parts, selection, gather, memo), DecodeAll(c, TextNodes(parts), memo), names)
    decreases |parts|
  {
    if |parts| >= 2 {
      FirstColumn(c, parts);
      KeyAlone(c, parts[0]);
      NodesFirst(parts);
      if IsTextNode(parts[0]) {
        LoadsFirst(c, parts, names, selection, gather, memo);
      } else {
        NamesSkip(AloneAll(c, parts));
        ColumnSkipped(c, parts, selection, gather, memo);
        LoadsInOrder(c, parts[2..], names, selection, gather, memo);
      }
    }
  }

  lemma {:induction false} LoadsFirst(
    c: Context, parts: seq<Node>, names: seq<string>, selection: Selection, gather: Gather, memo: Memo)
    requires SoundAll(c, parts) && ScalarKeys(parts) && PlainMemo(memo) && names == Names(AloneAll(c, parts))
    requires forall k | k in names :: k in selection && selection[k] == None
    requires |parts| >= 2 && IsTextNode(parts[0])
    ensures LoadsAs(LoadColumns(c, parts, selection, gather, memo), DecodeAll(c, TextNodes(parts), memo), names)
    decreases |parts|, 0
  {
    FirstColumn(c, parts);
    KeyAlone(c, parts[0]);
    NamesFirst(AloneAll(c, parts));
    assert names[0] in names && forall k | k in names[1..] :: k in names;
    DecodeFills(c, parts[1], memo);
    var m := Decode(c, parts[1], memo).memo;
    LoadsInOrder(c, parts[2..], names[1..], selection, gather, m);
    ColumnTaken(c, parts, selection, gather, memo);
    DecodeFirst(c, parts[1], TextNodes(parts[2..]), memo);
    NodesFirst(parts);
  }

  lemma DecodeFirst(c: Context, n: Node, ns: seq<Node>, memo: Memo)
    requires Decode(c, n, memo).Done? && DecodeAll(c, ns, Decode(c, n, memo).memo).Done?
    ensures
      var first, r := Decode(c, n, memo), DecodeAll(c, [n] + ns, memo);
      && r.Done? && r.value == [first.value] + DecodeAll(c, ns, first.memo).value
      && r.memo == DecodeAll(c, ns, first.memo).memo
  {
    assert ([n] + ns)[1..] == ns;
  }

  /** Reading every column whole is exact only if the descriptors agree. */
  lemma WholeColumnsAgree(c: Context, parts: seq<Node>, gather: Gather)
    requires SoundAll(c, parts) && ScalarKeys(parts) && DistinctKeys(AloneAll(c, parts))
    requires
      var values := AloneAll(c, parts);
      var selection := Whole(Names(values));
      SelectsExactly(LoadColumns(c, parts, selection, gather, map[]), SelectColumns(values, selection, gather))
    ensures Agree(c, TensorsAll(TextNodes(parts)))
  {
    var values, nodes := AloneAll(c, parts), TextNodes(parts);
    var names := Names(values);
    TextPartsAlone(c, parts);
    SelectsInOrder(values, Whole(names), gather);
    LoadsInOrder(c, parts, names, Whole(names), gather, map[]);
    ZipInjective(names, DecodeAll(c, nodes, map[]).value, TextParts(values));
    DecodeIffAgree(c, NBranch(List, nodes));
  }

  // ------------------------------------------------------------- handles of the columns

  predicate IsTextKey(v: Value) {
    (v.Prim? || v.NumpyScalar?) && v.scalar.Text?
  }

  /** A key that the tree keeps as it is. */
  predicate IsScalarKey(v: Value) {
    (v.Prim? || v.NumpyScalar?) && !v.scalar.NonFinite?
  }

  predicate PlainKeys(parts: seq<Value>) {
    |parts| < 2 || (IsScalarKey(parts[0]) && PlainKeys(parts[2..]))
  }

  /** The values under the text keys of a dictionary. */
  function TextColumns(parts: seq<Value>): seq<Value> {
    if |parts| < 2 then []
    else (if IsTextKey(parts[0]) then [parts[1]] else []) + TextColumns(parts[2..])
  }

  /** All handles of one stored tensor inside these columns carry the same marks. */
  ghost predicate ColumnsAgree(objects: Objects, parts: seq<Value>) {
    HandlesAgree(objects, Branch(List, TextColumns(parts)))
  }

  lemma KeyEncodes(objects: Objects, w: Writer, n: Node, v: Value)
    requires Encodes(objects, w, n, v)
    ensures IsTextNode(n) <==> IsTextKey(v)
    ensures n.NPrim? <==> IsScalarKey(v)
  {
  }

  lemma EncodesFirst(objects: Objects, w: Writer, n: Node, v: Value, ns: seq<Node>, vs: seq<Value>)
    requires Encodes(objects, w, n, v) && EncodesAll(objects, w, ns, vs)
    ensures EncodesAll(objects, w, [n] + ns, [v] + vs)
  {
    assert ([n] + ns)[1..] == ns && ([v] + vs)[1..] == vs;
  }

  lemma EncodesRest(objects: Objects, w: Writer, ns: seq<Node>, vs: seq<Value>)
    requires EncodesAll(objects, w, ns, vs) && |vs| >= 2
    ensures Encodes(objects, w, ns[0], vs[0]) && Encodes(objects, w, ns[1], vs[1])
    ensures EncodesAll(objects, w, ns[2..], vs[2..])
  {
    assert ns[1..][1..] == ns[2..] && vs[1..][1..] == vs[2..];
  }

  lemma ColumnsFirst(vs: seq<Value>)
    requires |vs| >= 2
    ensures TextColumns(vs) == if IsTextKey(vs[0]) then [vs[1]] + TextColumns(vs[2..]) else TextColumns(vs[2..])
  {
  }

  lemma {:induction false} EncodesColumns(objects: Objects, w: Writer, ns: seq<Node>, vs: seq<Value>)
    requires EncodesAll(objects, w, ns, vs)
    ensures EncodesAll(objects, w, TextNodes(ns), TextColumns(vs)) && (ScalarKeys(ns) <==> PlainKeys(vs))
    decreases |vs|
  {
    if |vs| >= 2 {
      EncodesRest(objects, w, ns, vs);
      KeyEncodes(objects, w, ns[0], vs[0]);
      EncodesColumns(objects, w, ns[2..], vs[2..]);
      NodesFirst(ns);
      ColumnsFirst(vs);
      if IsTextKey(vs[0]) {
        EncodesFirst(objects, w, ns[1], vs[1], TextNodes(ns[2..]), TextColumns(vs[2..]));
      }
    }
  }

  lemma {:induction false} PatchColumns(base: nat, size: nat, ns: seq<Node>)
    requires size > 0
    ensures TextNodes(PatchAll(base, size, ns)) == PatchAll(base, size, TextNodes(ns))
    ensures ScalarKeys(PatchAll(base, size, ns)) == ScalarKeys(ns)
    decreases |ns|
  {
    if |ns| >= 2 {
      var ns' := PatchAll(base, size, ns);
      assert ns'[2..] == PatchAll(base, size, ns[2..]);
      PatchColumns(base, size, ns[2..]);
      NodesFirst(ns);
      NodesFirst(ns');
      assert IsTextNode(ns'[0]) <==> IsTextNode(ns[0]);
    }
  }

  /** The published tree of a dictionary reads as its value and shares what the value's columns share. */
  ghost predicate ReadsColumns(objects: Objects, c: Context, parts: seq<Node>, vs: seq<Value>) {
    && SoundAll(c, parts) && AloneAll(c, parts) == MeaningAll(objects, vs)
    && (Agree(c, TensorsAll(TextNodes(parts))) <==> ColumnsAgree(objects, vs))
    && (ScalarKeys(parts) <==> PlainKeys(vs))
  }

  lemma EncodedColumns(
    objects: Objects, before: Store, c: Context, w: Writer, size: nat, ns: seq<Node>, vs: seq<Value>)
    requires size > 0 && Covers(c, before, w, size) && Backed(objects, before) && EncodesAll(objects, w, ns, vs)
    ensures ReadsColumns(objects, c, PatchAll(|w.dependencies|, size, ns), vs)
  {
    EncodesAllReads(objects, before, c, w, size, ns, vs);
    ColumnsShare(objects, before, c, w, size, ns, vs);
  }

  lemma AssembledColumns(
    objects: Objects, before: Store, store: Store, base: nat, tree: Node, w: Writer, v: Value, max: nat)
    requires max >= 2 && before <= store && Backed(objects, before) && Sits(store, base, Assemble(tree, w, max))
    requires v.Branch? && tree.NBranch? && EncodesAll(objects, w, tree.parts, v.parts)
    ensures ReadsColumns(
      objects, ContextOf(store, base, w, max), PatchAll(|w.dependencies|, max - 1, tree.parts), v.parts)
  {
    AssembledCovers(before, store, base, tree, w, max);
    EncodedColumns(objects, before, ContextOf(store, base, w, max), w, max - 1, tree.parts, v.parts);
  }

  lemma AssembledDict(
    objects: Objects, before: Store, store: Store, base: nat, tree: Node, w: Writer, v: Value, max: nat, root: nat)
    returns (c: Context, parts: seq<Node>)
    requires max >= 2 && before <= store && Backed(objects, before) && Sits(store, base, Assemble(tree, w, max))
    requires v.Branch? && v.tag.Dict? && Encodes(objects, w, tree, v) && root == base + |Assemble(tree, w, max)| - 1
    ensures TreeAt(store, root) == Some(NBranch(Dict, parts)) && c == Context(store, store[root].dependencies)
    ensures ReadsColumns(objects, c, parts, v.parts)
  {
    c, parts := ContextOf(store, base, w, max), PatchAll(|w.dependencies|, max - 1, tree.parts);
    AssembledColumns(objects, before, store, base, tree, w, v, max);
    AssembledRootIs(store, base, tree, w, max, root);
  }

  lemma AssembledRootIs(store: Store, base: nat, tree: Node, w: Writer, max: nat, root: nat)
    requires max >= 2 && Sits(store, base, Assemble(tree, w, max))
    requires tree.NBranch? && tree.tag.Dict? && root == base + |Assemble(tree, w, max)| - 1
    ensures TreeAt(store, root) == Some(NBranch(Dict, PatchAll(|w.dependencies|, max - 1, tree.parts)))
    ensures ContextOf(store, base, w, max) == Context(store, store[root].dependencies)
  {
    AssembledRoot(store, base, tree, w, max);
  }

  lemma PublishedColumns(
    objects: Objects, before: Store, store: Store, base: nat, v: Value, max: nat, pubs: seq<Publication>, root: nat)
    returns (c: Context, parts: seq<Node>)
    requires max >= 2 && before <= store && Backed(objects, before)
    requires Publishes(objects, v, max, pubs) && Sits(store, base, pubs) && root == base + |pubs| - 1
    requires v.Branch? && v.tag.Dict?
    ensures TreeAt(store, root) == Some(NBranch(Dict, parts)) && c == Context(store, store[root].dependencies)
    ensures ReadsColumns(objects, c, parts, v.parts)
  {
    var tree, w :| Encodes(objects, w, tree, v) && pubs == Assemble(tree, w, max);
    c, parts := AssembledDict(objects, before, store, base, tree, w, v, max, root);
  }

  lemma ColumnsShare(
    objects: Objects, before: Store, c: Context, w: Writer, size: nat, ns: seq<Node>, vs: seq<Value>)
    requires size > 0 && Covers(c, before, w, size) && Backed(objects, before) && EncodesAll(objects, w, ns, vs)
    ensures
      Agree(c, TensorsAll(TextNodes(PatchAll(|w.dependencies|, size, ns)))) <==> ColumnsAgree(objects, vs)
    ensures ScalarKeys(PatchAll(|w.dependencies|, size, ns)) <==> PlainKeys(vs)
  {
    EncodesColumns(objects, w, ns, vs);
    PatchColumns(|w.dependencies|, size, ns);
    AgreeIffHandlesAgree(
      objects, before, c, w, size, NBranch(List, TextNodes(ns)), Branch(List, TextColumns(vs)));
  }

  // ------------------------------------------------------------- contents always agree

  /**
   For every published dictionary with scalar keys and every selection, selecting
   while loading has the contents of selecting from the value, and of loading
   everything and selecting afterwards. Any other key makes every selection fail.
   */
  lemma SelectionKeepsContents(
    objects: Objects, before: Store, store: Store, base: nat, v: Value, max: nat, pubs: seq<Publication>, root: nat,
    selection: Selection, gather: Gather)
    requires max >= 2 && before <= store && Backed(objects, before) && MarkBlind(gather)
    requires Publishes(objects, v, max, pubs) && Sits(store, base, pubs) && root == base + |pubs| - 1
    requires v.Branch? && v.tag.Dict?
    ensures !PlainKeys(v.parts) ==> LoadSelected(store, root, selection, gather).Failed?
    ensures PlainKeys(v.parts) ==> SelectsContents(
      LoadSelected(store, root, selection, gather), SelectColumns(MeaningAll(objects, v.parts), selection, gather))
    ensures Load(store, root).Done? && Load(store, root).value.LBranch?
    ensures PlainKeys(v.parts) ==> SelectsContents(
      LoadSelected(store, root, selection, gather), SelectColumns(Load(store, root).value.parts, selection, gather))
  {
    RoundTrip(objects, before, store, base, v, max, pubs, root);
    var c, parts := PublishedColumns(objects, before, store, base, v, max, pubs, root);
    TreeSelects(store, root, c, parts, MeaningAll(objects, v.parts), selection, gather);
    if PlainKeys(v.parts) {
      BothSelect(LoadSelected(store, root, selection, gather), MeaningAll(objects, v.parts),
        Load(store, root).value, selection, gather);
    }
  }

  lemma TreeSelects(
    store: Store, root: nat, c: Context, parts: seq<Node>, values: seq<Loaded>, selection: Selection, gather: Gather)
    requires TreeAt(store, root) == Some(NBranch(Dict, parts)) && c == Context(store, store[root].dependencies)
    requires SoundAll(c, parts) && AloneAll(c, parts) == values && MarkBlind(gather)
    ensures !ScalarKeys(parts) ==> LoadSelected(store, root, selection, gather).Failed?
    ensures ScalarKeys(parts) ==>
      SelectsContents(LoadSelected(store, root, selection, gather), SelectColumns(values, selection, gather))
  {
    if ScalarKeys(parts) {
      ColumnsContents(c, parts, selection, gather, map[]);
    } else {
      OtherKeyFails(c, parts, selection, gather, map[]);
    }
  }

  lemma BothSelect(r: Outcome<Columns>, values: seq<Loaded>, whole: Loaded, selection: Selection, gather: Gather)
    requires MarkBlind(gather) && SelectsContents(r, SelectColumns(values, selection, gather))
    requires Unmarked(whole) == Unmarked(LBranch(Dict, values))
    ensures whole.LBranch? && SelectsContents(r, SelectColumns(whole.parts, selection, gather))
  {
    SelectColumnsBlind(values, whole.parts, selection, gather);
  }

  // ------------------------------------------------------------- exactly when

  ghost predicate SelectsAlways(store: Store, root: nat, values: seq<Loaded>) {
    forall selection, gather ::
      SelectsExactly(LoadSelected(store, root, selection, gather), SelectColumns(values, selection, gather))
  }

  lemma AlwaysScalar(store: Store, root: nat, c: Context, parts: seq<Node>, values: seq<Loaded>)
    requires TreeAt(store, root) == Some(NBranch(Dict, parts)) && c == Context(store, store[root].dependencies)
    requires SelectsAlways(store, root, values)
    ensures ScalarKeys(parts)
  {
    var gather: Gather := (l, indices) => None;
    NothingSelected(values, gather);
    assert SelectsExactly(LoadSelected(store, root, map[], gather), SelectColumns(values, map[], gather));
    if !ScalarKeys(parts) {
      OtherKeyFails(c, parts, map[], gather, map[]);
    }
  }

  lemma {:induction false} NothingSelected(values: seq<Loaded>, gather: Gather)
    ensures SelectColumns(values, map[], gather) == Some(map[])
    decreases |values|
  {
    if |values| >= 2 {
      NothingSelected(values[2..], gather);
    }
  }

  lemma AlwaysOnlyIf(store: Store, root: nat, c: Context, parts: seq<Node>, values: seq<Loaded>)
    requires TreeAt(store, root) == Some(NBranch(Dict, parts)) && c == Context(store, store[root].dependencies)
    requires SoundAll(c, parts) && AloneAll(c, parts) == values && DistinctKeys(values)
    requires SelectsAlways(store, root, values)
    ensures ScalarKeys(parts) && Agree(c, TensorsAll(TextNodes(parts)))
  {
    AlwaysScalar(store, root, c, parts, values);
    var selection, gather: Gather := Whole(Names(values)), (l, indices) => None;
    assert SelectsExactly(
      LoadSelected(store, root, selection, gather), SelectColumns(values, selection, gather));
    WholeColumnsAgree(c, parts, gather);
  }

  /** A selection gives the very values of the dictionary when the handles in its columns agree. */
  lemma SelectionCommutes(
    objects: Objects, before: Store, store: Store, base: nat, v: Value, max: nat, pubs: seq<Publication>, root: nat,
    selection: Selection, gather: Gather)
    requires max >= 2 && before <= store && Backed(objects, before)
    requires Publishes(objects, v, max, pubs) && Sits(store, base, pubs) && root == base + |pubs| - 1
    requires v.Branch? && v.tag.Dict? && PlainKeys(v.parts) && ColumnsAgree(objects, v.parts)
    ensures SelectsExactly(
      LoadSelected(store, root, selection, gather), SelectColumns(MeaningAll(objects, v.parts), selection, gather))
  {
    var c, parts := PublishedColumns(objects, before, store, base, v, max, pubs, root);
    ColumnsAlone(c, parts, selection, gather, map[], TensorsAll(TextNodes(parts)));
  }

  /** Every selection does so exactly when the keys are scalars and they agree. */
  lemma SelectionExactIff(
    objects: Objects, before: Store, store: Store, base: nat, v: Value, max: nat, pubs: seq<Publication>, root: nat)
    requires max >= 2 && before <= store && Backed(objects, before)
    requires Publishes(objects, v, max, pubs) && Sits(store, base, pubs) && root == base + |pubs| - 1
    requires v.Branch? && v.tag.Dict? && DistinctKeys(MeaningAll(objects, v.parts))
    ensures SelectsAlways(store, root, MeaningAll(objects, v.parts)) <==>
            PlainKeys(v.parts) && ColumnsAgree(objects, v.parts)
  {
    var values := MeaningAll(objects, v.parts);
    if PlainKeys(v.parts) && ColumnsAgree(objects, v.parts) {
      forall selection, gather
        ensures SelectsExactly(
          LoadSelected(store, root, selection, gather), SelectColumns(values, selection, gather))
      {
        SelectionCommutes(objects, before, store, base, v, max, pubs, root, selection, gather);
      }
    }
    if SelectsAlways(store, root, values) {
      var c, parts := PublishedColumns(objects, before, store, base, v, max, pubs, root);
      AlwaysOnlyIf(store, root, c, parts, values);
    }
  }

  // ------------------------------------------------------------- a selection that loses a mark

  /** Two columns with two handles of one tensor, of which only the first is validated. */
  const TWO_COLUMNS := Branch(Dict, [Prim(Text("a")), TensorAt(0), Prim(Text("b")), TensorAt(1)])

  const ONLY_B: Selection := map["b" := None]

  lemma TwoColumnsDisagree()
    ensures !ColumnsAgree(TwoHandles, TWO_COLUMNS.parts)
  {
    var parts := TWO_COLUMNS.parts;
    assert parts[2..] == [Prim(Text("b")), TensorAt(1)];
    TwoHandlesDisagree();
    assert TextColumns(parts[2..]) == [TensorAt(1)] by {
      ColumnsFirst(parts[2..]);
    }
    ColumnsFirst(parts);
    assert TextColumns(parts) == [TensorAt(0), TensorAt(1)];
  }

  function Lazy(validated: bool): Loaded {
    LLazy(TwoHandles(0).data, None, validated)
  }

  /** The tree of the two columns: two descriptors of one place. */
  lemma TwoColumnsTree(c: Context, parts: seq<Node>) returns (d: Descriptor, e: Descriptor)
    requires ReadsColumns(TwoHandles, c, parts, TWO_COLUMNS.parts)
    ensures parts == TwoNodes(d, e) && KeyOf(d) == KeyOf(e)
    ensures Resolves(c, d) && Resolves(c, e) && Own(c, d) == Lazy(true) && Own(c, e) == Lazy(false)
  {
    TwoMeanings();
    d, e := TwoColumnsNodes(c, parts);
    TwoColumnsDisagree();
    TwoTensors(d, e);
  }

  lemma TwoMeanings()
    ensures MeaningAll(TwoHandles, TWO_COLUMNS.parts)
         == [LPrim(Text("a")), Lazy(true), LPrim(Text("b")), Lazy(false)]
  {
  }

  lemma TwoColumnsNodes(c: Context, parts: seq<Node>) returns (d: Descriptor, e: Descriptor)
    requires SoundAll(c, parts)
    requires AloneAll(c, parts) == [LPrim(Text("a")), Lazy(true), LPrim(Text("b")), Lazy(false)]
    ensures parts == TwoNodes(d, e)
    ensures Resolves(c, d) && Resolves(c, e) && Own(c, d) == Lazy(true) && Own(c, e) == Lazy(false)
  {
    FirstColumn(c, parts);
    FirstColumn(c, parts[2..]);
    d := LazyNode(c, parts[1], true);
    e := LazyNode(c, parts[3], false);
    TextNode(c, parts[0], "a");
    TextNode(c, parts[2], "b");
  }

  lemma TwoTensors(d: Descriptor, e: Descriptor)
    ensures TensorsAll(TextNodes(TwoNodes(d, e))) == {d, e}
  {
    var parts, nodes := TwoNodes(d, e), [NTensor(d), NTensor(e)];
    NodesFirst(parts);
    NodesFirst(parts[2..]);
    assert TextNodes(parts) == nodes;
    assert nodes[1..] == [NTensor(e)] && nodes[1..][1..] == [];
    assert TensorsAll(nodes[1..]) == {e};
  }

  lemma TextNode(c: Context, n: Node, text: string)
    requires Sound(c, n) && Alone(c, n) == LPrim(Text(text))
    ensures n == NPrim(Text(text))
  {
  }

  lemma LazyNode(c: Context, n: Node, validated: bool) returns (d: Descriptor)
    requires Sound(c, n) && Alone(c, n) == Lazy(validated)
    ensures n == NTensor(d) && Resolves(c, d) && Own(c, d) == Lazy(validated)
  {
    d := n.tensor;
  }

  /** Loading one column of a published dictionary and loading all of it give it different marks. */
  lemma MarksDependOnSelection(max: nat, pubs: seq<Publication>, store: Store, gather: Gather)
    requires max >= 2 && Publishes(TwoHandles, TWO_COLUMNS, max, pubs) && store == ONE_TENSOR + Link(1, pubs)
    ensures LoadSelected(store, |pubs|, ONLY_B, gather).Done?
    ensures Load(store, |pubs|).Done? && Load(store, |pubs|).value.LBranch?
    ensures SelectColumns(Load(store, |pubs|).value.parts, ONLY_B, gather)
         != Some(LoadSelected(store, |pubs|, ONLY_B, gather).value)
  {
    AppendedSits(ONE_TENSOR, pubs);
    var c, parts := PublishedColumns(TwoHandles, ONE_TENSOR, store, 1, TWO_COLUMNS, max, pubs, |pubs|);
    var d, e := TwoColumnsTree(c, parts);
    TwoColumnsLoaded(store, |pubs|, c, d, e, gather);
  }

  lemma TwoColumnsLoaded(store: Store, root: nat, c: Context, d: Descriptor, e: Descriptor, gather: Gather)
    requires TreeAt(store, root) == Some(NBranch(Dict, TwoNodes(d, e)))
    requires c == Context(store, store[root].dependencies)
    requires Resolves(c, d) && Resolves(c, e) && KeyOf(d) == KeyOf(e) && Own(c, d) != Own(c, e)
    ensures
      var r, whole := LoadSelected(store, root, ONLY_B, gather), Load(store, root);
      && r.Done? && whole.Done? && whole.value.LBranch?
      && SelectColumns(whole.value.parts, ONLY_B, gather) != Some(r.value)
  {
    OnlyB(c, d, e, gather);
    BothColumns(c, d, e, gather);
    assert map["b" := Own(c, d)]["b"] != map["b" := Own(c, e)]["b"];
  }

  function TwoNodes(d: Descriptor, e: Descriptor): seq<Node> {
    [NPrim(Text("a")), NTensor(d), NPrim(Text("b")), NTensor(e)]
  }

  lemma OneKey()
    ensures "a" !in ONLY_B && "b" in ONLY_B && ONLY_B["b"] == None
  {
    assert "a"[0] != "b"[0];
  }

  lemma OnlyB(c: Context, d: Descriptor, e: Descriptor, gather: Gather)
    requires Resolves(c, e)
    ensures
      var r := LoadColumns(c, TwoNodes(d, e), ONLY_B, gather, map[]);
      r.Done? && r.value == map["b" := Own(c, e)]
  {
    OneKey();
    var parts := TwoNodes(d, e);
    var rest := [NPrim(Text("b")), NTensor(e)];
    assert parts[2..] == rest && rest[2..] == [];
    assert rest[1..] == [NTensor(e)] && rest[1..][1..] == [];
    assert SoundAll(c, rest[1..]);
    ColumnTaken(c, rest, ONLY_B, gather, map[]);
    assert map["b" := Own(c, e)] + map[] == map["b" := Own(c, e)];
  }

  lemma BothColumns(c: Context, d: Descriptor, e: Descriptor, gather: Gather)
    requires Resolves(c, d) && KeyOf(d) == KeyOf(e)
    ensures
      var r := DecodeAll(c, TwoNodes(d, e), map[]);
      r.Done? && SelectColumns(r.value, ONLY_B, gather) == Some(map["b" := Own(c, d)])
  {
    var m: Memo, rest: seq<Node> := map[KeyOf(d) := Own(c, d)], [NPrim(Text("b")), NTensor(e)];
    KeyThenTensor(c, "b", e, [], m);
    assert rest + [] == rest;
    assert LoadTensor(c, d, map[]).memo == m;
    KeyThenTensor(c, "a", d, rest, map[]);
    assert [NPrim(Text("a")), NTensor(d)] + rest == TwoNodes(d, e);
    var tail := DecodeAll(c, rest, m).value;
    assert tail == [LPrim(Text("b")), Own(c, d)];
    assert [LPrim(Text("a")), Own(c, d)] + tail
        == [LPrim(Text("a")), Own(c, d), LPrim(Text("b")), Own(c, d)];
    PickB(Own(c, d), gather);
  }

  lemma KeyThenTensor(c: Context, key: string, d: Descriptor, rest: seq<Node>, memo: Memo)
    requires LoadTensor(c, d, memo).Done? && DecodeAll(c, rest, LoadTensor(c, d, memo).memo).Done?
    ensures
      var t, r := LoadTensor(c, d, memo), DecodeAll(c, [NPrim(Text(key)), NTensor(d)] + rest, memo);
      r.Done? && r.value == [LPrim(Text(key)), t.value] + DecodeAll(c, rest, t.memo).value
  {
    DecodeFirst(c, NTensor(d), rest, memo);
    DecodeFirst(c, NPrim(Text(key)), [NTensor(d)] + rest, memo);
    assert [NPrim(Text(key)), NTensor(d)] + rest == [NPrim(Text(key))] + ([NTensor(d)] + rest);
  }

  lemma PickB(l: Loaded, gather: Gather)
    ensures SelectColumns([LPrim(Text("a")), l, LPrim(Text("b")), l], ONLY_B, gather) == Some(map["b" := l])
  {
    OneKey();
    var values := [LPrim(Text("a")), l, LPrim(Text("b")), l];
    var rest := values[2..];
    assert rest == [LPrim(Text("b")), l] && rest[2..] == [];
    assert SelectColumns(rest, ONLY_B, gather) == Some(map["b" := l] + map[]);
    assert map["b" := l] + map[] == map["b" := l];
  }
}
