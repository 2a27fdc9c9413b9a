/**
 Loading some columns of a dictionary's tree (vime/data/codec.py, `load` with a
 selection), and selecting from the value afterwards.
 */
module ColumnSelection {
  import opened Common
  import opened CodecValues
  import opened CodecDecode
  import opened SampleCodec

  /** A selected column is taken whole, or some of its elements are. */
  type Selection = map<string, Option<seq<nat>>>

  type Columns = map<string, Loaded>

  /** Indexing of a loaded value that is not a list. */
  type Gather = (Loaded, seq<nat>) -> Option<Loaded>

  predicate InRange(indices: seq<nat>, n: nat) {
    forall i | 0 <= i < |indices| :: indices[i] < n
  }

  function PickAll<T>(xs: seq<T>, indices: seq<nat>): (r: seq<T>)
    requires InRange(indices, |xs|)
    ensures |r| == |indices| && forall i | 0 <= i < |r| :: r[i] == xs[indices[i]]
  {
    seq(|indices|, i requires 0 <= i < |indices| => xs[indices[i]])
  }

  // ------------------------------------------------------------- selecting while loading

  function LoadColumn(c: Context, n: Node, indices: Option<seq<nat>>, gather: Gather, memo: Memo): Outcome<Loaded> {
    if indices.None? then Decode(c, n, memo)
    else if n.NBranch? && (n.tag.List? || n.tag.Tuple?) then
      if !InRange(indices.value, |n.parts|) then Failed(OutOfRange)
      else
        match DecodeAll(c, PickAll(n.parts, indices.value), memo)
        case Done(values, m) => Done(LBranch(List, values), m)
        case Failed(e) => Failed(e)
    else
      match Decode(c, n, memo)
      case Done(value, m) =>
        var picked := gather(value, indices.value);
        if picked.Some? then Done(picked.value, m) else Failed(WrongType)
      case Failed(e) => Failed(e)
  }

  function Selected(key: Node, selection: Selection): bool {
    key.NPrim? && key.scalar.Text? && key.scalar.text in selection
  }

  function LoadColumns(c: Context, parts: seq<Node>, selection: Selection, gather: Gather, memo: Memo): Outcome<Columns> {
    if |parts| < 2 then Done(map[], memo)
    else if !parts[0].NPrim? then Failed(WrongType)
    else if !Selected(parts[0], selection) then LoadColumns(c, parts[2..], selection, gather, memo)
    else
      var key := parts[0].scalar.text;
      match LoadColumn(c, parts[1], selection[key], gather, memo)
      case Failed(e) => Failed(e)
      case Done(value, m) =>
        match LoadColumns(c, parts[2..], selection, gather, m)
        case Failed(e) => Failed(e)
        case Done(rest, m') => Done(map[key := value] + rest, m')
  }

  /** Keys that are scalars in the tree; no other key can be looked up in a selection. */
  predicate ScalarKeys(parts: seq<Node>) {
    |parts| < 2 || (parts[0].NPrim? && ScalarKeys(parts[2..]))
  }

  lemma {:induction false} OtherKeyFails(
    c: Context, parts: seq<Node>, selection: Selection, gather: Gather, memo: Memo)
    requires !ScalarKeys(parts)
    ensures LoadColumns(c, parts, selection, gather, memo).Failed?
    decreases |parts|
  {
    if Selected(parts[0], selection) {
      var r := LoadColumn(c, parts[1], selection[parts[0].scalar.text], gather, memo);
      if r.Done? {
        OtherKeyFails(c, parts[2..], selection, gather, r.memo);
      }
    } else if parts[0].NPrim? {
      OtherKeyFails(c, parts[2..], selection, gather, memo);
    }
  }

  /** `load` with a selection: only the selected descriptors are read. */
  function LoadSelected(store: Store, ref: Ref, selection: Selection, gather: Gather): Outcome<Columns> {
    var tree := TreeAt(store, ref);
    if tree.None? then Failed(UnsupportedSchema)
    else if tree.value.NBranch? && tree.value.tag.Dict? then
      LoadColumns(Context(store, store[ref].dependencies), tree.value.parts, selection, gather, map[])
    else Failed(WrongType)
  }

  // ------------------------------------------------------------- selecting afterwards

  function SelectColumn(value: Loaded, indices: Option<seq<nat>>, gather: Gather): Option<Loaded> {
    if indices.None? then Some(value)
    else if value.LBranch? && (value.tag.List? || value.tag.Tuple?) then
      if InRange(indices.value, |value.parts|) then Some(LBranch(List, PickAll(value.parts, indices.value))) else None
    else gather(value, indices.value)
  }

  function SelectColumns(parts: seq<Loaded>, selection: Selection, gather: Gather): Option<Columns> {
    if |parts| < 2 then Some(map[])
    else
      var rest := SelectColumns(parts[2..], selection, gather);
      if !(parts[0].LPrim? && parts[0].scalar.Text? && parts[0].scalar.text in selection) then rest
      else
        var key := parts[0].scalar.text;
        var value := SelectColumn(parts[1], selection[key], gather);
        if value.None? || rest.None? then None else Some(map[key := value.value] + rest.value)
  }

  // ------------------------------------------------------------- text-keyed columns

  predicate IsText(l: Loaded) {
    l.LPrim? && l.scalar.Text?
  }

  /** Text keys of a dictionary, in order. */
  function Names(parts: seq<Loaded>): seq<string> {
    if |parts| < 2 then []
    else (if IsText(parts[0]) then [parts[0].scalar.text] else []) + Names(parts[2..])
  }

  /** The values under them. */
  function TextParts(parts: seq<Loaded>): (r: seq<Loaded>)
    ensures |r| == |Names(parts)|
  {
    if |parts| < 2 then []
    else (if IsText(parts[0]) then [parts[1]] else []) + TextParts(parts[2..])
  }

  /** The same columns of the tree. */
  function TextNodes(parts: seq<Node>): seq<Node> {
    if |parts| < 2 then []
    else (if IsTextNode(parts[0]) then [parts[1]] else []) + TextNodes(parts[2..])
  }

  predicate IsTextNode(n: Node) {
    n.NPrim? && n.scalar.Text?
  }

  // ------------------------------------------------------------- comparing

  predicate SameContents(a: Columns, b: Columns) {
    a.Keys == b.Keys && forall k | k in a :: Unmarked(a[k]) == Unmarked(b[k])
  }

  /** One selection while loading has the outcome and the contents of the other afterwards. */
  ghost predicate SelectsContents(r: Outcome<Columns>, s: Option<Columns>) {
    (r.Done? <==> s.Some?) && (r.Done? ==> SameContents(r.value, s.value))
  }

  /** It has the very values. */
  ghost predicate SelectsExactly(r: Outcome<Columns>, s: Option<Columns>) {
    (r.Done? <==> s.Some?) && (r.Done? ==> r.value == s.value)
  }

  // ------------------------------------------------------------- they agree

  /** A memo whose values are own values of `ds`. */
  ghost predicate OwnMemo(c: Context, memo: Memo, ds: set<Descriptor>) {
    PlainMemo(memo) && forall k | k in memo :: exists d :: d in ds && KeyOf(d) == k && memo[k] == Own(c, d)
  }

  /** What a node is on its own. */
  function Alone(c: Context, n: Node): Loaded {
    Fill(c, n, d => Own(c, d))
  }

  function AloneAll(c: Context, ns: seq<Node>): (r: seq<Loaded>)
    ensures |r| == |ns| && forall i | 0 <= i < |ns| :: r[i] == Alone(c, ns[i])
  {
    FillAll(c, ns, d => Own(c, d))
  }

  /** The memo is as good as no memo while all descriptors agree. */
  lemma PicksOwn(c: Context, memo: Memo, memo': Memo, ds: set<Descriptor>, es: set<Descriptor>)
    requires Agree(c, ds) && es <= ds && OwnMemo(c, memo, ds) && Extends(c, memo, memo', es) && PlainMemo(memo')
    ensures SameOn(Pick(memo'), d => Own(c, d), es) && OwnMemo(c, memo', ds)
  {
    assert forall k | k in memo' :: exists d :: d in ds && KeyOf(d) == k && memo'[k] == Own(c, d);
  }

  lemma DecodeAlone(c: Context, n: Node, memo: Memo, ds: set<Descriptor>)
    requires Sound(c, n) && Agree(c, ds) && Tensors(n) <= ds && OwnMemo(c, memo, ds)
    ensures var r := Decode(c, n, memo); r.Done? && r.value == Alone(c, n) && OwnMemo(c, r.memo, ds)
  {
    DecodeFills(c, n, memo);
    var memo' := Decode(c, n, memo).memo;
    PicksOwn(c, memo, memo', ds, Tensors(n));
    FillSame(c, n, Pick(memo'), d => Own(c, d));
  }

  lemma DecodeAllAlone(c: Context, ns: seq<Node>, memo: Memo, ds: set<Descriptor>)
    requires SoundAll(c, ns) && Agree(c, ds) && TensorsAll(ns) <= ds && OwnMemo(c, memo, ds)
    ensures var r := DecodeAll(c, ns, memo); r.Done? && r.value == AloneAll(c, ns) && OwnMemo(c, r.memo, ds)
  {
    DecodeAllFills(c, ns, memo);
    var memo' := DecodeAll(c, ns, memo).memo;
    PicksOwn(c, memo, memo', ds, TensorsAll(ns));
    FillAllSame(c, ns, Pick(memo'), d => Own(c, d));
  }

  lemma {:induction false} PartOf(c: Context, ns: seq<Node>, i: nat)
    requires SoundAll(c, ns) && i < |ns|
    ensures Sound(c, ns[i]) && Tensors(ns[i]) <= TensorsAll(ns)
  {
    if i > 0 {
      PartOf(c, ns[1..], i - 1);
    }
  }

  lemma {:induction false} PickedSound(c: Context, ns: seq<Node>, indices: seq<nat>)
    requires SoundAll(c, ns) && InRange(indices, |ns|)
    ensures SoundAll(c, PickAll(ns, indices)) && TensorsAll(PickAll(ns, indices)) <= TensorsAll(ns)
  {
    if indices != [] {
      PartOf(c, ns, indices[0]);
      PickedSound(c, ns, indices[1..]);
      assert PickAll(ns, indices)[1..] == PickAll(ns, indices[1..]);
    }
  }

  /** Elements of the column are picked out. */
  predicate PicksElements(n: Node, indices: Option<seq<nat>>) {
    indices.Some? && n.NBranch? && (n.tag.List? || n.tag.Tuple?) && InRange(indices.value, |n.parts|)
  }

  lemma PickedAlone(c: Context, ns: seq<Node>, indices: seq<nat>)
    requires InRange(indices, |ns|)
    ensures AloneAll(c, PickAll(ns, indices)) == PickAll(AloneAll(c, ns), indices)
  {
  }

  lemma ColumnAlone(c: Context, n: Node, indices: Option<seq<nat>>, gather: Gather, memo: Memo, ds: set<Descriptor>)
    requires Sound(c, n) && Agree(c, ds) && Tensors(n) <= ds && OwnMemo(c, memo, ds)
    ensures
      var r, s := LoadColumn(c, n, indices, gather, memo), SelectColumn(Alone(c, n), indices, gather);
      && (r.Done? <==> s.Some?)
      && (r.Done? ==> r.value == s.value && OwnMemo(c, r.memo, ds))
  {
    DecodeAlone(c, n, memo, ds);
    if PicksElements(n, indices) {
      PickedSound(c, n.parts, indices.value);
      DecodeAllAlone(c, PickAll(n.parts, indices.value), memo, ds);
      PickedColumn(c, n, indices.value, gather, memo);
    }
  }

  lemma KeyAlone(c: Context, key: Node)
    requires Sound(c, key)
    ensures IsText(Alone(c, key)) <==> IsTextNode(key)
    ensures key.NPrim? ==> Alone(c, key) == LPrim(key.scalar)
  {
  }

  /** One column and the rest of a dictionary. */
  lemma FirstColumn(c: Context, parts: seq<Node>)
    requires SoundAll(c, parts) && |parts| >= 2
    ensures Sound(c, parts[0]) && Sound(c, parts[1]) && SoundAll(c, parts[2..])
    ensures |AloneAll(c, parts)| == |parts| && AloneAll(c, parts)[2..] == AloneAll(c, parts[2..])
  {
    assert parts[1..][1..] == parts[2..];
  }

  lemma FirstTextNode(parts: seq<Node>)
    requires |parts| >= 2
    ensures TensorsAll(TextNodes(parts[2..])) <= TensorsAll(TextNodes(parts))
    ensures IsTextNode(parts[0]) ==> Tensors(parts[1]) <= TensorsAll(TextNodes(parts))
  {
    var rest := TextNodes(parts[2..]);
    assert ([parts[1]] + rest)[1..] == rest && [] + rest == rest;
  }

  /** A column that is not selected leaves no trace on either side. */
  lemma ColumnSkipped(c: Context, parts: seq<Node>, selection: Selection, gather: Gather, memo: Memo)
    requires SoundAll(c, parts) && |parts| >= 2 && parts[0].NPrim? && !Selected(parts[0], selection)
    ensures LoadColumns(c, parts, selection, gather, memo) == LoadColumns(c, parts[2..], selection, gather, memo)
    ensures SelectColumns(AloneAll(c, parts), selection, gather)
         == SelectColumns(AloneAll(c, parts[2..]), selection, gather)
  {
    FirstColumn(c, parts);
    KeyAlone(c, parts[0]);
  }

  /** A selected column is the first of both results. */
  lemma ColumnTaken(c: Context, parts: seq<Node>, selection: Selection, gather: Gather, memo: Memo)
    requires SoundAll(c, parts) && |parts| >= 2 && Selected(parts[0], selection)
    ensures
      var key := parts[0].scalar.text;
      var r := LoadColumns(c, parts, selection, gather, memo);
      var first := LoadColumn(c, parts[1], selection[key], gather, memo);
      && (first.Failed? ==> r.Failed?)
      && (first.Done? ==>
            var rest := LoadColumns(c, parts[2..], selection, gather, first.memo);
            && (r.Done? <==> rest.Done?)
            && (r.Done? ==> r.value == map[key := first.value] + rest.value && r.memo == rest.memo))
    ensures
      var key := parts[0].scalar.text;
      var s := SelectColumns(AloneAll(c, parts), selection, gather);
      var first := SelectColumn(Alone(c, parts[1]), selection[key], gather);
      var rest := SelectColumns(AloneAll(c, parts[2..]), selection, gather);
      (s.Some? <==> first.Some? && rest.Some?) && (s.Some? ==> s.value == map[key := first.value] + rest.value)
  {
    FirstColumn(c, parts);
    KeyAlone(c, parts[0]);
  }

  lemma {:induction false} ColumnsAlone(
    c: Context, parts: seq<Node>, selection: Selection, gather: Gather, memo: Memo, ds: set<Descriptor>)
    requires SoundAll(c, parts) && ScalarKeys(parts)
    requires Agree(c, ds) && TensorsAll(TextNodes(parts)) <= ds && OwnMemo(c, memo, ds)
    ensures SelectsExactly(
      LoadColumns(c, parts, selection, gather, memo), SelectColumns(AloneAll(c, parts), selection, gather))
    decreases |parts|
  {
    if |parts| >= 2 {
      FirstColumn(c, parts);
      FirstTextNode(parts);
      if Selected(parts[0], selection) {
        var indices := selection[parts[0].scalar.text];
        ColumnAlone(c, parts[1], indices, gather, memo, ds);
        ColumnTaken(c, parts, selection, gather, memo);
        var r := LoadColumn(c, parts[1], indices, gather, memo);
        if r.Done? {
          ColumnsAlone(c, parts[2..], selection, gather, r.memo, ds);
        }
      } else {
        ColumnSkipped(c, parts, selection, gather, memo);
        ColumnsAlone(c, parts[2..], selection, gather, memo, ds);
      }
    }
  }

  // ------------------------------------------------------------- contents always agree

  /** The memo has the right contents, whatever its marks. */
  ghost predicate RightMemo(c: Context, memo: Memo) {
    PlainMemo(memo) && forall d | Resolves(c, d) && KeyOf(d) in memo :: Unmarked(memo[KeyOf(d)]) == Unmarked(Own(c, d))
  }

  /** Indexing sees contents only. */
  ghost predicate MarkBlind(gather: Gather) {
    forall a, b, indices | Unmarked(a) == Unmarked(b) :: SameOutcome(gather(a, indices), gather(b, indices))
  }

  predicate SameOutcome(a: Option<Loaded>, b: Option<Loaded>) {
    a.Some? == b.Some? && (a.Some? ==> Unmarked(a.value) == Unmarked(b.value))
  }

  lemma StillRight(c: Context, memo: Memo, memo': Memo, es: set<Descriptor>)
    requires RightMemo(c, memo) && Extends(c, memo, memo', es) && PlainMemo(memo')
    requires forall e | e in es :: Resolves(c, e)
    ensures RightMemo(c, memo') && SameUnmarked(Pick(memo'), d => Own(c, d), es)
  {
    forall d | Resolves(c, d) && KeyOf(d) in memo'
      ensures Unmarked(memo'[KeyOf(d)]) == Unmarked(Own(c, d))
    {
      if KeyOf(d) !in memo {
        var e :| e in es && KeyOf(e) == KeyOf(d) && memo'[KeyOf(d)] == Own(c, e);
        SamePlaceSameContent(c, d, e);
      }
    }
  }

  lemma DecodeContents(c: Context, n: Node, memo: Memo)
    requires Sound(c, n) && RightMemo(c, memo)
    ensures
      var r := Decode(c, n, memo);
      r.Done? && Unmarked(r.value) == Unmarked(Alone(c, n)) && RightMemo(c, r.memo)
  {
    DecodeFills(c, n, memo);
    SoundTensors(c, n);
    var memo' := Decode(c, n, memo).memo;
    StillRight(c, memo, memo', Tensors(n));
    FillUnmarked(c, n, Pick(memo'), d => Own(c, d));
  }

  lemma DecodeAllContents(c: Context, ns: seq<Node>, memo: Memo)
    requires SoundAll(c, ns) && RightMemo(c, memo)
    ensures
      var r := DecodeAll(c, ns, memo);
      r.Done? && UnmarkedAll(r.value) == UnmarkedAll(AloneAll(c, ns)) && RightMemo(c, r.memo)
  {
    DecodeAllFills(c, ns, memo);
    SoundAllTensors(c, ns);
    var memo' := DecodeAll(c, ns, memo).memo;
    StillRight(c, memo, memo', TensorsAll(ns));
    FillAllUnmarked(c, ns, Pick(memo'), d => Own(c, d));
  }

  /** What picking elements comes to, on either side. */
  lemma PickedColumn(c: Context, n: Node, indices: seq<nat>, gather: Gather, memo: Memo)
    requires Sound(c, n) && PicksElements(n, Some(indices))
    ensures
      var d := DecodeAll(c, PickAll(n.parts, indices), memo);
      d.Done? ==> LoadColumn(c, n, Some(indices), gather, memo) == Done(LBranch(List, d.value), d.memo)
    ensures SelectColumn(Alone(c, n), Some(indices), gather)
         == Some(LBranch(List, AloneAll(c, PickAll(n.parts, indices))))
  {
    PickedAlone(c, n.parts, indices);
  }

  lemma PickedContents(c: Context, n: Node, indices: seq<nat>, gather: Gather, memo: Memo)
    requires Sound(c, n) && RightMemo(c, memo) && PicksElements(n, Some(indices))
    ensures
      var r, s := LoadColumn(c, n, Some(indices), gather, memo), SelectColumn(Alone(c, n), Some(indices), gather);
      r.Done? && s.Some? && Unmarked(r.value) == Unmarked(s.value) && RightMemo(c, r.memo)
  {
    PickedSound(c, n.parts, indices);
    DecodeAllContents(c, PickAll(n.parts, indices), memo);
    PickedColumn(c, n, indices, gather, memo);
  }

  lemma GatheredContents(c: Context, n: Node, indices: seq<nat>, gather: Gather, memo: Memo)
    requires Sound(c, n) && RightMemo(c, memo) && MarkBlind(gather)
    requires !(n.NBranch? && (n.tag.List? || n.tag.Tuple?))
    ensures
      var r, s := LoadColumn(c, n, Some(indices), gather, memo), SelectColumn(Alone(c, n), Some(indices), gather);
      && (r.Done? <==> s.Some?)
      && (r.Done? ==> Unmarked(r.value) == Unmarked(s.value) && RightMemo(c, r.memo))
  {
    DecodeContents(c, n, memo);
    GatheredAlike(Decode(c, n, memo).value, Alone(c, n), indices, gather);
  }

  lemma GatheredAlike(a: Loaded, b: Loaded, indices: seq<nat>, gather: Gather)
    requires Unmarked(a) == Unmarked(b) && MarkBlind(gather)
    ensures SameOutcome(gather(a, indices), gather(b, indices))
  {
  }

  lemma ColumnContents(c: Context, n: Node, indices: Option<seq<nat>>, gather: Gather, memo: Memo)
    requires Sound(c, n) && RightMemo(c, memo) && MarkBlind(gather)
    ensures
      var r, s := LoadColumn(c, n, indices, gather, memo), SelectColumn(Alone(c, n), indices, gather);
      && (r.Done? <==> s.Some?)
      && (r.Done? ==> Unmarked(r.value) == Unmarked(s.value) && RightMemo(c, r.memo))
  {
    if indices.None? {
      DecodeContents(c, n, memo);
    } else if PicksElements(n, indices) {
      PickedContents(c, n, indices.value, gather, memo);
    } else if !(n.NBranch? && (n.tag.List? || n.tag.Tuple?)) {
      GatheredContents(c, n, indices.value, gather, memo);
    }
  }

  /** A selected column with the right contents in front of columns with the right contents. */
  lemma TakenContents(
    c: Context, parts: seq<Node>, selection: Selection, gather: Gather, memo: Memo, m: Memo)
    requires SoundAll(c, parts) && |parts| >= 2 && Selected(parts[0], selection)
    requires
      var indices := selection[parts[0].scalar.text];
      var r, s := LoadColumn(c, parts[1], indices, gather, memo), SelectColumn(Alone(c, parts[1]), indices, gather);
      r.Done? && s.Some? && Unmarked(r.value) == Unmarked(s.value) && r.memo == m
    requires SelectsContents(
      LoadColumns(c, parts[2..], selection, gather, m), SelectColumns(AloneAll(c, parts[2..]), selection, gather))
    ensures SelectsContents(
      LoadColumns(c, parts, selection, gather, memo), SelectColumns(AloneAll(c, parts), selection, gather))
  {
    ColumnTaken(c, parts, selection, gather, memo);
  }

  lemma {:induction false} ColumnsContents(
    c: Context, parts: seq<Node>, selection: Selection, gather: Gather, memo: Memo)
    requires SoundAll(c, parts) && ScalarKeys(parts) && RightMemo(c, memo) && MarkBlind(gather)
    ensures SelectsContents(
      LoadColumns(c, parts, selection, gather, memo), SelectColumns(AloneAll(c, parts), selection, gather))
    decreases |parts|
  {
    if |parts| >= 2 {
      FirstColumn(c, parts);
      if Selected(parts[0], selection) {
        var indices := selection[parts[0].scalar.text];
        ColumnContents(c, parts[1], indices, gather, memo);
        ColumnTaken(c, parts, selection, gather, memo);
        var r := LoadColumn(c, parts[1], indices, gather, memo);
        if r.Done? {
          ColumnsContents(c, parts[2..], selection, gather, r.memo);
          TakenContents(c, parts, selection, gather, memo, r.memo);
        }
      } else {
        ColumnSkipped(c, parts, selection, gather, memo);
        ColumnsContents(c, parts[2..], selection, gather, memo);
      }
    }
  }

  lemma SelectColumnBlind(a: Loaded, b: Loaded, indices: Option<seq<nat>>, gather: Gather)
    requires Unmarked(a) == Unmarked(b) && MarkBlind(gather)
    ensures SameOutcome(SelectColumn(a, indices, gather), SelectColumn(b, indices, gather))
  {
    if indices.Some? {
      assert SameOutcome(gather(a, indices.value), gather(b, indices.value));
      if a.LBranch? && InRange(indices.value, |a.parts|) {
        assert |a.parts| == |UnmarkedAll(a.parts)| == |b.parts|;
        PickedUnmarked(a.parts, b.parts, indices.value);
      }
    }
  }

  lemma PickedUnmarked(a: seq<Loaded>, b: seq<Loaded>, indices: seq<nat>)
    requires UnmarkedAll(a) == UnmarkedAll(b) && InRange(indices, |a|) && |a| == |b|
    ensures UnmarkedAll(PickAll(a, indices)) == UnmarkedAll(PickAll(b, indices))
  {
    forall i | 0 <= i < |indices|
      ensures Unmarked(PickAll(a, indices)[i]) == Unmarked(PickAll(b, indices)[i])
    {
      assert UnmarkedAll(a)[indices[i]] == UnmarkedAll(b)[indices[i]];
    }
  }

  /** Selecting afterwards sees contents only, too. */
  lemma {:induction false} SelectColumnsBlind(a: seq<Loaded>, b: seq<Loaded>, selection: Selection, gather: Gather)
    requires UnmarkedAll(a) == UnmarkedAll(b) && MarkBlind(gather)
    ensures
      var r, s := SelectColumns(a, selection, gather), SelectColumns(b, selection, gather);
      (r.Some? <==> s.Some?) && (r.Some? ==> SameContents(r.value, s.value))
    decreases |a|
  {
    assert |a| == |UnmarkedAll(a)| == |b|;
    if |a| >= 2 {
      RestUnmarked(a, b);
      SelectColumnsBlind(a[2..], b[2..], selection, gather);
      if IsText(a[0]) && a[0].scalar.text in selection {
        SelectColumnBlind(a[1], b[1], selection[a[0].scalar.text], gather);
      }
    }
  }

  lemma RestUnmarked(a: seq<Loaded>, b: seq<Loaded>)
    requires UnmarkedAll(a) == UnmarkedAll(b) && |a| == |b| >= 2
    ensures UnmarkedAll(a[2..]) == UnmarkedAll(b[2..])
    ensures Unmarked(a[0]) == Unmarked(b[0]) && Unmarked(a[1]) == Unmarked(b[1])
    ensures IsText(a[0]) == IsText(b[0]) && (IsText(a[0]) ==> a[0] == b[0])
  {
    assert UnmarkedAll(a)[0] == UnmarkedAll(b)[0] && UnmarkedAll(a)[1] == UnmarkedAll(b)[1];
    forall i | 0 <= i < |a| - 2
      ensures Unmarked(a[2..][i]) == Unmarked(b[2..][i])
    {
      assert UnmarkedAll(a)[i + 2] == UnmarkedAll(b)[i + 2];
    }
  }
}
