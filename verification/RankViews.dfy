/**
 One rank's part of a training batch: published whole and selected on loading, or
 picked out of memory (vime/data/batch_builder.py, vime/data/transport.py, with the
 conversion to tensors of vime/observability/rollout_data_utils.py). Values are
 compared by what they mean once loaded.
 */
module RankViews {
  import opened Common
  import opened CodecValues
  import opened CodecRoundTrip
  import opened Publications
  import opened SampleCodec
  import opened ColumnSelection
  import opened SelectionAgreement

  /**
   The columns of a batch: a rank gets its partition of `fields` and all of `whole`,
   and `schedule` is added. Elements of the columns in `types` become tensors of
   that element type, if it is given.
   */
  datatype Plan = Plan(
    fields: set<string>, whole: set<string>, schedule: set<string>, types: map<string, Option<string>>)

  const TRAINING := Plan(
    {"tokens", "multimodal_train_inputs", "response_lengths", "rewards", "truncated", "loss_masks", "round_number",
     "sample_indices", "rollout_ids", "rollout_mask_sums", "rollout_log_probs", "rollout_topk_token_ids",
     "rollout_topk_log_probs", "rollout_top_p_token_ids", "rollout_top_p_token_offsets", "rollout_top_p_log_probs",
     "rollout_routed_experts", "source_names", "prompt", "teacher_log_probs"},
    {"raw_reward", "total_lengths"},
    {"partition", "global_batch_sizes", "num_microbatches", "micro_batch_indices"},
    map["tokens" := Some("int64"), "loss_masks" := Some("int32"), "rollout_log_probs" := Some("float32"),
        "rollout_topk_token_ids" := Some("int32"), "rollout_topk_log_probs" := Some("float32"),
        "rollout_top_p_token_ids" := Some("int32"), "rollout_top_p_token_offsets" := Some("int32"),
        "rollout_top_p_log_probs" := Some("float32"), "teacher_log_probs" := Some("float32"),
        "rollout_routed_experts" := None])

  predicate IsConverted(layout: Plan, k: string) {
    k in layout.types || k == "multimodal_train_inputs" || k == "rollout_mask_sums"
  }

  /** No column has two uses, and only per-sample columns are converted. */
  predicate Apart(layout: Plan) {
    && layout.fields !! layout.whole && layout.schedule !! layout.fields + layout.whole
    && "total_lengths" in layout.whole
    && forall k | k in layout.schedule + layout.whole :: !IsConverted(layout, k)
  }

  /** The layout of training batches is one. */
  type Layout = layout: Plan | Apart(layout) witness TRAINING

  /** How the tensor library reads a value as a tensor, and a number as a float32 bit pattern. */
  datatype Conversion = Conversion(tensor: (Loaded, Option<string>) -> Tensor, bits: Loaded -> nat)

  // ------------------------------------------------------------- conversion to tensors

  /** A tensor that has not been read stays as it is. */
  function ToTensor(conv: Conversion, dtype: Option<string>, l: Loaded): Loaded {
    if l.LLazy? then l else LTensor(conv.tensor(l, dtype))
  }

  /** Arrays among the values of one sample's model inputs become tensors. */
  function ToInputs(l: Loaded): Loaded {
    if l.LBranch? && l.tag.Dict? then
      LBranch(Dict, seq(|l.parts|, i requires 0 <= i < |l.parts| =>
        if i % 2 == 1 && l.parts[i].LArray? then LTensor(l.parts[i].data) else l.parts[i]))
    else l
  }

  function ConvertAll(parts: seq<Loaded>, f: Loaded -> Loaded): (r: seq<Loaded>)
    ensures |r| == |parts| && forall i | 0 <= i < |r| :: r[i] == f(parts[i])
  {
    seq(|parts|, i requires 0 <= i < |parts| => f(parts[i]))
  }

  function BitsOf(conv: Conversion, parts: seq<Loaded>): (r: seq<nat>)
    ensures |r| == |parts| && forall i | 0 <= i < |r| :: r[i] == conv.bits(parts[i])
  {
    seq(|parts|, i requires 0 <= i < |parts| => conv.bits(parts[i]))
  }

  /** Most converted columns stay lists; the mask sums become one tensor. */
  function TensorizeColumn(layout: Layout, conv: Conversion, key: string, l: Loaded): Loaded {
    if !IsList(l) then l
    else if key in layout.types then LBranch(List, ConvertAll(l.parts, x => ToTensor(conv, layout.types[key], x)))
    else if key == "multimodal_train_inputs" then LBranch(List, ConvertAll(l.parts, ToInputs))
    else if key == "rollout_mask_sums" then LTensor(Tensor([|l.parts|], "float32", BitsOf(conv, l.parts)))
    else l
  }

  /** `tensorize_rollout_data_for_training` */
  function Tensorize(layout: Layout, conv: Conversion, columns: Columns): (r: Columns)
    ensures forall k :: k in r <==> k in columns
    ensures forall k | k in r :: r[k] == TensorizeColumn(layout, conv, k, columns[k])
  {
    map k | k in columns :: TensorizeColumn(layout, conv, k, columns[k])
  }

  predicate IsList(l: Loaded) {
    l.LBranch? && (l.tag.List? || l.tag.Tuple?)
  }

  // ------------------------------------------------------------- the two views

  function LengthOf(l: Loaded): nat {
    match l
    case LBranch(_, parts) => |parts|
    case LTensor(data) => if data.shape == [] then 0 else data.shape[0]
    case LArray(data) => if data.shape == [] then 0 else data.shape[0]
    case LLazy(data, _, _) => if data.shape == [] then 0 else data.shape[0]
    case _ => 0
  }

  function Lengths(tokens: Loaded): Loaded {
    LBranch(List, if IsList(tokens) then ConvertAll(tokens.parts, x => LPrim(Int(LengthOf(x)))) else [])
  }

  /** Sample `l` has `n` tokens: it is a list of them, or a tensor of one dimension. */
  predicate HasTokens(l: Loaded, n: nat) {
    match l
    case LBranch(_, parts) => |parts| == n
    case LTensor(data) => |data.elements| == n
    case LArray(data) => |data.elements| == n
    case LLazy(data, _, _) => |data.elements| == n
    case _ => false
  }

  /** Tokens come as lists or as tensors of one dimension. */
  predicate OneDimensional(l: Loaded) {
    match l
    case LBranch(_, _) => true
    case LTensor(data) => data.shape == [|data.elements|]
    case LArray(data) => data.shape == [|data.elements|]
    case LLazy(data, _, _) => data.shape == [|data.elements|]
    case _ => false
  }

  /** The lengths are a list that gives each sample's number of tokens. */
  lemma LengthsCount(tokens: Loaded, lengths: Loaded)
    requires IsList(tokens) && forall i | 0 <= i < |tokens.parts| :: OneDimensional(tokens.parts[i])
    ensures lengths == Lengths(tokens) <==>
      && lengths.LBranch? && lengths.tag == List && |lengths.parts| == |tokens.parts|
      && forall i | 0 <= i < |tokens.parts| ::
           && lengths.parts[i].LPrim? && lengths.parts[i].scalar.Int? && lengths.parts[i].scalar.i >= 0
           && HasTokens(tokens.parts[i], lengths.parts[i].scalar.i)
  {
    assert forall i | 0 <= i < |tokens.parts| :: Lengths(tokens).parts[i] == LPrim(Int(LengthOf(tokens.parts[i])));
  }

  /** What is published: the lengths are those of the tokens, whatever the conversion said. */
  function Published(layout: Layout, conv: Conversion, raw: Columns): Columns
    requires "tokens" in raw
  {
    Tensorize(layout, conv, raw["total_lengths" := Lengths(raw["tokens"])])
  }

  function RankSelection(layout: Layout, partition: seq<nat>): Selection {
    map k | k in layout.fields + layout.whole :: if k in layout.whole then None else Some(partition)
  }

  /** A rank of the storage transport: selected columns, then its schedule. */
  function StoredView(
    layout: Layout, store: Store, ref: Ref, partition: seq<nat>, schedule: Columns, gather: Gather)
    : Option<Columns>
  {
    match LoadSelected(store, ref, RankSelection(layout, partition), gather)
    case Done(columns, _) => Some(columns + schedule)
    case Failed(_) => None
  }

  /** Every per-sample column is a list. */
  predicate ListBatch(layout: Layout, raw: Columns) {
    "tokens" in raw && forall k | k in layout.fields && k in raw :: IsList(raw[k])
  }

  predicate Partitioned(layout: Layout, raw: Columns, partition: seq<nat>) {
    forall k | k in layout.fields && k in raw :: IsList(raw[k]) && InRange(partition, |raw[k].parts|)
  }

  /** Lengths that the conversion gives are kept in memory. */
  function WithLengths(raw: Columns): Columns
    requires "tokens" in raw
  {
    if "total_lengths" in raw then raw else raw["total_lengths" := Lengths(raw["tokens"])]
  }

  function PickColumn(l: Loaded, partition: seq<nat>): Loaded
    requires IsList(l) && InRange(partition, |l.parts|)
  {
    LBranch(List, PickAll(l.parts, partition))
  }

  function PickedFrom(layout: Layout, columns: Columns, partition: seq<nat>): (r: Columns)
    requires Partitioned(layout, columns, partition)
    ensures forall k :: k in r <==> k in columns && k in layout.fields + layout.whole
    ensures forall k | k in r :: r[k] == if k in layout.whole then columns[k] else PickColumn(columns[k], partition)
  {
    (map k | k in layout.fields && k in columns :: PickColumn(columns[k], partition))
    + (map k | k in layout.whole && k in columns :: columns[k])
  }

  /** A rank of the in-memory transports: elements are picked, the schedule is added, and all that is converted. */
  function MemoryView(layout: Layout, conv: Conversion, raw: Columns, partition: seq<nat>, schedule: Columns)
    : Option<Columns>
    requires ListBatch(layout, raw)
  {
    if !Partitioned(layout, raw, partition) then None
    else Some(Tensorize(layout, conv, PickedFrom(layout, WithLengths(raw), partition) + schedule))
  }

  // ------------------------------------------------------------- converting and picking

  /** Indexing a tensor of one dimension picks its elements. */
  ghost predicate PicksRows(gather: Gather) {
    forall data: Tensor, indices | data.shape == [|data.elements|] ::
      gather(LTensor(data), indices)
      == if InRange(indices, |data.elements|) then
           Some(LTensor(Tensor([|indices|], data.dtype, PickAll(data.elements, indices))))
         else None
  }

  function GatherRows(l: Loaded, indices: seq<nat>): Option<Loaded> {
    if l.LTensor? && l.data.shape == [|l.data.elements|] && InRange(indices, |l.data.elements|) then
      Some(LTensor(Tensor([|indices|], l.data.dtype, PickAll(l.data.elements, indices))))
    else None
  }

  /** Such indexing exists, and need not look at marks. */
  lemma RowsGathered()
    ensures PicksRows(GatherRows) && MarkBlind(GatherRows)
  {
    forall a, b, indices | Unmarked(a) == Unmarked(b)
      ensures SameOutcome(GatherRows(a, indices), GatherRows(b, indices))
    {
      assert a.LTensor? ==> a == b;
    }
  }

  /** Converting a column and picking from it, in either order, is the same. */
  lemma ConvertPicks(layout: Layout, conv: Conversion, k: string, l: Loaded, partition: seq<nat>, gather: Gather)
    requires IsList(l) && PicksRows(gather)
    ensures
      SelectColumn(TensorizeColumn(layout, conv, k, l), Some(partition), gather)
      == if InRange(partition, |l.parts|) then Some(TensorizeColumn(layout, conv, k, PickColumn(l, partition)))
         else None
  {
    if InRange(partition, |l.parts|) {
      var picked := PickAll(l.parts, partition);
      assert PickAll(BitsOf(conv, l.parts), partition) == BitsOf(conv, picked);
      if k in layout.types {
        PickConverted(l.parts, x => ToTensor(conv, layout.types[k], x), partition);
      } else {
        PickConverted(l.parts, ToInputs, partition);
      }
    }
  }

  lemma PickConverted(parts: seq<Loaded>, f: Loaded -> Loaded, partition: seq<nat>)
    requires InRange(partition, |parts|)
    ensures PickAll(ConvertAll(parts, f), partition) == ConvertAll(PickAll(parts, partition), f)
  {
  }

  // ------------------------------------------------------------- selecting key by key

  ghost predicate SelectsEach(columns: Columns, selection: Selection, gather: Gather, r: Columns) {
    && (forall k :: k in r <==> k in columns && k in selection)
    && (forall k | k in r :: SelectColumn(columns[k], selection[k], gather) == Some(r[k]))
  }

  ghost predicate Selectable(columns: Columns, selection: Selection, gather: Gather) {
    forall k | k in columns && k in selection :: SelectColumn(columns[k], selection[k], gather).Some?
  }

  lemma DictionaryFirst(parts: seq<Loaded>)
    requires |parts| >= 2 && DistinctKeys(parts)
    ensures DistinctKeys(parts[2..])
    ensures IsText(parts[0]) ==>
      parts[0].scalar.text !in ColumnsOf(parts[2..])
      && ColumnsOf(parts) == map[parts[0].scalar.text := parts[1]] + ColumnsOf(parts[2..])
    ensures !IsText(parts[0]) ==> ColumnsOf(parts) == ColumnsOf(parts[2..])
  {
    if IsText(parts[0]) {
      NamesFirst(parts);
    } else {
      NamesSkip(parts);
    }
  }

  /** Selecting from a dictionary fails when it fails for one of its columns, and otherwise works key by key. */
  lemma {:induction false} SelectColumnsEach(parts: seq<Loaded>, selection: Selection, gather: Gather)
    requires DistinctKeys(parts)
    ensures
      var r := SelectColumns(parts, selection, gather);
      && (r.Some? <==> Selectable(ColumnsOf(parts), selection, gather))
      && (r.Some? ==> SelectsEach(ColumnsOf(parts), selection, gather, r.value))
    decreases |parts|
  {
    if |parts| >= 2 {
      DictionaryFirst(parts);
      SelectColumnsEach(parts[2..], selection, gather);
      if IsText(parts[0]) {
        OneColumnMore(parts[0].scalar.text, parts[1], ColumnsOf(parts[2..]), selection, gather);
      }
    }
  }

  lemma OneColumnMore(key: string, l: Loaded, rest: Columns, selection: Selection, gather: Gather)
    requires key !in rest
    ensures
      Selectable(map[key := l] + rest, selection, gather)
      <==> Selectable(rest, selection, gather)
           && (key in selection ==> SelectColumn(l, selection[key], gather).Some?)
  {
    var columns := map[key := l] + rest;
    assert forall k | k in rest :: k in columns && columns[k] == rest[k];
    assert key in columns && columns[key] == l;
  }

  // ------------------------------------------------------------- the views agree

  /** The dictionary has these columns, as far as ranks read them. */
  predicate StandsFor(layout: Layout, columns: Columns, published: Columns) {
    forall k | k in layout.fields + layout.whole ::
      (k in columns <==> k in published) && (k in columns ==> columns[k] == published[k])
  }

  /** The value to publish is a dictionary of these columns. */
  predicate Stands(layout: Layout, objects: Objects, v: Value, published: Columns) {
    && v.Branch? && v.tag.Dict? && PlainKeys(v.parts) && DistinctKeys(MeaningAll(objects, v.parts))
    && StandsFor(layout, ColumnsOf(MeaningAll(objects, v.parts)), published)
  }

  /** Lengths that the conversion gives are those of the tokens. */
  predicate TotalsStand(raw: Columns)
    requires "tokens" in raw
  {
    "total_lengths" in raw ==> raw["total_lengths"] == Lengths(raw["tokens"])
  }

  lemma FieldStored(
    layout: Layout, conv: Conversion, raw: Columns, columns: Columns, k: string, partition: seq<nat>, gather: Gather)
    requires ListBatch(layout, raw) && StandsFor(layout, columns, Published(layout, conv, raw)) && PicksRows(gather)
    requires k in layout.fields && k in columns
    ensures k in raw && k !in layout.whole && k != "total_lengths"
    ensures
      SelectColumn(columns[k], Some(partition), gather)
      == if InRange(partition, |raw[k].parts|) then Some(TensorizeColumn(layout, conv, k, PickColumn(raw[k], partition)))
         else None
  {
    assert "total_lengths" in layout.whole;
    ConvertPicks(layout, conv, k, raw[k], partition, gather);
  }

  lemma StoredSelectable(
    layout: Layout, conv: Conversion, raw: Columns, columns: Columns, partition: seq<nat>, gather: Gather)
    requires ListBatch(layout, raw) && StandsFor(layout, columns, Published(layout, conv, raw)) && PicksRows(gather)
    ensures Selectable(columns, RankSelection(layout, partition), gather) <==> Partitioned(layout, raw, partition)
  {
    var selection := RankSelection(layout, partition);
    forall k | k in layout.fields && k in raw
      ensures k in columns && k in selection
      ensures SelectColumn(columns[k], selection[k], gather).Some? <==> InRange(partition, |raw[k].parts|)
    {
      FieldStored(layout, conv, raw, columns, k, partition, gather);
    }
    forall k | k in columns && k in selection
      ensures k in layout.whole || (k in layout.fields && k in raw)
    {
      if k !in layout.whole {
        FieldStored(layout, conv, raw, columns, k, partition, gather);
      }
    }
  }

  lemma Unconverted(layout: Layout, conv: Conversion, k: string, l: Loaded)
    requires k in layout.schedule + layout.whole
    ensures TensorizeColumn(layout, conv, k, l) == l
  {
    assert !IsConverted(layout, k);
  }

  function ColumnAt(columns: Columns, k: string): Option<Loaded> {
    if k in columns then Some(columns[k]) else None
  }

  /** One column of a rank in memory. */
  function MemoryColumn(
    layout: Layout, conv: Conversion, raw: Columns, partition: seq<nat>, schedule: Columns, k: string): Option<Loaded>
    requires ListBatch(layout, raw) && Partitioned(layout, raw, partition)
  {
    if k in schedule then Some(schedule[k])
    else if k in layout.whole then ColumnAt(WithLengths(raw), k)
    else if k in layout.fields && k in raw then Some(TensorizeColumn(layout, conv, k, PickColumn(raw[k], partition)))
    else None
  }

  lemma MemoryAt(layout: Layout, conv: Conversion, raw: Columns, partition: seq<nat>, schedule: Columns, k: string)
    requires ListBatch(layout, raw) && Partitioned(layout, raw, partition) && schedule.Keys <= layout.schedule
    ensures ColumnAt(MemoryView(layout, conv, raw, partition, schedule).value, k)
         == MemoryColumn(layout, conv, raw, partition, schedule, k)
  {
    var picked := PickedFrom(layout, WithLengths(raw), partition);
    if k in schedule {
      Unconverted(layout, conv, k, schedule[k]);
    } else if k in layout.whole && k in picked {
      Unconverted(layout, conv, k, picked[k]);
    }
  }

  /** The model inputs of one sample on a rank: the arrays of a dictionary are tensors, the rest is as it was. */
  ghost predicate InputsHeld(given: Loaded, held: Loaded) {
    if given.LBranch? && given.tag.Dict? then
      && held.LBranch? && held.tag.Dict? && |held.parts| == |given.parts|
      && forall i | 0 <= i < |given.parts| ::
           held.parts[i] == if i % 2 == 1 && given.parts[i].LArray? then LTensor(given.parts[i].data) else given.parts[i]
    else held == given
  }

  /** What a rank holds of one sample in column `k`. */
  ghost predicate ElementHeld(layout: Layout, conv: Conversion, k: string, given: Loaded, held: Loaded) {
    if k in layout.types then
      held == if given.LLazy? then given else LTensor(conv.tensor(given, layout.types[k]))
    else if k == "multimodal_train_inputs" then InputsHeld(given, held)
    else held == given
  }

  /** A rank's part of column `k`: entry `i` is that of the sample `partition[i]`. */
  ghost predicate FieldHeld(
    layout: Layout, conv: Conversion, k: string, given: Loaded, partition: seq<nat>, held: Loaded)
    requires IsList(given) && InRange(partition, |given.parts|)
  {
    if k == "rollout_mask_sums" && k !in layout.types then
      && held.LTensor? && held.data.shape == [|partition|] && held.data.dtype == "float32"
      && |held.data.elements| == |partition|
      && forall i | 0 <= i < |partition| :: held.data.elements[i] == conv.bits(given.parts[partition[i]])
    else
      && held.LBranch? && held.tag == List && |held.parts| == |partition|
      && forall i | 0 <= i < |partition| :: ElementHeld(layout, conv, k, given.parts[partition[i]], held.parts[i])
  }

  lemma FieldIsHeld(layout: Layout, conv: Conversion, k: string, given: Loaded, partition: seq<nat>, held: Loaded)
    requires IsList(given) && InRange(partition, |given.parts|)
    ensures held == TensorizeColumn(layout, conv, k, PickColumn(given, partition))
       <==> FieldHeld(layout, conv, k, given, partition, held)
  {
    var own := TensorizeColumn(layout, conv, k, PickColumn(given, partition));
    assert forall i | 0 <= i < |partition| :: PickAll(given.parts, partition)[i] == given.parts[partition[i]];
    if FieldHeld(layout, conv, k, given, partition, held) {
      if own.LBranch? {
        forall i | 0 <= i < |partition|
          ensures own.parts[i] == held.parts[i]
        {
          assert ElementHeld(layout, conv, k, given.parts[partition[i]], held.parts[i]);
          InputsAreHeld(given.parts[partition[i]], held.parts[i]);
        }
      } else {
        assert own.data.elements == held.data.elements;
      }
    }
  }

  lemma InputsAreHeld(given: Loaded, held: Loaded)
    ensures InputsHeld(given, held) <==> held == ToInputs(given)
  {
    if InputsHeld(given, held) && given.LBranch? && given.tag.Dict? {
      assert held.parts == ToInputs(given).parts;
    }
  }

  /** A rank in memory holds its part of each per-sample column, the columns it gets whole, and its schedule. */
  lemma MemoryHolds(layout: Layout, conv: Conversion, raw: Columns, partition: seq<nat>, schedule: Columns, k: string)
    requires ListBatch(layout, raw) && Partitioned(layout, raw, partition) && schedule.Keys <= layout.schedule
    ensures
      var m := MemoryView(layout, conv, raw, partition, schedule).value;
      && (k in m <==> k in schedule || k == "total_lengths" || (k in layout.fields + layout.whole && k in raw))
      && (k in schedule ==> m[k] == schedule[k])
      && (k in layout.whole && k in raw ==> m[k] == raw[k])
      && (k == "total_lengths" && k !in raw ==> m[k] == Lengths(raw["tokens"]))
      && (k in layout.fields && k in raw ==> FieldHeld(layout, conv, k, raw[k], partition, m[k]))
  {
    assert "total_lengths" in layout.whole;
    MemoryAt(layout, conv, raw, partition, schedule, k);
    if k in layout.fields && k in raw {
      FieldIsHeld(layout, conv, k, raw[k], partition, TensorizeColumn(layout, conv, k, PickColumn(raw[k], partition)));
    }
  }

  /** The columns of the publication that every rank gets whole. */
  lemma WholeStored(layout: Layout, conv: Conversion, raw: Columns, columns: Columns, k: string)
    requires "tokens" in raw && StandsFor(layout, columns, Published(layout, conv, raw)) && k in layout.whole
    ensures k in columns <==> k in WithLengths(raw)
    ensures k in columns ==>
      columns[k] == if k == "total_lengths" then Lengths(raw["tokens"]) else WithLengths(raw)[k]
  {
    var given := raw["total_lengths" := Lengths(raw["tokens"])];
    if k in given {
      Unconverted(layout, conv, k, given[k]);
    }
  }

  /** What the theorem is about: the dictionary `columns` was published, and `r` was selected from it. */
  ghost predicate Serves(
    layout: Layout, conv: Conversion, raw: Columns, columns: Columns, partition: seq<nat>, gather: Gather, r: Columns)
  {
    && ListBatch(layout, raw) && StandsFor(layout, columns, Published(layout, conv, raw)) && PicksRows(gather)
    && Partitioned(layout, raw, partition) && SelectsEach(columns, RankSelection(layout, partition), gather, r)
  }

  /** One column of a rank from storage: the same as in memory but for the lengths. */
  lemma StoredAt(
    layout: Layout, conv: Conversion, raw: Columns, columns: Columns, partition: seq<nat>, schedule: Columns,
    gather: Gather, r: Columns, k: string)
    requires Serves(layout, conv, raw, columns, partition, gather, r) && schedule.Keys <= layout.schedule
    ensures ColumnAt(r + schedule, k)
         == if k == "total_lengths" then Some(Lengths(raw["tokens"]))
            else ColumnAt(MemoryView(layout, conv, raw, partition, schedule).value, k)
  {
    MemoryAt(layout, conv, raw, partition, schedule, k);
    if k in layout.whole {
      WholeStored(layout, conv, raw, columns, k);
    } else if k in layout.fields && k in columns {
      FieldStored(layout, conv, raw, columns, k, partition, gather);
    }
  }

  /** What storage gives is what memory gives, with the lengths of the tokens. */
  lemma StoredColumns(
    layout: Layout, conv: Conversion, raw: Columns, columns: Columns, partition: seq<nat>, schedule: Columns,
    gather: Gather, r: Columns, m: Columns, lengths: Loaded)
    requires Serves(layout, conv, raw, columns, partition, gather, r) && schedule.Keys <= layout.schedule
    requires MemoryView(layout, conv, raw, partition, schedule) == Some(m) && lengths == Lengths(raw["tokens"])
    ensures r + schedule == m["total_lengths" := lengths]
  {
    var a := r + schedule;
    forall k
      ensures ColumnAt(a, k) == if k == "total_lengths" then Some(lengths) else ColumnAt(m, k)
    {
      StoredAt(layout, conv, raw, columns, partition, schedule, gather, r, k);
    }
    SameAt(a, m, "total_lengths", lengths);
  }

  lemma SameAt(a: Columns, m: Columns, key: string, l: Loaded)
    requires forall k :: ColumnAt(a, k) == if k == key then Some(l) else ColumnAt(m, k)
    ensures a == m[key := l]
  {
    forall k
      ensures (k in a <==> k in m[key := l]) && (k in a ==> a[k] == m[key := l][k])
    {
      assert ColumnAt(a, k) == if k == key then Some(l) else ColumnAt(m, k);
    }
  }

  lemma LengthsPlain(l: Loaded, tokens: Loaded)
    requires Unmarked(l) == Unmarked(Lengths(tokens))
    ensures l == Lengths(tokens)
  {
    var lengths := Lengths(tokens);
    forall i | 0 <= i < |lengths.parts|
      ensures l.parts[i] == lengths.parts[i]
    {
      assert Unmarked(l.parts[i]) == Unmarked(lengths.parts[i]);
    }
  }

  /** Replacing the lengths leaves the contents exactly when they were those of the tokens. */
  lemma TotalsMatter(
    layout: Layout, conv: Conversion, raw: Columns, partition: seq<nat>, schedule: Columns, m: Columns)
    requires ListBatch(layout, raw) && schedule.Keys <= layout.schedule
    requires MemoryView(layout, conv, raw, partition, schedule) == Some(m)
    ensures
      var m' := m["total_lengths" := Lengths(raw["tokens"])];
      (SameContents(m', m) <==> TotalsStand(raw)) && (m' == m <==> TotalsStand(raw))
  {
    MemoryAt(layout, conv, raw, partition, schedule, "total_lengths");
    var given, own := WithLengths(raw)["total_lengths"], Lengths(raw["tokens"]);
    assert m["total_lengths"] == given;
    assert m["total_lengths" := own]["total_lengths"] == own;
    if Unmarked(own) == Unmarked(given) {
      LengthsPlain(given, raw["tokens"]);
    }
    if given == own {
      assert m["total_lengths" := own] == m;
    }
  }

  lemma SameContentsAdded(a: Columns, b: Columns, schedule: Columns)
    requires SameContents(a, b)
    ensures SameContents(a + schedule, b + schedule)
  {
  }

  lemma SameContentsVia(a: Columns, b: Columns, c: Columns)
    requires SameContents(a, b)
    ensures SameContents(a, c) <==> SameContents(b, c)
  {
  }

  /**
   For every batch of list columns and every partition, a rank sees the same
   contents through storage as through memory.
   */
  lemma ViewsKeepContents(
    layout: Layout, objects: Objects, before: Store, store: Store, base: nat, v: Value, max: nat,
    pubs: seq<Publication>, root: nat, conv: Conversion, raw: Columns, partition: seq<nat>, schedule: Columns,
    gather: Gather)
    requires max >= 2 && before <= store && Backed(objects, before)
    requires Publishes(objects, v, max, pubs) && Sits(store, base, pubs) && root == base + |pubs| - 1
    requires ListBatch(layout, raw) && schedule.Keys <= layout.schedule
    requires Stands(layout, objects, v, Published(layout, conv, raw))
    requires MarkBlind(gather) && PicksRows(gather)
    ensures
      var s := StoredView(layout, store, root, partition, schedule, gather);
      var m := MemoryView(layout, conv, raw, partition, schedule);
      (s.Some? <==> m.Some?) && (s.Some? ==> (SameContents(s.value, m.value) <==> TotalsStand(raw)))
  {
    var selection, parts := RankSelection(layout, partition), MeaningAll(objects, v.parts);
    SelectionKeepsContents(objects, before, store, base, v, max, pubs, root, selection, gather);
    SelectColumnsEach(parts, selection, gather);
    StoredSelectable(layout, conv, raw, ColumnsOf(parts), partition, gather);
    var r := SelectColumns(parts, selection, gather);
    if r.Some? {
      var m := MemoryView(layout, conv, raw, partition, schedule).value;
      StoredColumns(
        layout, conv, raw, ColumnsOf(parts), partition, schedule, gather, r.value, m, Lengths(raw["tokens"]));
      TotalsMatter(layout, conv, raw, partition, schedule, m);
      var loaded := LoadSelected(store, root, selection, gather).value;
      SameContentsAdded(loaded, r.value, schedule);
      SameContentsVia(loaded + schedule, r.value + schedule, m);
    }
  }

  /** And the very same values, when the handles in the batch agree. */
  lemma ViewsAgree(
    layout: Layout, objects: Objects, before: Store, store: Store, base: nat, v: Value, max: nat,
    pubs: seq<Publication>, root: nat, conv: Conversion, raw: Columns, partition: seq<nat>, schedule: Columns,
    gather: Gather)
    requires max >= 2 && before <= store && Backed(objects, before)
    requires Publishes(objects, v, max, pubs) && Sits(store, base, pubs) && root == base + |pubs| - 1
    requires ListBatch(layout, raw) && schedule.Keys <= layout.schedule
    requires Stands(layout, objects, v, Published(layout, conv, raw))
    requires ColumnsAgree(objects, v.parts) && PicksRows(gather)
    ensures
      var s := StoredView(layout, store, root, partition, schedule, gather);
      var m := MemoryView(layout, conv, raw, partition, schedule);
      (s.Some? <==> m.Some?) && (s.Some? ==> (s == m <==> TotalsStand(raw)))
  {
    var selection, parts := RankSelection(layout, partition), MeaningAll(objects, v.parts);
    SelectionCommutes(objects, before, store, base, v, max, pubs, root, selection, gather);
    SelectColumnsEach(parts, selection, gather);
    StoredSelectable(layout, conv, raw, ColumnsOf(parts), partition, gather);
    var r := SelectColumns(parts, selection, gather);
    if r.Some? {
      var m := MemoryView(layout, conv, raw, partition, schedule).value;
      StoredColumns(
        layout, conv, raw, ColumnsOf(parts), partition, schedule, gather, r.value, m, Lengths(raw["tokens"]));
      TotalsMatter(layout, conv, raw, partition, schedule, m);
    }
  }
}
