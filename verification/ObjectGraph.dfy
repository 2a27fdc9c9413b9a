/**
 From Python objects to values (vime/data/codec.py, `visit` in `prepare`). Objects
 may refer to each other freely; a container that is met again inside itself is
 refused, and so is an object of an unknown type.
 */
module ObjectGraph {
  import opened CodecValues

  datatype Field = Field(name: string, id: Id)

  /** `checked` names the capture fields that passed validation. */
  datatype Object =
    | Leaf(value: Value)
    | Container(tag: Tag<Ref>, ids: seq<Id>)
    | SampleObject(fields: seq<Field>, checked: set<string>)
    | Unknown

  type Heap = map<Id, Object>

  datatype Part = Direct(value: Value) | Child(id: Id) | Refused

  datatype Refusal = Cyclic | Unsupported

  datatype Result = Value(value: CodecValues.Value) | Error(refusal: Refusal)

  datatype Results = Values(values: seq<CodecValues.Value>) | Stopped(refusal: Refusal)

  /** Fields that hold sampler captures; they are stored as lazy tensors. */
  const CAPTURES: set<string> := {
    "rollout_routed_experts", "rollout_topk_token_ids", "rollout_topk_log_probs",
    "rollout_top_p_token_ids", "rollout_top_p_token_offsets", "rollout_top_p_log_probs"}

  predicate IsTensor(o: Object) {
    o.Leaf? && (o.value.TensorAt? || o.value.ArrayAt?)
  }

  function FieldPart(heap: Heap, f: Field, checked: set<string>): Part
    requires f.id in heap
  {
    if f.name in CAPTURES && heap[f.id] != Leaf(Prim(Null)) then
      if IsTensor(heap[f.id]) then Direct(Capture(heap[f.id].value.id, f.name, f.name in checked)) else Refused
    else Child(f.id)
  }

  function FieldParts(heap: Heap, fields: seq<Field>, checked: set<string>): (r: seq<Part>)
    requires forall i | 0 <= i < |fields| :: fields[i].id in heap
  {
    if fields == [] then []
    else [Direct(Prim(Text(fields[0].name))), FieldPart(heap, fields[0], checked)]
         + FieldParts(heap, fields[1..], checked)
  }

  /** Every object an object refers to exists. */
  predicate WellFormed(heap: Heap) {
    forall id | id in heap ::
      match heap[id]
      case Container(_, ids) => forall i | 0 <= i < |ids| :: ids[i] in heap
      case SampleObject(fields, _) => forall i | 0 <= i < |fields| :: fields[i].id in heap
      case _ => true
  }

  function Children(ids: seq<Id>): (r: seq<Part>)
    ensures |r| == |ids| && forall i | 0 <= i < |ids| :: r[i] == Child(ids[i])
  {
    seq(|ids|, i requires 0 <= i < |ids| => Child(ids[i]))
  }

  function PartsOf(heap: Heap, id: Id): (r: seq<Part>)
    requires WellFormed(heap) && id in heap
  {
    match heap[id]
    case Leaf(_) => []
    case Container(_, ids) => Children(ids)
    case SampleObject(fields, checked) => FieldParts(heap, fields, checked)
    case Unknown => [Refused]
  }

  lemma {:induction false} FieldPartsKnown(heap: Heap, fields: seq<Field>, checked: set<string>)
    requires forall i | 0 <= i < |fields| :: fields[i].id in heap
    ensures Known(heap, FieldParts(heap, fields, checked))
  {
    if fields != [] {
      FieldPartsKnown(heap, fields[1..], checked);
    }
  }

  predicate Known(heap: Heap, parts: seq<Part>) {
    forall i | 0 <= i < |parts| && parts[i].Child? :: parts[i].id in heap
  }

  lemma PartsKnown(heap: Heap, id: Id)
    requires WellFormed(heap) && id in heap
    ensures Known(heap, PartsOf(heap, id))
  {
    if heap[id].SampleObject? {
      FieldPartsKnown(heap, heap[id].fields, heap[id].checked);
    }
  }

  function TagOf(o: Object): Tag<Ref> {
    if o.Container? then o.tag else Sample
  }

  /** `active` holds the containers being visited. */
  function Unfold(heap: Heap, id: Id, active: set<Id>): Result
    requires WellFormed(heap) && id in heap
    decreases heap.Keys - active, 0
  {
    PartsKnown(heap, id);
    if heap[id].Leaf? then Value(heap[id].value)
    else if id in active then Error(Cyclic)
    else
      assert id in heap.Keys - active && id !in heap.Keys - (active + {id});
      match UnfoldAll(heap, PartsOf(heap, id), active + {id})
      case Values(values) => Value(Branch(TagOf(heap[id]), values))
      case Stopped(refusal) => Error(refusal)
  }

  function UnfoldAll(heap: Heap, parts: seq<Part>, active: set<Id>): Results
    requires WellFormed(heap) && Known(heap, parts)
    decreases heap.Keys - active, |parts| + 1
  {
    if parts == [] then Values([])
    else
      var first := UnfoldPart(heap, parts[0], active);
      if !first.Value? then Stopped(first.refusal)
      else
        match UnfoldAll(heap, parts[1..], active)
        case Values(values) => Values([first.value] + values)
        case Stopped(refusal) => Stopped(refusal)
  }

  function UnfoldPart(heap: Heap, part: Part, active: set<Id>): Result
    requires WellFormed(heap) && (part.Child? ==> part.id in heap)
    decreases heap.Keys - active, 1
  {
    match part
    case Direct(value) => Value(value)
    case Child(id) => Unfold(heap, id, active)
    case Refused => Error(Unsupported)
  }

  // ------------------------------------------------------------- what is unfolded

  /** The field is a sampler capture that is present. */
  ghost predicate HoldsCapture(heap: Heap, f: Field)
    requires f.id in heap
  {
    f.name in CAPTURES && heap[f.id] != Leaf(Prim(Null))
  }

  /** The object is the tensor or the array with identity `t`. */
  ghost predicate TensorOf(o: Object, t: Id) {
    o == Leaf(TensorAt(t)) || o == Leaf(ArrayAt(t))
  }

  /**
   `v` is the object as a finite tree, without regard to the way it was reached: a
   container keeps its tag and its items in order, a sample is the names and the
   values of its fields in turn.
   */
  ghost predicate Denotes(heap: Heap, id: Id, v: CodecValues.Value)
    requires WellFormed(heap)
    decreases v, 0
  {
    && id in heap
    && match heap[id]
       case Leaf(value) => v == value
       case Container(tag, ids) =>
         && v.Branch? && v.tag == tag && |v.parts| == |ids|
         && (forall i | 0 <= i < |ids| :: Denotes(heap, ids[i], v.parts[i]))
       case SampleObject(fields, checked) =>
         && v.Branch? && v.tag == Sample && |v.parts| == 2 * |fields|
         && (forall k | 0 <= k < |fields| ::
               && v.parts[2 * k] == Prim(Text(fields[k].name))
               && FieldDenotes(heap, fields[k], checked, v.parts[2 * k + 1]))
       case Unknown => false
  }

  /** A capture is a tensor, under its field's name and with its validated mark; any other field is what it refers to. */
  ghost predicate FieldDenotes(heap: Heap, f: Field, checked: set<string>, v: CodecValues.Value)
    requires WellFormed(heap)
    decreases v, 1
  {
    && f.id in heap
    && if HoldsCapture(heap, f) then exists t: Id :: TensorOf(heap[f.id], t) && v == Capture(t, f.name, f.name in checked)
       else Denotes(heap, f.id, v)
  }

  ghost predicate PartDenotes(heap: Heap, part: Part, v: CodecValues.Value)
    requires WellFormed(heap)
  {
    match part
    case Direct(value) => v == value
    case Child(id) => Denotes(heap, id, v)
    case Refused => false
  }

  lemma {:induction false} FieldPartsAt(heap: Heap, fields: seq<Field>, checked: set<string>, k: nat)
    requires (forall i | 0 <= i < |fields| :: fields[i].id in heap) && k < |fields|
    ensures
      var parts := FieldParts(heap, fields, checked);
      && |parts| == 2 * |fields|
      && parts[2 * k] == Direct(Prim(Text(fields[k].name)))
      && parts[2 * k + 1] == FieldPart(heap, fields[k], checked)
  {
    var first := [Direct(Prim(Text(fields[0].name))), FieldPart(heap, fields[0], checked)];
    if |fields| > 1 {
      FieldPartsAt(heap, fields[1..], checked, if k == 0 then 0 else k - 1);
    } else {
      assert FieldParts(heap, fields[1..], checked) == [];
    }
  }

  lemma FieldPartDenotes(heap: Heap, f: Field, checked: set<string>, v: CodecValues.Value)
    requires WellFormed(heap) && f.id in heap
    ensures PartDenotes(heap, FieldPart(heap, f, checked), v) == FieldDenotes(heap, f, checked, v)
  {
    if HoldsCapture(heap, f) && IsTensor(heap[f.id]) {
      assert TensorOf(heap[f.id], heap[f.id].value.id);
    }
  }

  /** A branch of the parts of an object is what it denotes exactly when each part is. */
  lemma PartsDenote(heap: Heap, id: Id, vs: seq<CodecValues.Value>)
    requires WellFormed(heap) && id in heap && (heap[id].Container? || heap[id].SampleObject?)
    requires |vs| == |PartsOf(heap, id)|
    requires forall i | 0 <= i < |vs| :: PartDenotes(heap, PartsOf(heap, id)[i], vs[i])
    ensures Denotes(heap, id, Branch(TagOf(heap[id]), vs))
  {
    var parts := PartsOf(heap, id);
    match heap[id]
    case Container(_, ids) =>
      assert forall i | 0 <= i < |ids| :: parts[i] == Child(ids[i]);
    case SampleObject(fields, checked) =>
      forall k: nat | k < |fields|
        ensures 2 * k + 1 < |vs| && vs[2 * k] == Prim(Text(fields[k].name))
        ensures FieldDenotes(heap, fields[k], checked, vs[2 * k + 1])
      {
        FieldPartsAt(heap, fields, checked, k);
        assert PartDenotes(heap, parts[2 * k], vs[2 * k]) && PartDenotes(heap, parts[2 * k + 1], vs[2 * k + 1]);
        FieldPartDenotes(heap, fields[k], checked, vs[2 * k + 1]);
      }
      if fields != [] {
        FieldPartsAt(heap, fields, checked, 0);
      }
  }

  lemma {:induction false} UnfoldDenotes(heap: Heap, id: Id, active: set<Id>)
    requires WellFormed(heap) && id in heap && Unfold(heap, id, active).Value?
    ensures Denotes(heap, id, Unfold(heap, id, active).value)
    decreases heap.Keys - active, 0
  {
    PartsKnown(heap, id);
    if !heap[id].Leaf? {
      assert id in heap.Keys - active && id !in heap.Keys - (active + {id});
      UnfoldAllDenotes(heap, PartsOf(heap, id), active + {id});
      PartsDenote(heap, id, UnfoldAll(heap, PartsOf(heap, id), active + {id}).values);
    }
  }

  /** An object is at most one value. */
  lemma {:induction false} DenotesOne(heap: Heap, id: Id, v: CodecValues.Value, w: CodecValues.Value)
    requires WellFormed(heap) && Denotes(heap, id, v) && Denotes(heap, id, w)
    ensures v == w
    decreases v, 0
  {
    match heap[id]
    case Leaf(_) =>
    case Container(_, ids) =>
      forall i | 0 <= i < |ids|
        ensures v.parts[i] == w.parts[i]
      {
        DenotesOne(heap, ids[i], v.parts[i], w.parts[i]);
      }
    case SampleObject(fields, checked) =>
      forall k: nat | k < |fields|
        ensures v.parts[2 * k] == w.parts[2 * k] && v.parts[2 * k + 1] == w.parts[2 * k + 1]
      {
        if !HoldsCapture(heap, fields[k]) {
          DenotesOne(heap, fields[k].id, v.parts[2 * k + 1], w.parts[2 * k + 1]);
        }
      }
      InPairs(v.parts, w.parts, |fields|);
  }

  lemma InPairs<T>(a: seq<T>, b: seq<T>, n: nat)
    requires |a| == |b| == 2 * n
    requires forall k: nat | k < n :: a[2 * k] == b[2 * k] && a[2 * k + 1] == b[2 * k + 1]
    ensures a == b
  {
    forall i | 0 <= i < 2 * n
      ensures a[i] == b[i]
    {
      var k := i / 2;
      assert a[2 * k] == b[2 * k];
    }
  }

  lemma {:induction false} UnfoldAllDenotes(heap: Heap, parts: seq<Part>, active: set<Id>)
    requires WellFormed(heap) && Known(heap, parts) && UnfoldAll(heap, parts, active).Values?
    ensures
      var vs := UnfoldAll(heap, parts, active).values;
      |vs| == |parts| && forall i | 0 <= i < |parts| :: PartDenotes(heap, parts[i], vs[i])
    decreases heap.Keys - active, |parts| + 1
  {
    if parts != [] {
      if parts[0].Child? {
        UnfoldDenotes(heap, parts[0].id, active);
      }
      UnfoldAllDenotes(heap, parts[1..], active);
    }
  }

  // ------------------------------------------------------------- what is refused

  /** Object `a` contains object `b`: as an item, or as a field that is not a capture. */
  ghost predicate Edge(heap: Heap, a: Id, b: Id)
    requires WellFormed(heap)
  {
    && a in heap && b in heap
    && match heap[a]
       case Container(_, ids) => b in ids
       case SampleObject(fields, _) => exists f :: f in fields && f.id == b && !HoldsCapture(heap, f)
       case _ => false
  }

  /** The object is of an unknown type, or a sample with a capture that is no tensor. */
  ghost predicate RefusedItself(heap: Heap, id: Id)
    requires WellFormed(heap) && id in heap
  {
    match heap[id]
    case Unknown => true
    case SampleObject(fields, _) => exists f :: f in fields && HoldsCapture(heap, f) && !IsTensor(heap[f.id])
    case _ => false
  }

  lemma {:induction false} FieldAmong(heap: Heap, fields: seq<Field>, checked: set<string>, part: Part)
    requires forall i | 0 <= i < |fields| :: fields[i].id in heap
    requires !part.Direct?
    ensures part in FieldParts(heap, fields, checked) <==>
      exists f :: f in fields && f.id in heap && FieldPart(heap, f, checked) == part
  {
    if fields != [] {
      FieldAmong(heap, fields[1..], checked, part);
      assert forall f :: f in fields <==> f == fields[0] || f in fields[1..];
    }
  }

  lemma EdgeIsPart(heap: Heap, a: Id, b: Id)
    requires WellFormed(heap) && a in heap && b in heap
    ensures Edge(heap, a, b) <==> Child(b) in PartsOf(heap, a)
  {
    match heap[a]
    case Leaf(_) =>
    case Container(_, ids) =>
      if b in ids {
        var i :| 0 <= i < |ids| && ids[i] == b;
        assert PartsOf(heap, a)[i] == Child(b);
      }
    case SampleObject(fields, checked) =>
      FieldAmong(heap, fields, checked, Child(b));
    case Unknown =>
  }

  lemma RefusedIsPart(heap: Heap, id: Id)
    requires WellFormed(heap) && id in heap
    ensures RefusedItself(heap, id) <==> Refused in PartsOf(heap, id)
  {
    if heap[id].SampleObject? {
      FieldAmong(heap, heap[id].fields, heap[id].checked, Refused);
    }
  }

  ghost predicate Path(heap: Heap, p: seq<Id>)
    requires WellFormed(heap)
  {
    p != [] && p[0] in heap && forall i | 0 < i < |p| :: Edge(heap, p[i - 1], p[i])
  }

  /** The path comes back to an object on it, or ends at one that is refused by itself. */
  ghost predicate Bad(heap: Heap, p: seq<Id>)
    requires WellFormed(heap) && Path(heap, p)
  {
    var last := p[|p| - 1];
    last in p[..|p| - 1] || (last in heap && RefusedItself(heap, last))
  }

  ghost predicate Refusable(heap: Heap, id: Id)
    requires WellFormed(heap)
  {
    exists p :: Path(heap, p) && p[0] == id && Bad(heap, p)
  }

  function Before(p: seq<Id>, k: nat): (r: set<Id>)
    requires k <= |p|
    ensures forall x :: x in r <==> x in p[..k]
  {
    set x | x in p[..k]
  }

  lemma {:induction false} AllPartsUnfold(heap: Heap, parts: seq<Part>, active: set<Id>, i: nat)
    requires WellFormed(heap) && Known(heap, parts) && UnfoldAll(heap, parts, active).Values? && i < |parts|
    ensures UnfoldPart(heap, parts[i], active).Value?
    decreases |parts|
  {
    if i > 0 {
      AllPartsUnfold(heap, parts[1..], active, i - 1);
    }
  }

  lemma {:induction false} SomePartFails(heap: Heap, parts: seq<Part>, active: set<Id>) returns (i: nat)
    requires WellFormed(heap) && Known(heap, parts) && UnfoldAll(heap, parts, active).Stopped?
    ensures i < |parts| && !UnfoldPart(heap, parts[i], active).Value?
    decreases |parts|
  {
    if UnfoldPart(heap, parts[0], active).Value? {
      i := SomePartFails(heap, parts[1..], active);
      i := i + 1;
    } else {
      i := 0;
    }
  }

  /** A value that unfolds has nothing refused inside it, and what it contains unfolds too. */
  lemma InsideUnfolds(heap: Heap, id: Id, active: set<Id>, child: Id)
    requires WellFormed(heap) && Edge(heap, id, child) && Unfold(heap, id, active).Value?
    ensures id !in active && Unfold(heap, child, active + {id}).Value?
  {
    PartsKnown(heap, id);
    EdgeIsPart(heap, id, child);
    var parts := PartsOf(heap, id);
    var i: nat :| i < |parts| && parts[i] == Child(child);
    AllPartsUnfold(heap, parts, active + {id}, i);
  }

  lemma NothingRefused(heap: Heap, id: Id, active: set<Id>)
    requires WellFormed(heap) && id in heap && Unfold(heap, id, active).Value?
    ensures !RefusedItself(heap, id) && (id in active ==> heap[id].Leaf?)
  {
    PartsKnown(heap, id);
    RefusedIsPart(heap, id);
    var parts := PartsOf(heap, id);
    if !heap[id].Leaf? {
      forall i | 0 <= i < |parts|
        ensures parts[i] != Refused
      {
        AllPartsUnfold(heap, parts, active + {id}, i);
      }
    }
  }

  lemma {:induction false} PathUnfolds(heap: Heap, p: seq<Id>, k: nat)
    requires WellFormed(heap) && Path(heap, p) && Unfold(heap, p[0], {}).Value? && k < |p|
    ensures p[k] in heap && Unfold(heap, p[k], Before(p, k)).Value?
  {
    if k == 0 {
      assert Before(p, 0) == {};
    } else {
      PathUnfolds(heap, p, k - 1);
      assert Edge(heap, p[k - 1], p[k]);
      InsideUnfolds(heap, p[k - 1], Before(p, k - 1), p[k]);
      assert Before(p, k) == Before(p, k - 1) + {p[k - 1]};
    }
  }

  lemma UnfoldedIsNotBad(heap: Heap, p: seq<Id>)
    requires WellFormed(heap) && Path(heap, p) && Unfold(heap, p[0], {}).Value?
    ensures !Bad(heap, p)
  {
    var n := |p| - 1;
    PathUnfolds(heap, p, n);
    NothingRefused(heap, p[n], Before(p, n));
    forall i | 0 <= i < n
      ensures p[i] != p[n]
    {
      assert Edge(heap, p[i + 1 - 1], p[i + 1]);
      assert p[i] in p[..n];
    }
  }

  lemma Extended(heap: Heap, prefix: seq<Id>, id: Id, child: Id)
    requires WellFormed(heap) && Path(heap, prefix + [id]) && Edge(heap, id, child)
    ensures Path(heap, prefix + [id] + [child])
  {
    var p, q := prefix + [id], prefix + [id] + [child];
    forall i | 0 < i < |q|
      ensures Edge(heap, q[i - 1], q[i])
    {
      if i < |p| {
        assert Edge(heap, p[i - 1], p[i]);
      }
    }
  }

  /** A refusal has a bad path behind it. */
  lemma {:induction false} FindBadPath(heap: Heap, prefix: seq<Id>, id: Id) returns (p: seq<Id>)
    requires WellFormed(heap) && id in heap && Path(heap, prefix + [id])
    requires !Unfold(heap, id, Before(prefix, |prefix|)).Value?
    ensures Path(heap, p) && p[0] == (prefix + [id])[0] && Bad(heap, p)
    decreases heap.Keys - Before(prefix, |prefix|)
  {
    var active := Before(prefix, |prefix|);
    p := prefix + [id];
    PartsKnown(heap, id);
    assert p[..|prefix|] == prefix == prefix[..|prefix|];
    if id !in active {
      var parts := PartsOf(heap, id);
      var i := SomePartFails(heap, parts, active + {id});
      if parts[i].Child? {
        var child := parts[i].id;
        EdgeIsPart(heap, id, child);
        Extended(heap, prefix, id, child);
        assert p[..|p|] == p;
        assert Before(p, |p|) == active + {id};
        assert id in heap.Keys - active;
        p := FindBadPath(heap, p, child);
      } else {
        assert parts[i] == Refused;
        RefusedIsPart(heap, id);
      }
    }
  }

  /** A value is refused exactly when it contains itself or something of an unknown type. */
  lemma RefusedIffBadPath(heap: Heap, id: Id)
    requires WellFormed(heap) && id in heap
    ensures Unfold(heap, id, {}).Value? <==> !Refusable(heap, id)
  {
    if Unfold(heap, id, {}).Value? {
      forall p | Path(heap, p) && p[0] == id
        ensures !Bad(heap, p)
      {
        UnfoldedIsNotBad(heap, p);
      }
    } else {
      assert Before([], 0) == {} && [] + [id] == [id];
      var p := FindBadPath(heap, [], id);
    }
  }
}
