/**
 How much a published value takes: every tensor object is written once for each way it
 is used, what is in the codec's own store is not written at all, and every record set
 is named once (vime/data/codec.py, `prepare`).
 */
module CodecSharing {
  import opened Common
  import opened CodecValues
  import opened CodecEncode
  import opened CodecRoundTrip

  /** Object identities of a value with the way each is used; in-memory captures are copied instead. */
  function UsesIn(objects: Objects, v: Value): set<Identity> {
    match v
    case TensorAt(id) => {Identity(id, objects(id).Stored?, None, false)}
    case ArrayAt(id) => {Identity(id, false, None, false)}
    case Capture(id, field, checked) => if objects(id).Stored? then {Identity(id, true, Some(field), checked)} else {}
    case Branch(_, parts) => UsesInAll(objects, parts)
    case _ => {}
  }

  function UsesInAll(objects: Objects, vs: seq<Value>): set<Identity> {
    if vs == [] then {} else UsesIn(objects, vs[0]) + UsesInAll(objects, vs[1..])
  }

  /** Captures that are in memory. */
  function Copies(objects: Objects, v: Value): nat {
    match v
    case Capture(id, _, _) => if objects(id).Stored? then 0 else 1
    case Branch(_, parts) => CopiesAll(objects, parts)
    case _ => 0
  }

  function CopiesAll(objects: Objects, vs: seq<Value>): nat {
    if vs == [] then 0 else Copies(objects, vs[0]) + CopiesAll(objects, vs[1..])
  }

  /** Uses that need a blob: the object is not in the codec's own store. */
  function Written(objects: Objects, uses: set<Identity>): set<Identity> {
    set i | i in uses && !SharesStorage(objects(i.id))
  }

  /** Every record set is named once. */
  ghost predicate NamedOnce(refs: seq<Ref>) {
    forall i, j | 0 <= i < j < |refs| :: refs[i] != refs[j]
  }

  /** What a writer that began fresh has used, and what it has copied. */
  ghost predicate Counts(objects: Objects, w: Writer, copies: nat) {
    && |w.blobs| == |Written(objects, w.aliases.Keys)| + copies
    && NamedOnce(w.dependencies)
  }

  lemma WithRefNamedOnce(refs: seq<Ref>, ref: Ref)
    requires NamedOnce(refs)
    ensures NamedOnce(WithRef(refs, ref))
  {
  }

  lemma OneMoreUse(objects: Objects, uses: set<Identity>, i: Identity)
    requires i !in uses
    ensures |Written(objects, uses + {i})| == |Written(objects, uses)| + if SharesStorage(objects(i.id)) then 0 else 1
  {
    if SharesStorage(objects(i.id)) {
      assert Written(objects, uses + {i}) == Written(objects, uses);
    } else {
      assert Written(objects, uses + {i}) == Written(objects, uses) + {i};
    }
  }

  lemma WriteTensorCounts(objects: Objects, w: Writer, i: Identity, copies: nat)
    requires Counts(objects, w, copies)
    ensures
      var w' := WriteTensor(objects, w, i).1;
      Counts(objects, w', copies) && w'.aliases.Keys == w.aliases.Keys + {i}
  {
    if i !in w.aliases {
      var o := objects(i.id);
      OneMoreUse(objects, w.aliases.Keys, i);
      assert WriteTensor(objects, w, i).1.aliases.Keys == w.aliases.Keys + {i};
      if SharesStorage(o) {
        WithRefNamedOnce(w.dependencies, o.at.ref);
      }
    }
  }

  lemma VisitTagCounts(objects: Objects, w: Writer, tag: Tag<Ref>, copies: nat)
    requires Counts(objects, w, copies)
    ensures
      var w' := VisitTag(w, tag).1;
      Counts(objects, w', copies) && w'.aliases == w.aliases
  {
    if tag.Rollout? {
      WithRefNamedOnce(w.dependencies, tag.ref);
    }
  }

  lemma {:induction false} VisitCounts(objects: Objects, w: Writer, v: Value, copies: nat)
    requires Counts(objects, w, copies)
    ensures
      var w' := Visit(objects, w, v).1;
      && Counts(objects, w', copies + Copies(objects, v))
      && w'.aliases.Keys == w.aliases.Keys + UsesIn(objects, v)
    decreases v
  {
    match v
    case TensorAt(id) => WriteTensorCounts(objects, w, Identity(id, objects(id).Stored?, None, false), copies);
    case ArrayAt(id) => WriteTensorCounts(objects, w, Identity(id, false, None, false), copies);
    case Capture(id, field, checked) =>
      if objects(id).Stored? {
        WriteTensorCounts(objects, w, Identity(id, true, Some(field), checked), copies);
      }
    case RecordSet(ref) => WithRefNamedOnce(w.dependencies, ref);
    case Branch(tag, parts) =>
      VisitTagCounts(objects, w, tag, copies);
      VisitAllCounts(objects, VisitTag(w, tag).1, parts, copies);
    case _ =>
  }

  lemma {:induction false} VisitAllCounts(objects: Objects, w: Writer, vs: seq<Value>, copies: nat)
    requires Counts(objects, w, copies)
    ensures
      var w' := VisitAll(objects, w, vs).1;
      && Counts(objects, w', copies + CopiesAll(objects, vs))
      && w'.aliases.Keys == w.aliases.Keys + UsesInAll(objects, vs)
    decreases vs
  {
    if vs != [] {
      VisitCounts(objects, w, vs[0], copies);
      VisitAllCounts(objects, Visit(objects, w, vs[0]).1, vs[1..], copies + Copies(objects, vs[0]));
      UnionGroups(w.aliases.Keys, UsesIn(objects, vs[0]), UsesInAll(objects, vs[1..]));
    }
  }

  lemma UnionGroups<T>(a: set<T>, b: set<T>, c: set<T>)
    ensures a + b + c == a + (b + c)
  {
  }

  /**
   A value is published with one tensor record for each way an object outside the store
   is used, and one for each capture that is in memory; no record set is named twice.
   */
  lemma WrittenOnce(objects: Objects, v: Value)
    ensures
      var w := Visit(objects, FRESH, v).1;
      && |w.blobs| == |Written(objects, UsesIn(objects, v))| + Copies(objects, v)
      && NamedOnce(w.dependencies)
  {
    assert Written(objects, FRESH.aliases.Keys) == {};
    VisitCounts(objects, FRESH, v, 0);
    assert FRESH.aliases.Keys + UsesIn(objects, v) == UsesIn(objects, v);
  }
}
