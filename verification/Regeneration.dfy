/**
 Rebuilding prompt groups from a checkpoint's dataset cursor
 (vime/data/rewind.py, `restore_dataset_cursor` and `regeneration_groups`).
 */
module Regeneration {
  import opened Common
  import opened DataStream
  import Sources = RolloutDataSource

  /** A reference to a group's original input, by content digest. */
  datatype Ref = Ref(digest: string, input: Group)

  /** A saved sample: its original input if recorded, whether generation has begun, its group. */
  datatype Saved = Saved(original: Option<Ref>, pending: bool, group: nat)

  type SavedGroup = seq<Saved>

  /** Where a regenerated group comes from; an original stands for the input it refers to. */
  datatype Restored =
    | FromOriginal(ref: Ref)
    | AsSaved(saved: SavedGroup)
    | Reread(input: Group)
    | Stripped(saved: SavedGroup)

  /** What has been emitted already: original digests and dataset group numbers. */
  datatype Seen = Seen(digests: set<string>, ids: set<nat>)

  predicate AllOriginal(g: SavedGroup) {
    g != [] && forall i | 0 <= i < |g| :: g[i].original.Some?
  }

  predicate AllPending(g: SavedGroup) {
    forall i | 0 <= i < |g| :: g[i].pending
  }

  /** The originals of a group that were not seen before, in order. */
  function NewOriginals(g: SavedGroup, digests: set<string>): seq<Restored>
    requires forall i | 0 <= i < |g| :: g[i].original.Some?
    decreases |g|
  {
    if g == [] then []
    else
      var ref := g[0].original.value;
      (if ref.digest in digests then [] else [FromOriginal(ref)])
      + NewOriginals(g[1..], digests + {ref.digest})
  }

  function Digests(g: SavedGroup): set<string>
    requires forall i | 0 <= i < |g| :: g[i].original.Some?
  {
    if g == [] then {} else {g[0].original.value.digest} + Digests(g[1..])
  }

  /** Whether the saved cursor can have served group `id`. */
  predicate Servable(cfg: Config, cursor: Cursor, id: nat) {
    id < cursor.group && Position(cfg, cursor) >= cursor.group - id
  }

  /** Group `id` as the arithmetic on the saved cursor finds it. */
  ghost function RereadGroup(cfg: Config, cursor: Cursor, id: nat): Group
    requires ValidConfig(cfg) && cfg.origin.Some? && Size(cfg) > 0 && Servable(cfg, cursor, id)
  {
    var distance := cursor.group - id;
    MakeGroup(PromptAt(cfg, Position(cfg, cursor) - distance), id, cursor.index - distance * cfg.perPrompt,
              cfg.perPrompt)
  }

  ghost predicate Usable(cfg: Config, cursor: Cursor) {
    && ValidConfig(cfg)
    && (cfg.origin.Some? ==> Size(cfg) > 0 && cursor.offset <= Size(cfg))
    && cursor.index >= 0
  }

  /** One saved group: what it adds and what is then seen; None when its number is impossible. */
  ghost function RestoreOne(cfg: Config, cursor: Cursor, g: SavedGroup, seen: Seen): Option<(seq<Restored>, Seen)>
    requires Usable(cfg, cursor)
  {
    if AllOriginal(g) then Some((NewOriginals(g, seen.digests), seen.(digests := seen.digests + Digests(g))))
    else if AllPending(g) then Some(([AsSaved(g)], seen))
    else if cfg.origin.Some? then
      var id := g[0].group;
      if id in seen.ids then Some(([], seen))
      else if !Servable(cfg, cursor, id) then None
      else Some(([Reread(RereadGroup(cfg, cursor, id))], seen.(ids := seen.ids + {id})))
    else Some(([Stripped(g)], seen))
  }

  ghost function RestoreAll(cfg: Config, cursor: Cursor, groups: seq<SavedGroup>): Option<(seq<Restored>, Seen)>
    requires Usable(cfg, cursor)
  {
    if groups == [] then Some(([], Seen({}, {})))
    else
      var n := |groups| - 1;
      var before := RestoreAll(cfg, cursor, groups[..n]);
      if before.None? then None
      else
        var one := RestoreOne(cfg, cursor, groups[n], before.value.1);
        if one.None? then None else Some((before.value.0 + one.value.0, one.value.1))
  }

  // ------------------------------------------------------------- lemmas

  /**
   Regeneration inverts the stream: for a cursor that any number of reads has
   moved on from `base`, rereading a group served in between gives that group,
   with its number and its sample numbers.
   */
  lemma RereadInverts(cfg: Config, base: Cursor, cursor: Cursor, k: nat, id: nat)
    requires Usable(cfg, cursor) && cfg.origin.Some? && After(cfg, base, cursor, k)
    requires base.group <= id < base.group + k
    ensures Servable(cfg, cursor, id)
    ensures RereadGroup(cfg, cursor, id) == StreamGroup(cfg, base, id - base.group)
  {
    var i, distance := id - base.group, cursor.group - id;
    assert k == i + distance;
    assert cfg.perPrompt * k == cfg.perPrompt * i + cfg.perPrompt * distance;
    assert Position(cfg, cursor) - distance == Position(cfg, base) + i;
  }

  /** The reread group `r` is the one first served under number `id`. */
  ghost predicate InStream(cfg: Config, base: Cursor, k: nat, r: Restored, id: nat)
    requires ValidConfig(cfg) && (cfg.origin.Some? ==> Size(cfg) > 0)
  {
    r.Reread? && base.group <= id < base.group + k && r.input == StreamGroup(cfg, base, id - base.group)
  }

  /** Every saved group read from the dataset carries a number served between `base` and the cursor. */
  ghost predicate NumbersServed(base: Cursor, k: nat, groups: seq<SavedGroup>) {
    forall j | 0 <= j < |groups| && !AllOriginal(groups[j]) && !AllPending(groups[j]) ::
      base.group <= groups[j][0].group < base.group + k
  }

  /** Numbers of the groups that were reread, in order. */
  ghost function RereadIds(rs: seq<Restored>): seq<nat> {
    if rs == [] then []
    else
      var n := |rs| - 1;
      RereadIds(rs[..n]) + if rs[n].Reread? && rs[n].input != [] then [rs[n].input[0].group] else []
  }

  lemma {:induction false} RereadIdsConcat(a: seq<Restored>, b: seq<Restored>)
    ensures RereadIds(a + b) == RereadIds(a) + RereadIds(b)
  {
    if b == [] {
      assert a + b == a;
    } else {
      var n := |b| - 1;
      assert (a + b)[..|a| + n] == a + b[..n];
      RereadIdsConcat(a, b[..n]);
    }
  }

  lemma {:induction false} NewOriginalsRereadNothing(g: SavedGroup, digests: set<string>)
    requires forall i | 0 <= i < |g| :: g[i].original.Some?
    ensures RereadIds(NewOriginals(g, digests)) == []
    ensures forall i | 0 <= i < |NewOriginals(g, digests)| :: NewOriginals(g, digests)[i].FromOriginal?
    decreases |g|
  {
    if g != [] {
      var ref := g[0].original.value;
      var head := if ref.digest in digests then [] else [FromOriginal(ref)];
      NewOriginalsRereadNothing(g[1..], digests + {ref.digest});
      RereadIdsConcat(head, NewOriginals(g[1..], digests + {ref.digest}));
      assert head[..0] == [];
    }
  }

  ghost predicate Distinct<T>(ids: seq<T>) {
    forall i, j | 0 <= i < j < |ids| :: ids[i] != ids[j]
  }

  /** The seen numbers are exactly the reread ones, each reread once. */
  ghost predicate RereadOnce(r: (seq<Restored>, Seen)) {
    && Distinct(RereadIds(r.0))
    && r.1.ids == set id | id in RereadIds(r.0)
  }

  /** One saved group rereads nothing, or one group that was not seen before. */
  lemma OneRereadIds(cfg: Config, cursor: Cursor, g: SavedGroup, seen: Seen)
    requires Usable(cfg, cursor) && cfg.perPrompt > 0 && RestoreOne(cfg, cursor, g, seen).Some?
    ensures
      var one := RestoreOne(cfg, cursor, g, seen).value;
      || (RereadIds(one.0) == [] && one.1.ids == seen.ids)
      || (g != [] && RereadIds(one.0) == [g[0].group] && g[0].group !in seen.ids && one.1.ids == seen.ids + {g[0].group})
  {
    var one := RestoreOne(cfg, cursor, g, seen).value;
    if AllOriginal(g) {
      NewOriginalsRereadNothing(g, seen.digests);
    } else if one.0 != [] {
      SingleReread(one.0[0]);
      assert one.0 == [one.0[0]];
    }
  }

  lemma SingleReread(r: Restored)
    ensures RereadIds([r]) == if r.Reread? && r.input != [] then [r.input[0].group] else []
  {
  }

  lemma OneRereadOnce(cfg: Config, cursor: Cursor, before: (seq<Restored>, Seen), g: SavedGroup)
    requires Usable(cfg, cursor) && cfg.perPrompt > 0 && RereadOnce(before)
    requires RestoreOne(cfg, cursor, g, before.1).Some?
    ensures
      var one := RestoreOne(cfg, cursor, g, before.1).value;
      RereadOnce((before.0 + one.0, one.1))
  {
    var one := RestoreOne(cfg, cursor, g, before.1).value;
    RereadIdsConcat(before.0, one.0);
    OneRereadIds(cfg, cursor, g, before.1);
  }

  /** A saved group that is taken from the dataset again. */
  predicate FromDataset(cfg: Config, g: SavedGroup) {
    !AllOriginal(g) && !AllPending(g) && cfg.origin.Some?
  }

  /** The numbers of these groups. */
  function DatasetIds(cfg: Config, groups: seq<SavedGroup>): set<nat> {
    set j | 0 <= j < |groups| && FromDataset(cfg, groups[j]) :: groups[j][0].group
  }

  lemma OneMoreId(cfg: Config, groups: seq<SavedGroup>)
    requires groups != []
    ensures
      var g := groups[|groups| - 1];
      DatasetIds(cfg, groups)
      == DatasetIds(cfg, groups[..|groups| - 1]) + if FromDataset(cfg, g) then {g[0].group} else {}
  {
    var n := |groups| - 1;
    LastSplit(groups);
    forall j | 0 <= j < n
      ensures groups[j] == groups[..n][j]
    {
    }
  }

  /** Every saved dataset group is regenerated, and once, however many saved groups share its number. */
  lemma {:induction false} RestoredOnce(cfg: Config, cursor: Cursor, groups: seq<SavedGroup>)
    requires Usable(cfg, cursor) && cfg.perPrompt > 0
    ensures
      var r := RestoreAll(cfg, cursor, groups);
      r.Some? ==>
        && Distinct(RereadIds(r.value.0))
        && (set id | id in RereadIds(r.value.0)) == DatasetIds(cfg, groups)
  {
    if RestoreAll(cfg, cursor, groups).Some? {
      SeenExactly(cfg, cursor, groups);
    }
  }

  lemma OneSeen(cfg: Config, cursor: Cursor, g: SavedGroup, seen: Seen)
    requires Usable(cfg, cursor) && RestoreOne(cfg, cursor, g, seen).Some?
    ensures RestoreOne(cfg, cursor, g, seen).value.1.ids
         == seen.ids + if FromDataset(cfg, g) then {g[0].group} else {}
  {
  }

  lemma {:induction false} SeenExactly(cfg: Config, cursor: Cursor, groups: seq<SavedGroup>)
    requires Usable(cfg, cursor) && cfg.perPrompt > 0 && RestoreAll(cfg, cursor, groups).Some?
    ensures RereadOnce(RestoreAll(cfg, cursor, groups).value)
    ensures RestoreAll(cfg, cursor, groups).value.1.ids == DatasetIds(cfg, groups)
  {
    if groups != [] {
      var n := |groups| - 1;
      SeenExactly(cfg, cursor, groups[..n]);
      var before := RestoreAll(cfg, cursor, groups[..n]).value;
      OneSeen(cfg, cursor, groups[n], before.1);
      OneMoreId(cfg, groups);
      OneRereadOnce(cfg, cursor, before, groups[n]);
    }
  }

  // ------------------------------------------------------------- saved inputs

  /** The original inputs that were restored, in order. */
  function RestoredRefs(rs: seq<Restored>): seq<Ref> {
    if rs == [] then []
    else
      var n := |rs| - 1;
      RestoredRefs(rs[..n]) + if rs[n].FromOriginal? then [rs[n].ref] else []
  }

  lemma {:induction false} RestoredRefsConcat(a: seq<Restored>, b: seq<Restored>)
    ensures RestoredRefs(a + b) == RestoredRefs(a) + RestoredRefs(b)
  {
    if b == [] {
      assert a + b == a;
    } else {
      var n := |b| - 1;
      assert (a + b)[..|a| + n] == a + b[..n];
      RestoredRefsConcat(a, b[..n]);
    }
  }

  /** No two of these references have one digest, and none has a digest of `digests`. */
  ghost predicate NewDigests(refs: seq<Ref>, digests: set<string>) {
    && (forall i, j | 0 <= i < j < |refs| :: refs[i].digest != refs[j].digest)
    && (forall i | 0 <= i < |refs| :: refs[i].digest !in digests)
  }

  function DigestSet(refs: seq<Ref>): set<string> {
    set i | 0 <= i < |refs| :: refs[i].digest
  }

  lemma DigestSetConcat(a: seq<Ref>, b: seq<Ref>)
    ensures DigestSet(a + b) == DigestSet(a) + DigestSet(b)
  {
    forall i | 0 <= i < |b|
      ensures b[i].digest in DigestSet(a + b)
    {
      assert (a + b)[|a| + i] == b[i];
    }
    forall i | 0 <= i < |a|
      ensures a[i].digest in DigestSet(a + b)
    {
      assert (a + b)[i] == a[i];
    }
  }

  /** The references that a group's samples carry. */
  function RefsIn(g: SavedGroup): set<Ref> {
    set i | 0 <= i < |g| && g[i].original.Some? :: g[i].original.value
  }

  lemma RefsInRest(g: SavedGroup)
    requires g != [] && g[0].original.Some?
    ensures RefsIn(g) == {g[0].original.value} + RefsIn(g[1..])
  {
    forall i | 0 < i < |g| && g[i].original.Some?
      ensures g[i].original.value in RefsIn(g[1..])
    {
      assert g[1..][i - 1] == g[i];
    }
  }

  lemma {:induction false} NewOriginalsOnce(g: SavedGroup, digests: set<string>)
    requires forall i | 0 <= i < |g| :: g[i].original.Some?
    ensures
      var refs := RestoredRefs(NewOriginals(g, digests));
      && NewDigests(refs, digests)
      && digests + DigestSet(refs) == digests + Digests(g)
      && (forall r | r in refs :: r in RefsIn(g))
    decreases |g|
  {
    if g != [] {
      var ref := g[0].original.value;
      var head := if ref.digest in digests then [] else [FromOriginal(ref)];
      var rest := NewOriginals(g[1..], digests + {ref.digest});
      NewOriginalsOnce(g[1..], digests + {ref.digest});
      RestoredRefsConcat(head, rest);
      SingleRef(head);
      OneMoreRef(RestoredRefs(head), RestoredRefs(rest), ref, digests, Digests(g[1..]));
      RefsInRest(g);
    }
  }

  lemma OneMoreRef(first: seq<Ref>, rest: seq<Ref>, ref: Ref, digests: set<string>, all: set<string>)
    requires first == if ref.digest in digests then [] else [ref]
    requires NewDigests(rest, digests + {ref.digest})
    requires digests + {ref.digest} + DigestSet(rest) == digests + {ref.digest} + all
    ensures NewDigests(first + rest, digests)
    ensures digests + DigestSet(first + rest) == digests + ({ref.digest} + all)
    ensures forall r :: r in first + rest ==> r == ref || r in rest
  {
    DigestSetConcat(first, rest);
    DigestSetOne(ref);
    assert DigestSet([]) == {};
  }

  lemma DigestSetOne(ref: Ref)
    ensures DigestSet([ref]) == {ref.digest}
  {
    assert [ref][0] == ref;
  }

  lemma SingleRef(rs: seq<Restored>)
    requires |rs| <= 1
    ensures RestoredRefs(rs) == if rs != [] && rs[0].FromOriginal? then [rs[0].ref] else []
  {
    if rs != [] {
      assert rs[..0] == [];
    }
  }

  /** Digests and references of the saved groups that have all their original inputs. */
  function SavedRefs(groups: seq<SavedGroup>): set<Ref> {
    set j, r | 0 <= j < |groups| && AllOriginal(groups[j]) && r in RefsIn(groups[j]) :: r
  }

  function DigestsIn(refs: set<Ref>): set<string> {
    set r | r in refs :: r.digest
  }

  lemma {:induction false} DigestsOfGroup(g: SavedGroup)
    requires forall i | 0 <= i < |g| :: g[i].original.Some?
    ensures Digests(g) == DigestsIn(RefsIn(g))
  {
    if g != [] {
      RefsInRest(g);
      DigestsOfGroup(g[1..]);
    }
  }

  lemma SavedRefsLast(groups: seq<SavedGroup>)
    requires groups != []
    ensures
      var g := groups[|groups| - 1];
      SavedRefs(groups) == SavedRefs(groups[..|groups| - 1]) + if AllOriginal(g) then RefsIn(g) else {}
  {
    var n := |groups| - 1;
    forall j | 0 <= j < n
      ensures groups[j] == groups[..n][j]
    {
    }
  }

  lemma DigestsUnion(a: set<Ref>, b: set<Ref>)
    ensures DigestsIn(a + b) == DigestsIn(a) + DigestsIn(b)
  {
  }

  /** Restored references are new ones of the group, and the digests seen are then the group's too. */
  lemma OneOriginals(cfg: Config, cursor: Cursor, g: SavedGroup, seen: Seen)
    requires Usable(cfg, cursor) && RestoreOne(cfg, cursor, g, seen).Some?
    ensures
      var one := RestoreOne(cfg, cursor, g, seen).value;
      var refs := RestoredRefs(one.0);
      var saved := if AllOriginal(g) then RefsIn(g) else {};
      && NewDigests(refs, seen.digests)
      && one.1.digests == seen.digests + DigestSet(refs)
      && one.1.digests == seen.digests + DigestsIn(saved)
      && (forall r | r in refs :: r in saved)
  {
    var one := RestoreOne(cfg, cursor, g, seen).value;
    if AllOriginal(g) {
      NewOriginalsOnce(g, seen.digests);
      DigestsOfGroup(g);
    } else {
      SingleRef(one.0);
      assert DigestSet([]) == {} && DigestsIn({}) == {};
    }
  }

  lemma NewDigestsConcat(a: seq<Ref>, b: seq<Ref>, digests: set<string>)
    requires NewDigests(a, {}) && DigestSet(a) == digests && NewDigests(b, digests)
    ensures NewDigests(a + b, {})
  {
    forall i | 0 <= i < |a|
      ensures a[i].digest in digests
    {
    }
  }

  lemma {:induction false} OriginalsSeen(cfg: Config, cursor: Cursor, groups: seq<SavedGroup>)
    requires Usable(cfg, cursor) && RestoreAll(cfg, cursor, groups).Some?
    ensures
      var r := RestoreAll(cfg, cursor, groups).value;
      && NewDigests(RestoredRefs(r.0), {})
      && r.1.digests == DigestSet(RestoredRefs(r.0)) == DigestsIn(SavedRefs(groups))
      && (forall x | x in RestoredRefs(r.0) :: x in SavedRefs(groups))
  {
    if groups != [] {
      var n := |groups| - 1;
      OriginalsSeen(cfg, cursor, groups[..n]);
      var before := RestoreAll(cfg, cursor, groups[..n]).value;
      var one := RestoreOne(cfg, cursor, groups[n], before.1).value;
      OneOriginals(cfg, cursor, groups[n], before.1);
      RestoredRefsConcat(before.0, one.0);
      NewDigestsConcat(RestoredRefs(before.0), RestoredRefs(one.0), before.1.digests);
      DigestSetConcat(RestoredRefs(before.0), RestoredRefs(one.0));
      SavedRefsLast(groups);
      DigestsUnion(SavedRefs(groups[..n]), if AllOriginal(groups[n]) then RefsIn(groups[n]) else {});
    }
  }

  /** Groups that go back as they are, or stripped of what was generated. */
  function Returned(rs: seq<Restored>): seq<Restored> {
    if rs == [] then []
    else
      var n := |rs| - 1;
      Returned(rs[..n]) + if rs[n].AsSaved? || rs[n].Stripped? then [rs[n]] else []
  }

  lemma {:induction false} ReturnedConcat(a: seq<Restored>, b: seq<Restored>)
    ensures Returned(a + b) == Returned(a) + Returned(b)
  {
    if b == [] {
      assert a + b == a;
    } else {
      var n := |b| - 1;
      assert (a + b)[..|a| + n] == a + b[..n];
      ReturnedConcat(a, b[..n]);
    }
  }

  lemma {:induction false} NothingReturned(rs: seq<Restored>)
    requires forall i | 0 <= i < |rs| :: rs[i].FromOriginal?
    ensures Returned(rs) == []
  {
    if rs != [] {
      NothingReturned(rs[..|rs| - 1]);
    }
  }

  /** What a group that lacks an original input goes back as, if it is not read from the dataset. */
  function ReturnedOf(cfg: Config, g: SavedGroup): seq<Restored> {
    if AllOriginal(g) || FromDataset(cfg, g) then []
    else if AllPending(g) then [AsSaved(g)]
    else [Stripped(g)]
  }

  function ReturnedGroups(cfg: Config, groups: seq<SavedGroup>): seq<Restored> {
    if groups == [] then []
    else ReturnedGroups(cfg, groups[..|groups| - 1]) + ReturnedOf(cfg, groups[|groups| - 1])
  }

  lemma OneReturned(cfg: Config, cursor: Cursor, g: SavedGroup, seen: Seen)
    requires Usable(cfg, cursor) && RestoreOne(cfg, cursor, g, seen).Some?
    ensures Returned(RestoreOne(cfg, cursor, g, seen).value.0) == ReturnedOf(cfg, g)
  {
    var one := RestoreOne(cfg, cursor, g, seen).value;
    if AllOriginal(g) {
      NewOriginalsRereadNothing(g, seen.digests);
      NothingReturned(one.0);
    } else if one.0 != [] {
      assert one.0 == [one.0[0]] && one.0[..0] == [];
    }
  }

  lemma {:induction false} AllReturned(cfg: Config, cursor: Cursor, groups: seq<SavedGroup>)
    requires Usable(cfg, cursor) && RestoreAll(cfg, cursor, groups).Some?
    ensures Returned(RestoreAll(cfg, cursor, groups).value.0) == ReturnedGroups(cfg, groups)
  {
    if groups != [] {
      var n := |groups| - 1;
      AllReturned(cfg, cursor, groups[..n]);
      var before := RestoreAll(cfg, cursor, groups[..n]).value;
      OneReturned(cfg, cursor, groups[n], before.1);
      ReturnedConcat(before.0, RestoreOne(cfg, cursor, groups[n], before.1).value.0);
    }
  }

  /**
   Saved original inputs are restored once for each digest, all of them and no other;
   and every group that is neither restored so nor read again goes back, in order.
   */
  lemma OriginalsOnce(cfg: Config, cursor: Cursor, groups: seq<SavedGroup>)
    requires Usable(cfg, cursor)
    ensures
      var r := RestoreAll(cfg, cursor, groups);
      r.Some? ==>
        && NewDigests(RestoredRefs(r.value.0), {})
        && DigestSet(RestoredRefs(r.value.0)) == DigestsIn(SavedRefs(groups))
        && (forall x | x in RestoredRefs(r.value.0) :: x in SavedRefs(groups))
        && Returned(r.value.0) == ReturnedGroups(cfg, groups)
  {
    if RestoreAll(cfg, cursor, groups).Some? {
      OriginalsSeen(cfg, cursor, groups);
      AllReturned(cfg, cursor, groups);
    }
  }

  /** Nothing is refused and every reread group is the one the stream first served. */
  lemma {:induction false} RestoresStream(cfg: Config, base: Cursor, cursor: Cursor, k: nat, groups: seq<SavedGroup>)
    requires Usable(cfg, cursor) && After(cfg, base, cursor, k) && NumbersServed(base, k, groups)
    ensures
      var r := RestoreAll(cfg, cursor, groups);
      && r.Some?
      && forall j | 0 <= j < |r.value.0| && r.value.0[j].Reread? ::
           exists id: nat :: InStream(cfg, base, k, r.value.0[j], id)
  {
    if groups != [] {
      var n := |groups| - 1;
      RestoresStream(cfg, base, cursor, k, groups[..n]);
      var before := RestoreAll(cfg, cursor, groups[..n]).value;
      OneRestoresStream(cfg, base, cursor, k, groups[n], before.1);
    }
  }

  lemma OneRestoresStream(cfg: Config, base: Cursor, cursor: Cursor, k: nat, g: SavedGroup, seen: Seen)
    requires Usable(cfg, cursor) && After(cfg, base, cursor, k)
    requires AllOriginal(g) || AllPending(g) || base.group <= g[0].group < base.group + k
    ensures
      var r := RestoreOne(cfg, cursor, g, seen);
      && r.Some?
      && forall j | 0 <= j < |r.value.0| && r.value.0[j].Reread? ::
           exists id: nat :: InStream(cfg, base, k, r.value.0[j], id)
  {
    if AllOriginal(g) {
      NewOriginalsRereadNothing(g, seen.digests);
    } else if !AllPending(g) && cfg.origin.Some? {
      var id := g[0].group;
      RereadInverts(cfg, base, cursor, k, id);
      assert InStream(cfg, base, k, Reread(RereadGroup(cfg, cursor, id)), id);
    }
  }

  // ------------------------------------------------------------- methods

  /** A saved cursor before it is validated. */
  datatype Counters = Counters(epoch: int, offset: int, group: int, index: int)

  predicate Valid(cfg: Config, saved: Counters) {
    && saved.epoch >= 0 && saved.offset >= 0 && saved.group >= 0 && saved.index >= 0
    && (cfg.origin.Some? ==> saved.offset <= Size(cfg))
  }

  function CursorOf(saved: Counters): Cursor
    requires saved.epoch >= 0 && saved.offset >= 0 && saved.group >= 0
  {
    Cursor(saved.epoch, saved.offset, saved.group, saved.index)
  }

  function CountersOf(cursor: Cursor): Counters {
    Counters(cursor.epoch, cursor.offset, cursor.group, cursor.index)
  }

  /** Validate the whole cursor before changing the producer. */
  method RestoreDatasetCursor(producer: Sources.RolloutDataSource, saved: Counters) returns (ok: bool)
    requires producer.DatasetOk()
    modifies producer
    ensures producer.DatasetOk() && ok == Valid(producer.cfg, saved)
    ensures ok ==> producer.Ready() && producer.At() == CursorOf(saved)
    ensures !ok ==> producer.At() == old(producer.At())
  {
    ok := false;
    if saved.epoch < 0 || saved.offset < 0 || saved.group < 0 || saved.index < 0 {
      return;
    }
    if producer.cfg.origin.Some? && saved.offset > |producer.cfg.origin.value| {
      return;
    }
    if producer.cfg.origin.Some? && producer.cfg.shuffle {
      producer.Shuffle(saved.epoch);
    }
    producer.epoch, producer.offset := saved.epoch, saved.offset;
    producer.group, producer.index := saved.group, saved.index;
    ok := true;
  }

  /** Reposition the producer on group `id` and read it again. */
  method RereadOne(producer: Sources.RolloutDataSource, cursor: Cursor, id: nat) returns (g: Option<Group>)
    requires producer.DatasetOk() && Usable(producer.cfg, cursor) && producer.cfg.origin.Some?
    modifies producer
    ensures producer.DatasetOk()
    ensures g.Some? == Servable(producer.cfg, cursor, id)
    ensures g.Some? ==> g.value == RereadGroup(producer.cfg, cursor, id)
  {
    var distance := cursor.group - id;
    var size := |producer.cfg.origin.value|;
    var absolute := cursor.epoch * size + cursor.offset - distance;
    if distance <= 0 || absolute < 0 {
      return None;
    }
    producer.epoch, producer.offset := absolute / size, absolute % size;
    producer.group := id;
    producer.index := cursor.index - distance * producer.cfg.perPrompt;
    if producer.cfg.shuffle {
      producer.Shuffle(producer.epoch);
    }
    ghost var at := producer.At();
    Repositioned(producer.cfg, at, absolute, size);
    var groups := producer.GetSamples(1);
    FirstOfStream(producer.cfg, cursor, id, at, absolute);
    g := Some(groups[0]);
  }

  lemma Repositioned(cfg: Config, at: Cursor, absolute: nat, size: nat)
    requires cfg.origin.Some? && Size(cfg) == size > 0
    requires at.epoch == absolute / size && at.offset == absolute % size
    ensures Position(cfg, at) == absolute && at.offset < size
  {
  }

  lemma FirstOfStream(cfg: Config, cursor: Cursor, id: nat, at: Cursor, absolute: nat)
    requires ValidConfig(cfg) && cfg.origin.Some? && Size(cfg) > 0 && Servable(cfg, cursor, id)
    requires absolute == Position(cfg, cursor) - (cursor.group - id) && Position(cfg, at) == absolute
    requires at.group == id && at.index == cursor.index - (cursor.group - id) * cfg.perPrompt
    ensures Stream(cfg, at, 1)[0] == RereadGroup(cfg, cursor, id)
  {
  }

  method CollectOriginals(g: SavedGroup, digests: set<string>) returns (added: seq<Restored>, digests': set<string>)
    requires forall i | 0 <= i < |g| :: g[i].original.Some?
    ensures added == NewOriginals(g, digests) && digests' == digests + Digests(g)
  {
    added, digests' := [], digests;
    for i := 0 to |g|
      invariant digests' + Digests(g[i..]) == digests + Digests(g)
      invariant NewOriginals(g, digests) == added + NewOriginals(g[i..], digests')
    {
      var ref := g[i].original.value;
      if ref.digest !in digests' {
        added := added + [FromOriginal(ref)];
      }
      digests' := digests' + {ref.digest};
      assert g[i..][1..] == g[i + 1..];
    }
  }

  method RegenerateOne(producer: Sources.RolloutDataSource, cursor: Cursor, g: SavedGroup, seen: Seen)
    returns (r: Option<(seq<Restored>, Seen)>)
    requires producer.DatasetOk() && Usable(producer.cfg, cursor)
    modifies producer
    ensures producer.DatasetOk() && r == RestoreOne(producer.cfg, cursor, g, seen)
  {
    if AllOriginal(g) {
      var added, digests := CollectOriginals(g, seen.digests);
      return Some((added, seen.(digests := digests)));
    }
    if AllPending(g) {
      return Some(([AsSaved(g)], seen));
    }
    if producer.cfg.origin.None? {
      return Some(([Stripped(g)], seen));
    }
    var id := g[0].group;
    if id in seen.ids {
      return Some(([], seen));
    }
    var again := RereadOne(producer, cursor, id);
    if again.None? {
      return None;
    }
    r := Some(([Reread(again.value)], seen.(ids := seen.ids + {id})));
  }

  /** The regenerated groups, or None for the source's ValueError; the producer ends on the saved cursor. */
  method RegenerationGroups(producer: Sources.RolloutDataSource, groups: seq<SavedGroup>, cursor: Cursor)
    returns (r: Option<seq<Restored>>)
    requires producer.DatasetOk() && Usable(producer.cfg, cursor)
    modifies producer
    ensures producer.DatasetOk()
    ensures r.Some? == RestoreAll(producer.cfg, cursor, groups).Some?
    ensures r.Some? ==>
      && r.value == RestoreAll(producer.cfg, cursor, groups).value.0
      && producer.Ready() && producer.At() == cursor
  {
    var restored, seen := [], Seen({}, {});
    for k := 0 to |groups|
      invariant producer.DatasetOk()
      invariant RestoreAll(producer.cfg, cursor, groups[..k]) == Some((restored, seen))
    {
      assert groups[..k + 1][..k] == groups[..k];
      var one := RegenerateOne(producer, cursor, groups[k], seen);
      if one.None? {
        RefusedEarly(producer.cfg, cursor, groups, k + 1);
        return None;
      }
      restored, seen := restored + one.value.0, one.value.1;
    }
    assert groups[..|groups|] == groups;
    var ok := RestoreDatasetCursor(producer, CountersOf(cursor));
    r := Some(restored);
  }

  lemma {:induction false} RefusedEarly(cfg: Config, cursor: Cursor, groups: seq<SavedGroup>, k: nat)
    requires Usable(cfg, cursor) && k <= |groups|
    requires RestoreAll(cfg, cursor, groups[..k]).None?
    ensures RestoreAll(cfg, cursor, groups).None?
  {
    if k < |groups| {
      assert groups[..|groups| - 1][..k] == groups[..k];
      RefusedEarly(cfg, cursor, groups[..|groups| - 1], k);
    } else {
      assert groups[..k] == groups;
    }
  }
}
