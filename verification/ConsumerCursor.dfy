/**
 The compressed training cursor (vime/data/queue_data_source.py, `_advance`): a
 cursor below which every accepted position is processed, a sorted list of
 processed positions above it, and the fetch cursor.
 */
module ConsumerCursor {
  import opened Common

  /** Source positions of each accepted position: the earlier versions it replaced. */
  type Sources = seq<set<nat>>

  datatype Progress = Progress(cursor: nat, fetch: nat, above: seq<nat>)

  const START := Progress(0, 0, [])

  ghost predicate Increasing(s: seq<nat>) {
    forall i, j | 0 <= i < j < |s| :: s[i] < s[j]
  }

  function Elements(s: seq<nat>): set<nat> {
    set x | x in s
  }

  function Below(n: nat): (r: set<nat>)
    ensures forall x: nat :: x in r <==> x < n
  {
    if n == 0 then {} else Below(n - 1) + {n - 1}
  }

  /** The set of processed positions that the compressed state stands for. */
  function Processed(p: Progress): set<nat> {
    Below(p.cursor) + Elements(p.above)
  }

  ghost predicate WellFormed(p: Progress) {
    && Increasing(p.above)
    && (forall i | 0 <= i < |p.above| :: p.cursor < p.above[i] < p.fetch)
    && p.cursor <= p.fetch
  }

  function SourcesOf(src: Sources, ps: set<nat>): (r: set<nat>)
    ensures forall q :: q in r <==> exists p :: p in ps && p < |src| && q in src[p]
  {
    set p, q | p in ps && p < |src| && q in src[p] :: q
  }

  /** Plain-set reading of one advance: new positions bring the sources they replaced. */
  function AdvanceSet(src: Sources, done: set<nat>, ps: set<nat>): set<nat> {
    done + ps + SourcesOf(src, ps - done)
  }

  /** The least fetch cursor from `from` on that lies above all of `s`. */
  ghost predicate IsFetch(from: nat, s: set<nat>, f: nat) {
    from <= f && (forall x | x in s :: x < f) && (f == from || f - 1 in s)
  }

  // ------------------------------------------------------------- the loop

  method SortedAbove(s: set<nat>, cursor: nat) returns (r: seq<nat>)
    ensures Increasing(r) && Elements(r) == set x | x in s && x >= cursor
  {
    r := [];
    var left := set x | x in s && x >= cursor;
    while left != {}
      invariant left + Elements(r) == set x | x in s && x >= cursor
      invariant Increasing(r)
      invariant forall x | x in left :: forall i | 0 <= i < |r| :: r[i] < x
      decreases left
    {
      var least := Least(left);
      r := r + [least];
      left := left - {least};
    }
  }

  method Least(s: set<nat>) returns (m: nat)
    requires s != {}
    ensures m in s && forall x | x in s :: m <= x
  {
    m :| m in s;
    var rest := s - {m};
    while rest != {}
      invariant m in s && rest <= s
      invariant forall x | x in s && x !in rest :: m <= x
      decreases rest
    {
      var x :| x in rest;
      if x < m {
        m := x;
      }
      rest := rest - {x};
    }
  }

  method End(s: set<nat>) returns (e: nat)
    ensures forall x | x in s :: x < e
    ensures e == 0 || e - 1 in s
  {
    e := 0;
    var rest := s;
    while rest != {}
      invariant rest <= s
      invariant forall x | x in s && x !in rest :: x < e
      invariant e == 0 || e - 1 in s
      decreases rest
    {
      var x :| x in rest;
      if x >= e {
        e := x + 1;
      }
      rest := rest - {x};
    }
  }

  /** The positions to record: held, new, and the sources of the new ones. */
  method Collect(p: Progress, ps: set<nat>, src: Sources) returns (positions: set<nat>)
    requires forall x | x in ps - Processed(p) :: x < |src|
    ensures positions == Elements(p.above) + ps + SourcesOf(src, ps - Processed(p))
  {
    var held := Elements(p.above);
    positions := held + ps;
    var todo := positions - held;
    while todo != {}
      invariant todo <= ps - held
      invariant positions == held + ps + SourcesOf(src, ps - Processed(p) - todo)
      decreases todo
    {
      var x :| x in todo;
      if x >= p.cursor {
        assert x in ps - Processed(p);
        SourcesAdded(src, ps - Processed(p) - todo, x);
        positions := positions + src[x];
        assert ps - Processed(p) - todo + {x} == ps - Processed(p) - (todo - {x});
      } else {
        assert ps - Processed(p) - todo == ps - Processed(p) - (todo - {x});
      }
      todo := todo - {x};
    }
    assert ps - Processed(p) - {} == ps - Processed(p);
  }

  lemma SourcesAdded(src: Sources, ps: set<nat>, x: nat)
    requires x < |src|
    ensures SourcesOf(src, ps + {x}) == SourcesOf(src, ps) + src[x]
  {
  }

  /** The cursor swallows the run of positions it meets. */
  method Swallow(from: nat, ps: set<nat>, end: nat) returns (cursor: nat, rest: set<nat>)
    requires forall x | x in ps :: x < end
    ensures from <= cursor && cursor <= Max(end, from) && cursor !in rest
    ensures Below(from) + ps == Below(cursor) + rest
  {
    cursor, rest := from, ps;
    while cursor in rest
      invariant from <= cursor <= Max(end, from) && rest <= ps
      invariant Below(from) + ps == Below(cursor) + rest
      decreases Max(end, from) - cursor
    {
      rest := rest - {cursor};
      assert Below(cursor + 1) == Below(cursor) + {cursor};
      cursor := cursor + 1;
    }
  }

  /** `p'` is `p` with the positions `ps` processed. */
  ghost predicate Advances(p: Progress, ps: set<nat>, src: Sources, p': Progress) {
    && WellFormed(p') && p.cursor <= p'.cursor
    && Processed(p') == AdvanceSet(src, Processed(p), ps)
    && IsFetch(p.fetch, AdvanceSet(src, Processed(p), ps), p'.fetch)
  }

  /**
   `_advance`: positions not yet processed pull in their sources, the cursor
   then swallows the run of positions it meets, and the rest stays sorted above.
   */
  method Advance(p: Progress, ps: set<nat>, src: Sources) returns (p': Progress)
    requires WellFormed(p)
    requires forall x | x in ps - Processed(p) :: x < |src|
    ensures Advances(p, ps, src, p')
  {
    var positions := Collect(p, ps, src);
    var end := End(positions);
    var cursor, rest := Swallow(p.cursor, positions, end);
    var above := SortedAbove(rest, cursor);
    p' := Progress(cursor, Max(p.fetch, end), above);
    AboveInside(p, positions, end, cursor, rest, above);
    CollectedIs(p, ps, src, positions);
    FetchIs(p, positions, end);
  }

  lemma CollectedIs(p: Progress, ps: set<nat>, src: Sources, positions: set<nat>)
    requires positions == Elements(p.above) + ps + SourcesOf(src, ps - Processed(p))
    ensures Below(p.cursor) + positions == AdvanceSet(src, Processed(p), ps)
  {
  }

  lemma FetchIs(p: Progress, positions: set<nat>, end: nat)
    requires WellFormed(p) && (forall x | x in positions :: x < end) && (end == 0 || end - 1 in positions)
    ensures IsFetch(p.fetch, Below(p.cursor) + positions, Max(p.fetch, end))
  {
  }

  /** What is left above the cursor lies between it and the fetch cursor. */
  lemma AboveInside(p: Progress, positions: set<nat>, end: nat, cursor: nat, rest: set<nat>, above: seq<nat>)
    requires WellFormed(p) && Elements(above) == set x | x in rest && x >= cursor
    requires (forall x | x in positions :: x < end) && cursor !in rest
    requires Below(p.cursor) + positions == Below(cursor) + rest
    ensures Elements(above) + Below(cursor) == Below(cursor) + rest
    ensures forall i | 0 <= i < |above| :: cursor < above[i] < Max(p.fetch, end)
  {
    forall i | 0 <= i < |above|
      ensures cursor < above[i] < Max(p.fetch, end)
    {
      assert above[i] in Elements(above);
      assert above[i] in Below(p.cursor) + positions;
    }
  }

  // ------------------------------------------------------------- refinement

  /** The compressed form is canonical: equal sets have equal cursors and equal lists. */
  lemma Canonical(p: Progress, q: Progress)
    requires WellFormed(p) && WellFormed(q) && Processed(p) == Processed(q)
    ensures p.cursor == q.cursor && p.above == q.above
  {
    CursorIsGap(p);
    CursorIsGap(q);
    assert p.cursor == q.cursor;
    AboveIs(p);
    AboveIs(q);
    SameElements(p.above, q.above);
  }

  lemma CursorIsGap(p: Progress)
    requires WellFormed(p)
    ensures p.cursor !in Processed(p) && forall x: nat | x < p.cursor :: x in Processed(p)
  {
  }

  lemma AboveIs(p: Progress)
    requires WellFormed(p)
    ensures Elements(p.above) == Processed(p) - Below(p.cursor)
  {
  }

  lemma {:induction false} SameElements(a: seq<nat>, b: seq<nat>)
    requires Increasing(a) && Increasing(b) && Elements(a) == Elements(b)
    ensures a == b
  {
    FirstIsElement(a);
    FirstIsElement(b);
    if a != [] {
      FirstIsLeast(a, b[0]);
      FirstIsLeast(b, a[0]);
      DropFirst(a);
      DropFirst(b);
      SameElements(a[1..], b[1..]);
    }
  }

  lemma FirstIsElement(a: seq<nat>)
    ensures a != [] ==> a[0] in Elements(a)
  {
  }

  lemma FirstIsLeast(a: seq<nat>, x: nat)
    requires Increasing(a) && x in Elements(a)
    ensures a[0] <= x
  {
  }

  lemma DropFirst(a: seq<nat>)
    requires Increasing(a) && a != []
    ensures Elements(a[1..]) == Elements(a) - {a[0]} && Increasing(a[1..])
  {
    assert a == [a[0]] + a[1..];
  }

  /** Two fetch steps over growing sets make one, and the result is unique. */
  lemma FetchSteps(from: nat, a: set<nat>, f: nat, b: set<nat>, g: nat, g': nat)
    requires IsFetch(from, a, f) && IsFetch(f, b, g) && a <= b
    ensures IsFetch(from, b, g)
    ensures IsFetch(from, b, g') ==> g == g'
  {
    assert g == from || g - 1 in b;
  }

  /** An advance has one possible outcome. */
  lemma AdvanceUnique(p: Progress, ps: set<nat>, src: Sources, q: Progress, q': Progress)
    requires Advances(p, ps, src, q) && Advances(p, ps, src, q')
    ensures q == q'
  {
    Canonical(q, q');
  }

  // ------------------------------------------------------------- order

  /** Sources lie before the position they belong to. */
  ghost predicate Backward(src: Sources) {
    forall p: nat, q | p < |src| && q in src[p] :: q < p
  }

  /** Sources of sources are sources. */
  ghost predicate Transitive(src: Sources) {
    forall p: nat, q | p < |src| && q in src[p] :: q < |src| && src[q] <= src[p]
  }

  /** A set that holds the sources of its members. */
  ghost predicate Closed(src: Sources, done: set<nat>) {
    forall p | p in done && p < |src| :: src[p] <= done
  }

  /** Positions together with their sources. */
  function Closure(src: Sources, ps: set<nat>): set<nat> {
    ps + SourcesOf(src, ps)
  }

  /** On a closed set one advance is plain union, and leaves the set closed. */
  lemma AdvanceIsUnion(src: Sources, done: set<nat>, ps: set<nat>)
    requires Transitive(src) && Closed(src, done)
    ensures AdvanceSet(src, done, ps) == done + Closure(src, ps)
    ensures Closed(src, AdvanceSet(src, done, ps))
  {
    var r := AdvanceSet(src, done, ps);
    assert r == done + Closure(src, ps);
    forall p | p in r && p < |src|
      ensures src[p] <= r
    {
      forall q | q in src[p]
        ensures q in r
      {
        if p !in done && p !in ps {
          var o :| o in ps - done && o < |src| && p in src[o];
          assert q in src[o];
        }
      }
    }
  }

  /** Advancing is idempotent and order does not matter. */
  lemma AdvanceCommutes(src: Sources, done: set<nat>, a: set<nat>, b: set<nat>)
    requires Transitive(src) && Closed(src, done)
    ensures AdvanceSet(src, AdvanceSet(src, done, a), b) == AdvanceSet(src, AdvanceSet(src, done, b), a)
    ensures AdvanceSet(src, AdvanceSet(src, done, a), a) == AdvanceSet(src, done, a)
  {
    AdvanceIsUnion(src, done, a);
    AdvanceIsUnion(src, done, b);
    AdvanceIsUnion(src, AdvanceSet(src, done, a), b);
    AdvanceIsUnion(src, AdvanceSet(src, done, b), a);
    AdvanceIsUnion(src, AdvanceSet(src, done, a), a);
  }

  /** Two advances in a row, and the set they reach. */
  lemma TwoAdvances(src: Sources, p: Progress, a: set<nat>, b: set<nat>, q: Progress, r: Progress)
    requires Transitive(src) && Closed(src, Processed(p)) && Advances(p, a, src, q) && Advances(q, b, src, r)
    ensures Processed(r) == Processed(p) + Closure(src, a) + Closure(src, b)
    ensures IsFetch(p.fetch, Processed(r), r.fetch)
  {
    AdvanceIsUnion(src, Processed(p), a);
    AdvanceIsUnion(src, Processed(q), b);
    FetchSteps(p.fetch, Processed(q), q.fetch, Processed(r), r.fetch, r.fetch);
  }

  /**
   Two advances in either order end in the same state, list and fetch cursor
   included, and repeating an advance changes nothing.
   */
  lemma ProgressCommutes(
    src: Sources, p: Progress, a: set<nat>, b: set<nat>, q: Progress, r: Progress, q': Progress, r': Progress)
    requires Transitive(src) && Closed(src, Processed(p))
    requires Advances(p, a, src, q) && Advances(q, b, src, r)
    requires Advances(p, b, src, q') && Advances(q', a, src, r')
    ensures r == r' && (a == b ==> r == q)
  {
    TwoAdvances(src, p, a, b, q, r);
    TwoAdvances(src, p, b, a, q', r');
    Canonical(r, r');
    FetchSteps(p.fetch, Processed(r), r.fetch, Processed(r'), r'.fetch, r.fetch);
    if a == b {
      AdvanceIsUnion(src, Processed(p), a);
      Canonical(q, r);
      FetchSteps(p.fetch, Processed(q), q.fetch, Processed(r), r.fetch, q.fetch);
    }
  }

  ghost predicate OrderIndependent(src: Sources) {
    forall a: set<nat>, b: set<nat> ::
      AdvanceSet(src, AdvanceSet(src, {}, a), b) == AdvanceSet(src, AdvanceSet(src, {}, b), a)
  }

  /** Advancing from nothing is independent of order exactly when the sources are transitively closed. */
  lemma OrderIndependentIffTransitive(src: Sources)
    requires Backward(src)
    ensures OrderIndependent(src) <==> Transitive(src)
  {
    if Transitive(src) {
      forall a: set<nat>, b: set<nat>
        ensures AdvanceSet(src, AdvanceSet(src, {}, a), b) == AdvanceSet(src, AdvanceSet(src, {}, b), a)
      {
        AdvanceCommutes(src, {}, a, b);
      }
    }
    if OrderIndependent(src) {
      forall p: nat, q | p < |src| && q in src[p]
        ensures q < |src| && src[q] <= src[p]
      {
        SourcesMustNest(src, p, q);
      }
    }
  }

  lemma SourcesMustNest(src: Sources, p: nat, q: nat)
    requires Backward(src) && OrderIndependent(src) && p < |src| && q in src[p]
    ensures q < |src| && src[q] <= src[p]
  {
    var first, second := AdvanceSet(src, {}, {p}), AdvanceSet(src, {}, {q});
    SourcesAdded(src, {}, p);
    SourcesAdded(src, {}, q);
    assert {} + {p} == {p} && {} + {q} == {q};
    assert {p} - {} == {p} && {q} - {} == {q};
    assert AdvanceSet(src, first, {q}) == {p} + src[p] by {
      assert {q} - first == {};
    }
    assert AdvanceSet(src, first, {q}) == AdvanceSet(src, second, {p});
    assert src[q] <= AdvanceSet(src, second, {p});
    assert p !in src[q];
  }
}
