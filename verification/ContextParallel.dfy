/**
 Context parallelism (vime/backends/megatron_utils/cp_utils.py): each rank has two
 chunks of a sequence, one from either end. The ranks' masked sums add up to the
 sum over the response.
 */
module ContextParallel {
  import opened Common

  /** Masked per-token terms of one sequence; the response is its last `response` tokens. */
  datatype Tokens = Tokens(total: nat, response: nat, term: int -> real)

  predicate ValidTokens(s: Tokens) {
    s.response <= s.total
  }

  function Prompt(s: Tokens): nat
    requires ValidTokens(s)
  {
    s.total - s.response
  }

  /** Sum of the terms from `a` up to `b`. */
  function RangeSum(f: int -> real, a: int, b: int): real
    decreases b - a
  {
    if a >= b then 0.0 else RangeSum(f, a, b - 1) + f(b - 1)
  }

  lemma {:induction false} RangeSumSplit(f: int -> real, a: int, m: int, b: int)
    requires a <= m <= b
    ensures RangeSum(f, a, m) + RangeSum(f, m, b) == RangeSum(f, a, b)
    decreases b - m
  {
    if m < b {
      RangeSumSplit(f, a, m, b - 1);
    }
  }

  // ------------------------------------------------------------- chunks

  function ChunkSize(total: nat, cp: nat): nat
    requires cp > 0
  {
    (total + 2 * cp - 1) / (2 * cp)
  }

  datatype Range = Range(from: int, to: int)

  /** The response tokens that chunk `k` of size `c` predicts; logits come one position early. */
  function TokenRange(s: Tokens, c: nat, k: nat): Range
    requires ValidTokens(s)
  {
    var a := Max(k * c, Prompt(s) - 1);
    var b := Min((k + 1) * c, s.total - 1);
    if a < b then Range(a + 1, b + 1) else Range(0, 0)
  }

  function ChunkSum(s: Tokens, c: nat, k: nat): real
    requires ValidTokens(s)
  {
    var r := TokenRange(s, c, k);
    RangeSum(s.term, r.from, r.to)
  }

  /** What one rank of `cp` sums; a single rank has the whole response. */
  function RankSum(s: Tokens, cp: nat, rank: nat): real
    requires ValidTokens(s) && rank < cp
  {
    if cp == 1 then RangeSum(s.term, Prompt(s), s.total)
    else
      var c := ChunkSize(s.total, cp);
      ChunkSum(s, c, rank) + ChunkSum(s, c, 2 * cp - 1 - rank)
  }

  function RanksSum(s: Tokens, cp: nat, ranks: nat): real
    requires ValidTokens(s) && ranks <= cp
  {
    if ranks == 0 then 0.0 else RanksSum(s, cp, ranks - 1) + RankSum(s, cp, ranks - 1)
  }

  // ------------------------------------------------------------- they add up

  function ChunksSum(s: Tokens, c: nat, n: nat): real
    requires ValidTokens(s)
  {
    if n == 0 then 0.0 else ChunksSum(s, c, n - 1) + ChunkSum(s, c, n - 1)
  }

  /** A logit position kept inside the response's. */
  function Clamp(s: Tokens, x: int): int
    requires ValidTokens(s)
  {
    Min(Max(x, Max(Prompt(s) - 1, 0)), s.total - 1)
  }

  lemma ChunkIsClamped(s: Tokens, c: nat, k: nat, x: nat, y: nat)
    requires ValidTokens(s) && Max(Prompt(s) - 1, 0) <= s.total - 1
    requires x == k * c && y == (k + 1) * c && x <= y
    ensures Clamp(s, x) <= Clamp(s, y)
    ensures ChunkSum(s, c, k) == RangeSum(s.term, Clamp(s, x) + 1, Clamp(s, y) + 1)
  {
  }

  lemma {:induction false} ChunksAddUp(s: Tokens, c: nat, n: nat, x: nat)
    requires ValidTokens(s) && Max(Prompt(s) - 1, 0) <= s.total - 1 && x == n * c
    ensures Clamp(s, 0) <= Clamp(s, x)
    ensures ChunksSum(s, c, n) == RangeSum(s.term, Clamp(s, 0) + 1, Clamp(s, x) + 1)
    decreases n
  {
    if n > 0 {
      var y: nat := (n - 1) * c;
      NextMultiple(n - 1, c);
      ChunksAddUp(s, c, n - 1, y);
      ChunkIsClamped(s, c, n - 1, y, x);
      RangeSumSplit(s.term, Clamp(s, 0) + 1, Clamp(s, y) + 1, Clamp(s, x) + 1);
    }
  }

  /** The chunks of the first ranks are the first and the last ones. */
  lemma {:induction false} RanksAreChunks(s: Tokens, cp: nat, ranks: nat)
    requires ValidTokens(s) && 1 < cp && ranks <= cp
    ensures
      var c := ChunkSize(s.total, cp);
      RanksSum(s, cp, ranks) == ChunksSum(s, c, ranks) + ChunksSum(s, c, 2 * cp) - ChunksSum(s, c, 2 * cp - ranks)
    decreases ranks
  {
    if ranks > 0 {
      RanksAreChunks(s, cp, ranks - 1);
    }
  }

  lemma ChunksReachEnd(total: nat, cp: nat)
    requires cp > 0
    ensures 2 * cp * ChunkSize(total, cp) >= total
  {
  }

  /** Every response token that follows another token is summed by exactly one rank's chunk. */
  lemma RanksSumResponse(s: Tokens, cp: nat)
    requires ValidTokens(s) && 1 < cp
    ensures RanksSum(s, cp, cp) == RangeSum(s.term, Max(Prompt(s), 1), s.total)
  {
    var c := ChunkSize(s.total, cp);
    RanksAreChunks(s, cp, cp);
    if s.total == 0 {
      NoChunks(s, c, 2 * cp);
    } else {
      ChunksReachEnd(s.total, cp);
      ChunksAddUp(s, c, 2 * cp, 2 * cp * c);
    }
  }

  lemma {:induction false} NoChunks(s: Tokens, c: nat, n: nat)
    requires ValidTokens(s) && s.total == 0
    ensures ChunksSum(s, c, n) == 0.0
  {
    if n > 0 {
      NoChunks(s, c, n - 1);
    }
  }

  // ------------------------------------------------------------- whose token it is

  /** Token `x` is predicted at a position of chunk `k`. */
  predicate InChunk(c: nat, k: nat, x: int) {
    k * c <= x - 1 < (k + 1) * c
  }

  /** A rank has one chunk counted from the front and one counted from the back. */
  predicate Owns(total: nat, cp: nat, rank: nat, x: int)
    requires rank < cp
  {
    var c := ChunkSize(total, cp);
    InChunk(c, rank, x) || InChunk(c, 2 * cp - 1 - rank, x)
  }

  /** The chunks are the smallest of one size that hold all tokens. */
  lemma SmallestChunks(total: nat, cp: nat, c: nat)
    requires cp > 0
    ensures 2 * cp * c >= total <==> c >= ChunkSize(total, cp)
  {
    var n, size := 2 * cp, ChunkSize(total, cp);
    assert n * size >= total && total + n - 1 >= n * size;
    if c >= size {
      TimesMonotone(n, size, c);
    } else {
      TimesMonotone(n, c + 1, size);
      assert n * (c + 1) == n * c + n;
    }
  }

  lemma TimesMonotone(n: nat, a: nat, b: nat)
    requires a <= b
    ensures n * a <= n * b && a * n <= b * n
  {
  }

  lemma LaterChunk(c: nat, k: nat, l: nat)
    ensures k < l ==> (k + 1) * c <= l * c
  {
    if k < l {
      TimesMonotone(c, k + 1, l);
    }
  }

  lemma OneChunk(c: nat, k: nat, l: nat, x: int)
    ensures InChunk(c, k, x) && InChunk(c, l, x) ==> k == l
  {
    LaterChunk(c, k, l);
    LaterChunk(c, l, k);
  }

  lemma SomeChunk(c: nat, n: nat, x: int) returns (k: nat)
    requires 1 <= x <= n * c
    ensures k < n && InChunk(c, k, x)
  {
    k := (x - 1) / c;
    assert x - 1 == k * c + (x - 1) % c;
    LaterChunk(c, n - 1, k);
    assert (k + 1) * c == k * c + c;
  }

  /** Every token that follows another one belongs to one rank, and to no other. */
  lemma OneOwner(total: nat, cp: nat, x: int) returns (rank: nat)
    requires cp > 0 && 1 <= x < total
    ensures rank < cp && Owns(total, cp, rank, x)
    ensures forall other: nat | other < cp && Owns(total, cp, other, x) :: other == rank
  {
    var c := ChunkSize(total, cp);
    ChunksReachEnd(total, cp);
    var k := SomeChunk(c, 2 * cp, x);
    rank := if k < cp then k else 2 * cp - 1 - k;
    forall other: nat | other < cp && Owns(total, cp, other, x)
      ensures other == rank
    {
      OneChunk(c, k, if InChunk(c, other, x) then other else 2 * cp - 1 - other, x);
    }
  }

  lemma {:induction false} RangeSumNothing(f: int -> real, a: int, b: int)
    requires forall x | a <= x < b :: f(x) == 0.0
    ensures RangeSum(f, a, b) == 0.0
    decreases b - a
  {
    if a < b {
      RangeSumNothing(f, a, b - 1);
    }
  }

  lemma {:induction false} RangeSumSame(f: int -> real, g: int -> real, a: int, b: int)
    requires forall x | a <= x < b :: f(x) == g(x)
    ensures RangeSum(f, a, b) == RangeSum(g, a, b)
    decreases b - a
  {
    if a < b {
      RangeSumSame(f, g, a, b - 1);
    }
  }

  lemma {:induction false} RangeSumBoth(f: int -> real, g: int -> real, h: int -> real, a: int, b: int)
    requires forall x | a <= x < b :: h(x) == f(x) + g(x)
    ensures RangeSum(h, a, b) == RangeSum(f, a, b) + RangeSum(g, a, b)
    decreases b - a
  {
    if a < b {
      RangeSumBoth(f, g, h, a, b - 1);
    }
  }

  /** The terms of the tokens of one chunk, and zero for the others. */
  function ChunkTerm(s: Tokens, c: nat, k: nat): int -> real {
    x => if InChunk(c, k, x) then s.term(x) else 0.0
  }

  /** The terms of the tokens of one rank, and zero for the others. */
  function RankTerm(s: Tokens, cp: nat, rank: nat): int -> real
    requires rank < cp
  {
    x => if Owns(s.total, cp, rank, x) then s.term(x) else 0.0
  }

  lemma RangeIsChunk(s: Tokens, c: nat, k: nat, x: int)
    requires ValidTokens(s) && Prompt(s) <= x < s.total
    ensures InChunk(c, k, x) <==> TokenRange(s, c, k).from <= x < TokenRange(s, c, k).to
  {
    var from, to := k * c, (k + 1) * c;
  }

  lemma ChunkSumsOwn(s: Tokens, c: nat, k: nat)
    requires ValidTokens(s)
    ensures ChunkSum(s, c, k) == RangeSum(ChunkTerm(s, c, k), Prompt(s), s.total)
  {
    var r, f := TokenRange(s, c, k), ChunkTerm(s, c, k);
    forall x | Prompt(s) <= x < s.total
      ensures f(x) == if r.from <= x < r.to then s.term(x) else 0.0
    {
      RangeIsChunk(s, c, k, x);
    }
    if r.from < r.to {
      RangeSumSplit(f, Prompt(s), r.from, s.total);
      RangeSumSplit(f, r.from, r.to, s.total);
      RangeSumNothing(f, Prompt(s), r.from);
      RangeSumSame(f, s.term, r.from, r.to);
      RangeSumNothing(f, r.to, s.total);
    } else {
      RangeSumNothing(f, Prompt(s), s.total);
    }
  }

  /** A rank sums the response tokens that belong to it: all of them and no other. */
  lemma RankSumsOwn(s: Tokens, cp: nat, rank: nat)
    requires ValidTokens(s) && 1 < cp && rank < cp
    ensures RankSum(s, cp, rank) == RangeSum(RankTerm(s, cp, rank), Prompt(s), s.total)
  {
    var c, other := ChunkSize(s.total, cp), 2 * cp - 1 - rank;
    var f, g := ChunkTerm(s, c, rank), ChunkTerm(s, c, other);
    ChunkSumsOwn(s, c, rank);
    ChunkSumsOwn(s, c, other);
    forall x | Prompt(s) <= x < s.total
      ensures RankTerm(s, cp, rank)(x) == f(x) + g(x)
    {
      TermOfEither(s, cp, rank, x);
    }
    RangeSumBoth(f, g, RankTerm(s, cp, rank), Prompt(s), s.total);
  }

  lemma TermOfEither(s: Tokens, cp: nat, rank: nat, x: int)
    requires 1 < cp && rank < cp
    ensures
      var c := ChunkSize(s.total, cp);
      RankTerm(s, cp, rank)(x) == ChunkTerm(s, c, rank)(x) + ChunkTerm(s, c, 2 * cp - 1 - rank)(x)
  {
    var c, other := ChunkSize(s.total, cp), 2 * cp - 1 - rank;
    var first, second := InChunk(c, rank, x), InChunk(c, other, x);
    OneChunk(c, rank, other, x);
    assert Owns(s.total, cp, rank, x) <==> first || second;
    assert ChunkTerm(s, c, rank)(x) == if first then s.term(x) else 0.0;
    assert ChunkTerm(s, c, other)(x) == if second then s.term(x) else 0.0;
  }

  /** What all ranks together sum: the response, but for a first token that follows no other. */
  function Covered(s: Tokens, cp: nat): real
    requires ValidTokens(s)
  {
    RangeSum(s.term, if cp == 1 then Prompt(s) else Max(Prompt(s), 1), s.total)
  }

  lemma RanksSumCovered(s: Tokens, cp: nat)
    requires ValidTokens(s) && cp > 0
    ensures RanksSum(s, cp, cp) == Covered(s, cp)
  {
    if cp == 1 {
      assert RanksSum(s, 1, 1) == RanksSum(s, 1, 0) + RankSum(s, 1, 0);
    } else {
      RanksSumResponse(s, cp);
    }
  }

  /** No response token is missed that counts for something. */
  predicate CoversAll(s: Tokens, cp: nat)
    requires ValidTokens(s)
  {
    cp == 1 || Prompt(s) > 0 || s.total == 0 || s.term(0) == 0.0
  }

  /** The ranks sum the whole response exactly when its first token follows another one or counts for nothing. */
  lemma RanksSumIsWhole(s: Tokens, cp: nat)
    requires ValidTokens(s) && cp > 0
    ensures RanksSum(s, cp, cp) == RangeSum(s.term, Prompt(s), s.total) <==> CoversAll(s, cp)
  {
    RanksSumCovered(s, cp);
    if cp > 1 && Prompt(s) == 0 && s.total > 0 {
      RangeSumSplit(s.term, 0, 1, s.total);
      assert RangeSum(s.term, 0, 1) == RangeSum(s.term, 0, 0) + s.term(0);
    }
  }
}
