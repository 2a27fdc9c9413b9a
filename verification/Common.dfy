/** Small value helpers shared by the models. */
module Common {
  datatype Option<+T> = None | Some(value: T)

  function Min(a: int, b: int): (m: int)
    ensures m <= a && m <= b && (m == a || m == b)
  {
    if a <= b then a else b
  }

  function Max(a: int, b: int): (m: int)
    ensures m >= a && m >= b && (m == a || m == b)
  {
    if a >= b then a else b
  }

  /** `[x] * n` of the source language. */
  function Repeat<T>(x: T, n: nat): (r: seq<T>)
    ensures |r| == n
    ensures forall i | 0 <= i < n :: r[i] == x
  {
    seq(n, i => x)
  }

  /** `s[k:]` of the source language, which clamps an index past the end. */
  function SliceFrom<T>(s: seq<T>, k: nat): (r: seq<T>)
    ensures k <= |s| ==> r == s[k..]
    ensures k > |s| ==> r == []
  {
    if k <= |s| then s[k..] else []
  }

  function UpTo(n: nat): (r: seq<nat>)
    ensures |r| == n && forall i | 0 <= i < n :: r[i] == i
  {
    seq(n, i requires i >= 0 => i)
  }

  lemma LastSplit<T>(s: seq<T>)
    requires s != []
    ensures s == s[..|s| - 1] + [s[|s| - 1]]
  {
  }

  lemma WholePrefix<T>(s: seq<T>)
    ensures s[..|s|] == s
  {
  }

  lemma PrefixGrows<T>(s: seq<T>, a: nat, b: nat)
    requires a <= b <= |s|
    ensures s[..b] == s[..a] + s[a..b]
  {
  }

  lemma PrefixNext<T>(s: seq<T>, i: nat)
    requires i < |s|
    ensures s[..i + 1] == s[..i] + [s[i]]
  {
  }

  lemma SliceOfPrefix<T>(s: seq<T>, n: nat, from: nat, to: nat)
    requires from <= to <= n <= |s|
    ensures s[..n][from..to] == s[from..to]
  {
  }

  lemma SliceOfSlice<T>(s: seq<T>, a: nat, b: nat, i: nat, j: nat)
    requires a <= b <= |s| && i <= j <= b - a
    ensures s[a..b][i..j] == s[a + i..a + j]
  {
    forall k | 0 <= k < j - i
      ensures s[a..b][i..j][k] == s[a + i..a + j][k]
    {
      assert s[a..b][i + k] == s[a + i + k];
    }
  }

  /** Removing equal elements from two arrangements of one bag leaves arrangements of one bag. */
  lemma SameBagRest<T>(a: seq<T>, b: seq<T>, i: nat)
    requires multiset(a) == multiset(b) && a != [] && i < |b| && b[i] == a[0]
    ensures multiset(a[1..]) == multiset(b[..i] + b[i + 1..])
  {
    assert a == [a[0]] + a[1..];
    assert b == b[..i] + ([b[i]] + b[i + 1..]);
    assert multiset(a[1..]) == multiset(a) - multiset([a[0]]);
    assert multiset(b[..i] + b[i + 1..]) == multiset(b) - multiset([b[i]]);
  }

  function Sum(s: seq<int>): int {
    if s == [] then 0 else s[0] + Sum(s[1..])
  }

  lemma {:induction false} SumConcat(a: seq<int>, b: seq<int>)
    ensures Sum(a + b) == Sum(a) + Sum(b)
  {
    if a == [] {
      assert a + b == b;
    } else {
      assert (a + b)[1..] == a[1..] + b;
      SumConcat(a[1..], b);
    }
  }

  lemma {:induction false} SumConstant(s: seq<int>, c: int)
    requires forall i | 0 <= i < |s| :: s[i] == c
    ensures Sum(s) == c * |s|
  {
    if s != [] {
      SumConstant(s[1..], c);
    }
  }

  lemma NextMultiple(k: nat, c: nat)
    ensures (k + 1) * c == k * c + c
  {
  }

  lemma DivModOf(size: nat, e: nat, o: nat)
    requires o < size
    ensures (e * size + o) / size == e && (e * size + o) % size == o
  {
    var a := e * size + o;
    DivUnique(size, a, e, o, a / size, a % size);
  }

  lemma DivUnique(size: nat, a: nat, e: nat, o: nat, q: nat, r: nat)
    requires o < size && r < size
    requires a == e * size + o && a == q * size + r
    ensures e == q && o == r
  {
    if e < q {
      MulGap(size, e, q);
    } else if q < e {
      MulGap(size, q, e);
    }
  }

  lemma MulGap(size: nat, a: nat, b: nat)
    requires a < b
    ensures b * size >= a * size + size
  {
    var k: nat := b - a - 1;
    assert b * size == a * size + size + k * size;
    assert k * size >= 0;
  }
}
