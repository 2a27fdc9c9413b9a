/** Sums of reals, and their independence of order. */
module RealSums {
  import opened Common

  /** Division, with nothing over zero. */
  function Quotient(x: real, d: real): real {
    if d == 0.0 then 0.0 else x / d
  }

  function Total(s: seq<real>): real {
    if s == [] then 0.0 else s[0] + Total(s[1..])
  }

  /** The values at the given indices. */
  function PickValues(values: seq<real>, indices: seq<nat>): (r: seq<real>)
    requires forall i | 0 <= i < |indices| :: indices[i] < |values|
    ensures |r| == |indices| && forall i | 0 <= i < |r| :: r[i] == values[indices[i]]
  {
    seq(|indices|, i requires 0 <= i < |indices| => values[indices[i]])
  }

  lemma {:induction false} TotalConcat(a: seq<real>, b: seq<real>)
    ensures Total(a + b) == Total(a) + Total(b)
  {
    if a == [] {
      assert a + b == b;
    } else {
      assert (a + b)[1..] == a[1..] + b;
      TotalConcat(a[1..], b);
    }
  }

  lemma TotalFirst(x: real, s: seq<real>)
    ensures Total([x] + s) == x + Total(s)
  {
  }

  lemma {:induction false} TotalAt(s: seq<real>, i: nat)
    requires i < |s|
    ensures Total(s) == s[i] + Total(s[..i] + s[i + 1..])
  {
    assert s == s[..i] + ([s[i]] + s[i + 1..]);
    TotalConcat(s[..i], [s[i]] + s[i + 1..]);
    TotalConcat(s[..i], s[i + 1..]);
    TotalFirst(s[i], s[i + 1..]);
  }

  /** A total does not depend on the order. */
  lemma {:induction false} TotalPermuted(a: seq<real>, b: seq<real>)
    requires multiset(a) == multiset(b)
    ensures Total(a) == Total(b)
    decreases |a|
  {
    if a == [] {
      assert multiset(b) == multiset{};
      assert |b| == |multiset(b)|;
    } else {
      assert a[0] in multiset(b);
      var i: nat :| i < |b| && b[i] == a[0];
      TotalAt(b, i);
      SameBagRest(a, b, i);
      TotalPermuted(a[1..], b[..i] + b[i + 1..]);
    }
  }

  lemma {:induction false} TotalScaled(s: seq<real>, r: seq<real>, c: real)
    requires |r| == |s| && forall i | 0 <= i < |s| :: r[i] == c * s[i]
    ensures Total(r) == c * Total(s)
  {
    if s != [] {
      TotalScaled(s[1..], r[1..], c);
    }
  }

  lemma {:induction false} TotalSum(a: seq<real>, b: seq<real>, r: seq<real>)
    requires |a| == |b| == |r| && forall i | 0 <= i < |r| :: r[i] == a[i] + b[i]
    ensures Total(r) == Total(a) + Total(b)
  {
    if r != [] {
      TotalSum(a[1..], b[1..], r[1..]);
    }
  }

  lemma {:induction false} TotalConstant(s: seq<real>, c: real)
    requires forall i | 0 <= i < |s| :: s[i] == c
    ensures Total(s) == c * (|s| as real)
  {
    if s != [] {
      TotalConstant(s[1..], c);
      assert c * (|s| as real) == c * (|s[1..]| as real) + c;
    }
  }
}
