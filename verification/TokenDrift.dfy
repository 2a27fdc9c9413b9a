/**
 Chunked longest-common-prefix search over token lists
 (vime/agent/trajectory.py).
 */
module TokenDrift {
  import opened Common

  /** Reference definition: `n` leading tokens agree and no longer prefix does. */
  ghost predicate IsLongestCommonPrefix(a: seq<int>, b: seq<int>, n: nat) {
    && n <= |a|
    && n <= |b|
    && (forall k | 0 <= k < n :: a[k] == b[k])
    && (n < |a| && n < |b| ==> a[n] != b[n])
  }

  function CommonPrefixLen(a: seq<int>, b: seq<int>): (n: nat)
    ensures IsLongestCommonPrefix(a, b, n)
  {
    if a == [] || b == [] || a[0] != b[0] then 0
    else
      var m := CommonPrefixLen(a[1..], b[1..]);
      assert forall k | 0 < k < m + 1 :: a[k] == a[1..][k - 1] && b[k] == b[1..][k - 1];
      m + 1
  }

  /**
   The source's loop: whole chunks are compared first, and only the chunk that
   differs is scanned token by token.
   */
  method FindCommonPrefix(a: seq<int>, b: seq<int>, chunk: nat) returns (matched: nat)
    requires chunk > 0
    ensures matched == CommonPrefixLen(a, b)
  {
    var limit := Min(|a|, |b|);
    matched := 0;
    while matched < limit
      invariant matched <= limit
      invariant forall k | 0 <= k < matched :: a[k] == b[k]
    {
      var chunkEnd := Min(matched + chunk, limit);
      if a[matched..chunkEnd] == b[matched..chunkEnd] {
        assert forall k | matched <= k < chunkEnd ::
            a[k] == a[matched..chunkEnd][k - matched] && b[k] == b[matched..chunkEnd][k - matched];
        matched := chunkEnd;
      } else {
        var first := matched;
        while matched < chunkEnd && a[matched] == b[matched]
          invariant first <= matched <= chunkEnd
          invariant forall k | 0 <= k < matched :: a[k] == b[k]
        {
          matched := matched + 1;
        }
        assert a[first..matched] == b[first..matched];
        return;
      }
    }
  }
}
