/** The binary search for the block that a source starts at, with its cache of headers. */
module BoundarySearch {

  import opened Wrappers
  import opened Chain
  import opened Store
  import opened Provider
  import opened Publication

  /** The first block when it is late enough already, otherwise the last block not after the target. */
  ghost predicate IsBoundary(h: Header, chain: seq<Body>, first: nat, last: int, target: int) {
    && first <= h.number && OnChainHeader(h, chain)
    && (target <= chain[first].timestamp ==> h.number == first)
    && (chain[first].timestamp < target ==>
          h.timestamp <= target && forall n: nat :: h.number < n <= last && n < |chain| ==> chain[n].timestamp > target)
  }

  /** What the search is named after: the last block at or before the target. */
  ghost predicate IsLastAtOrBefore(h: Header, chain: seq<Body>, last: int, target: int) {
    && h.timestamp <= target
    && forall n: nat :: h.number < n <= last && n < |chain| ==> chain[n].timestamp > target
  }

  /**
   The search returns the last block at or before the target exactly when the first block is earlier than the
   target, or meets it and is not followed by another block that does.
   */
  lemma BoundaryIsLast(h: Header, chain: seq<Body>, first: nat, last: int, target: int)
    requires Monotone(chain) && first <= last && first < |chain|
    requires IsBoundary(h, chain, first, last, target)
    ensures IsLastAtOrBefore(h, chain, last, target)
            <==> || chain[first].timestamp < target
                 || (chain[first].timestamp == target
                     && (first + 1 <= last && first + 1 < |chain| ==> chain[first + 1].timestamp > target))
  {
    if chain[first].timestamp == target && first + 1 <= last && first + 1 < |chain| {
      forall n: nat | first < n <= last && n < |chain| ensures chain[first + 1].timestamp <= chain[n].timestamp {
      }
    }
  }

  /** Two blocks that both meet the target: the search stops at the first of them. */
  lemma EqualTimestampsStopEarly(target: nat)
    ensures var chain := [Body(target, []), Body(target, [])];
            && Monotone(chain) && IsBoundary(HeaderAt(chain, 0), chain, 0, 1, target)
            && !IsLastAtOrBefore(HeaderAt(chain, 0), chain, 1, target)
            && IsLastAtOrBefore(HeaderAt(chain, 1), chain, 1, target)
  {
    var chain := [Body(target, []), Body(target, [])];
    assert chain[1].timestamp == target;
  }

  /** Headers seen so far; all of them are the chain's own. */
  predicate CacheOf(cache: map<nat, Header>, chain: seq<Body>) {
    forall n :: n in cache ==> n < |chain| && cache[n] == HeaderAt(chain, n)
  }

  method GetCached(rpc: PublicRpc, cache: map<nat, Header>, n: nat)
    returns (r: Result<(Header, map<nat, Header>), Code>)
    requires rpc.Valid() && CacheOf(cache, rpc.chain)
    ensures r.Ok? ==> n < |rpc.chain| && r.value.0 == HeaderAt(rpc.chain, n) && CacheOf(r.value.1, rpc.chain)
    ensures r.Ok? ==> r.value.1 == cache[n := r.value.0]
  {
    if n in cache {
      return Ok((cache[n], cache));
    }
    var fetched := rpc.GetBlock(n);
    if fetched.Err? {
      return Err(fetched.error);
    }
    return Ok((fetched.value, cache[n := fetched.value]));
  }

  method FindBlockAtOrBeforeTimestamp(rpc: PublicRpc, first: nat, last: nat, target: int, known: map<nat, Header>)
    returns (r: Result<(Header, map<nat, Header>), Code>)
    requires rpc.Valid() && CacheOf(known, rpc.chain)
    ensures r.Ok? ==> IsBoundary(r.value.0, rpc.chain, first, last, target) && CacheOf(r.value.1, rpc.chain)
    ensures r.Ok? ==> known.Keys <= r.value.1.Keys && r.value.0.number in r.value.1
  {
    r := GetCached(rpc, known, first);
    if r.Err? || target <= r.value.0.timestamp {
      return;
    }
    var cache := r.value.1;
    var low, high := first, last;
    while low < high
      invariant first <= low && low <= (if first <= last then last else first)
      invariant high <= last && CacheOf(cache, rpc.chain) && known.Keys <= cache.Keys
      invariant low < |rpc.chain| && rpc.chain[low].timestamp <= target
      invariant forall n: nat :: high < n <= last && n < |rpc.chain| ==> rpc.chain[n].timestamp > target
      invariant low <= high || last < first
      decreases high - low
    {
      var middle := (low + high + 1) / 2;
      r := GetCached(rpc, cache, middle);
      if r.Err? {
        return;
      }
      cache := r.value.1;
      if r.value.0.timestamp <= target {
        low := middle;
      } else {
        high := middle - 1;
      }
    }
    r := GetCached(rpc, cache, low);
  }
}
