/**
 The live chain. A block hash is modelled by what it commits to, the bodies of the block and of all
 its ancestors, so equal hashes mean equal histories and a parent hash is the hash one block shorter.
 */
module Chain {

  import opened EngineTypes

  /** An event as its block carries it. */
  datatype RawLog = RawLog(tx: nat, source: Address, keys: seq<nat>, data: seq<nat>)

  datatype Body = Body(timestamp: nat, logs: seq<RawLog>)

  type BlockHash = seq<Body>

  datatype Header = Header(number: nat, hash: BlockHash, parent: BlockHash, timestamp: nat)

  function HeaderAt(chain: seq<Body>, n: nat): Header
    requires n < |chain|
  {
    Header(n, chain[..n + 1], chain[..n], chain[n].timestamp)
  }

  /** Timestamps never decrease along the chain. */
  predicate Monotone(chain: seq<Body>) {
    forall i, j :: 0 <= i <= j < |chain| ==> chain[i].timestamp <= chain[j].timestamp
  }

  /** The hash names a block of this chain. */
  predicate OnChain(hash: BlockHash, chain: seq<Body>) {
    |hash| <= |chain| && hash == chain[..|hash|]
  }

  lemma HeaderOfPrefix(chain: seq<Body>, m: nat, n: nat)
    requires n < m <= |chain|
    ensures HeaderAt(chain[..m], n) == HeaderAt(chain, n)
  {
    assert chain[..m][..n + 1] == chain[..n + 1];
    assert chain[..m][..n] == chain[..n];
  }

  /** Consecutive headers of one chain are linked. */
  lemma Linked(chain: seq<Body>, n: nat)
    requires 0 < n < |chain|
    ensures HeaderAt(chain, n).parent == HeaderAt(chain, n - 1).hash
  {
  }
}
