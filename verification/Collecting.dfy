/** Putting the pages of a range query together: order, ordinals, decoded rows. */
module Collecting {

  import opened EngineTypes
  import opened Wrappers
  import opened Sequences
  import opened Sorting
  import opened Chain
  import opened PoolEvents
  import opened Index
  import opened Store
  import opened Provider

  // ----- collected events

  /** An event and its position in the provider's answer. */
  datatype Collected = Collected(raw: RawEvent, sourceOrdinal: nat)

  function RawOf(): Collected -> RawEvent {
    (item: Collected) => item.raw
  }

  function BlockOf(): RawEvent -> nat {
    (e: RawEvent) => e.block
  }

  function CollectedOrder(cfg: Config): (Collected, Collected) -> bool {
    (x: Collected, y: Collected) =>
      if x.raw != y.raw then RawOrder(cfg)(x.raw, y.raw) else x.sourceOrdinal <= y.sourceOrdinal
  }

  lemma CollectedOrderTotal(cfg: Config)
    requires ValidConfig(cfg)
    ensures TotalPreorder(CollectedOrder(cfg))
    ensures forall x, y :: CollectedOrder(cfg)(x, y) ==> RawOrder(cfg)(x.raw, y.raw)
  {
    hide RawOrder;
    RawOrderTotal(cfg);
    var order, leq := RawOrder(cfg), CollectedOrder(cfg);
    forall x, y ensures leq(x, y) || leq(y, x) {
      assert order(x.raw, y.raw) || order(y.raw, x.raw);
    }
    forall x, y, z | leq(x, y) && leq(y, z) ensures leq(x, z) {
      assert order(x.raw, y.raw) && order(y.raw, z.raw) ==> order(x.raw, z.raw);
      assert x.raw == z.raw && x.raw != y.raw ==> !(order(x.raw, y.raw) && order(y.raw, x.raw));
    }
  }

  /** The position in the answer only breaks ties between identical events. */
  lemma SortCollected(cfg: Config, collected: seq<Collected>)
    requires ValidConfig(cfg)
    ensures Map(Sort(CollectedOrder(cfg), collected), RawOf()) == Sort(RawOrder(cfg), Map(collected, RawOf()))
  {
    var sorted, raws := Sort(CollectedOrder(cfg), collected), Map(collected, RawOf());
    CollectedOrderTotal(cfg);
    RawOrderTotal(cfg);
    SortSorted(CollectedOrder(cfg), collected);
    SortSorted(RawOrder(cfg), raws);
    MapPermutation(sorted, collected, RawOf());
    SortedUnique(RawOrder(cfg), Map(sorted, RawOf()), Sort(RawOrder(cfg), raws));
  }

  // ----- pages

  datatype PageFault = RepeatedToken | Refused(code: Code)

  /** What has been received, together with what is still to come, is the events of the range. */
  ghost predicate Listing(collected: seq<Collected>, remaining: seq<RawEvent>, query: Query,
                          chain: seq<Body>, from: nat, end: nat)
  {
    end <= |chain| && multiset(Map(collected, RawOf()) + remaining) == multiset(EventsIn(query, chain, from, end))
  }

  lemma FirstPageLists(collected: seq<Collected>, page: seq<RawEvent>, remaining: seq<RawEvent>,
                       query: Query, chain: seq<Body>, from: nat, end: nat)
    requires end <= |chain| && multiset(page + remaining) == multiset(EventsIn(query, chain, from, end))
    requires Map(collected, RawOf()) == Map([], RawOf()) + page
    ensures Listing(collected, remaining, query, chain, from, end)
  {
    assert [] + page == page;
  }

  lemma NextPageLists(received: seq<Collected>, before: seq<RawEvent>, collected: seq<Collected>,
                      page: seq<RawEvent>, remaining: seq<RawEvent>,
                      query: Query, chain: seq<Body>, from: nat, end: nat)
    requires Listing(received, before, query, chain, from, end)
    requires before == page + remaining && Map(collected, RawOf()) == Map(received, RawOf()) + page
    ensures Listing(collected, remaining, query, chain, from, end)
  {
    hide Map, EventsIn, RawOf;
    assert Map(received, RawOf()) + page + remaining == Map(received, RawOf()) + (page + remaining);
  }

  lemma AllListed(collected: seq<Collected>, query: Query, chain: seq<Body>, from: nat, end: nat)
    requires Listing(collected, [], query, chain, from, end)
    ensures multiset(Map(collected, RawOf())) == multiset(EventsIn(query, chain, from, end))
  {
    assert Map(collected, RawOf()) + [] == Map(collected, RawOf());
  }

  /** Numbers the events of a page on from those already collected, the first of all having number first. */
  method Numbered(first: nat, collected: seq<Collected>, events: seq<RawEvent>) returns (extended: seq<Collected>)
    ensures Map(extended, RawOf()) == Map(collected, RawOf()) + events
  {
    extended := collected;
    for k := 0 to |events|
      invariant Map(extended, RawOf()) == Map(collected, RawOf()) + events[..k]
    {
      extended := extended + [Collected(events[k], first + |extended|)];
    }
  }

  method NextPage(rpc: PublicRpc, query: Query, first: nat, collected: seq<Collected>, token: Option<nat>,
                  from: nat, through: nat)
    returns (r: Result<(seq<Collected>, Option<nat>), PageFault>)
    requires rpc.Valid() && token.Some?
    requires Listing(collected, rpc.Remaining(token), query, rpc.chain, from, through + 1)
    modifies rpc`pending, rpc`patience
    ensures r.Ok? ==> rpc.patience < old(rpc.patience)
    ensures r.Ok? ==> Listing(r.value.0, rpc.Remaining(r.value.1), query, rpc.chain, from, through + 1)
  {
    hide Listing, EventsIn, Map;
    ghost var before := rpc.Remaining(token);
    var page := rpc.GetEvents(query, from, through, token);
    if page.Err? {
      return Err(Refused(page.error));
    }
    var extended := Numbered(first, collected, page.value.events);
    NextPageLists(collected, before, extended, page.value.events, rpc.Remaining(page.value.next),
                  query, rpc.chain, from, through + 1);
    return Ok((extended, page.value.next));
  }

  /** Page after page until no token is left: every matching event of the range, however it was cut and ordered. */
  method CollectPages(rpc: PublicRpc, query: Query, first: nat, from: nat, through: nat)
    returns (r: Result<seq<Collected>, PageFault>)
    requires rpc.Valid()
    modifies rpc`pending, rpc`patience
    ensures r.Ok? ==> through <= rpc.head
    ensures r.Ok? ==> multiset(Map(r.value, RawOf())) == multiset(EventsIn(query, rpc.chain, from, through + 1))
  {
    hide Listing, EventsIn, Map, RawOf, Monotone;
    var seenTokens: set<nat> := {};
    var page := rpc.GetEvents(query, from, through, None);
    if page.Err? {
      return Err(Refused(page.error));
    }
    var collected := Numbered(first, [], page.value.events);
    var token := page.value.next;
    FirstPageLists(collected, page.value.events, rpc.Remaining(token), query, rpc.chain, from, through + 1);
    while token.Some?
      invariant through <= rpc.head
      invariant Listing(collected, rpc.Remaining(token), query, rpc.chain, from, through + 1)
      decreases rpc.patience
    {
      if token.value in seenTokens {
        return Err(RepeatedToken);
      }
      seenTokens := seenTokens + {token.value};
      var next := NextPage(rpc, query, first, collected, token, from, through);
      if next.Err? {
        return Err(next.error);
      }
      collected, token := next.value.0, next.value.1;
    }
    AllListed(collected, query, rpc.chain, from, through + 1);
    return Ok(collected);
  }

  // ----- ordinals

  type TransactionKey = (nat, nat)

  function NextOrdinal(ordinals: map<TransactionKey, nat>, e: RawEvent): nat {
    if (e.block, e.tx) in ordinals then ordinals[(e.block, e.tx)] else 0
  }

  /** The table counts, for every transaction, the events of it seen so far. */
  ghost predicate CountsSeen(ordinals: map<TransactionKey, nat>, seen: seq<RawEvent>) {
    forall e: RawEvent :: NextOrdinal(ordinals, e) == |Filter(seen, SameTransaction(e))|
  }

  lemma CountOneMore(ordinals: map<TransactionKey, nat>, seen: seq<RawEvent>, x: RawEvent)
    requires CountsSeen(ordinals, seen)
    ensures CountsSeen(ordinals[(x.block, x.tx) := NextOrdinal(ordinals, x) + 1], seen + [x])
  {
    var after := ordinals[(x.block, x.tx) := NextOrdinal(ordinals, x) + 1];
    forall e: RawEvent ensures NextOrdinal(after, e) == |Filter(seen + [x], SameTransaction(e))| {
      FilterConcat(seen, [x], SameTransaction(e));
      if (e.block, e.tx) == (x.block, x.tx) {
        assert NextOrdinal(ordinals, e) == NextOrdinal(ordinals, x);
      }
    }
  }

  /** Rows decoded one by one are the index of the segment. */
  lemma DecodedIsIndex(cfg: Config, model: ModelVersion, chain: seq<Body>, from: nat, end: nat, rows: seq<PoolEvent>)
    requires end <= |chain|
    requires var events := SortedEvents(cfg, model, chain, from, end);
             |rows| == |events|
             && forall i :: 0 <= i < |events| ==> DecodeAt(cfg, chain, events, i) == Ok(rows[i])
    ensures Clean(cfg, model, chain, from, end) && rows == IndexOf(cfg, model, chain, from, end)
  {
    OkValuesAll(DecodeAll(cfg, chain, SortedEvents(cfg, model, chain, from, end)));
  }
}
