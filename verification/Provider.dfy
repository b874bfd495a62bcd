/**
 The provider during one attempt. It sees one chain, whose visible head may grow; it may refuse any call,
 omit headers, list events in any order and cut the list into pages anywhere.
 */
module Provider {

  import opened Wrappers
  import opened Chain
  import opened PoolEvents
  import opened Store

  datatype Page = Page(events: seq<RawEvent>, next: Option<nat>)

  class Clock {
    var time: nat

    constructor (time: nat)
      ensures this.time == time
    {
      this.time := time;
    }

    method Now() returns (t: nat)
      modifies this
      ensures t == time && old(time) <= time
    {
      var elapsed :| 0 <= elapsed;
      time := time + elapsed;
      t := time;
    }
  }

  class PublicRpc {
    const chain: seq<Body>
    const chainId: nat
    const classAt: nat -> nat
    var head: nat
    // What remains to be sent under each continuation token, and how many more pages will be sent at all.
    var pending: map<nat, seq<RawEvent>>
    var patience: nat

    predicate Valid()
      reads this
    {
      head < |chain| && Monotone(chain)
    }

    constructor (chain: seq<Body>, chainId: nat, classAt: nat -> nat, head: nat, patience: nat)
      requires head < |chain| && Monotone(chain)
      ensures Valid() && this.chain == chain && this.head == head
    {
      this.chain, this.chainId, this.classAt := chain, chainId, classAt;
      this.head, pending, this.patience := head, map[], patience;
    }

    method GetChainId() returns (r: Result<nat, Code>)
      ensures r.Ok? ==> r.value == chainId
    {
      if * {
        return Err(RpcUnavailable);
      }
      return Ok(chainId);
    }

    method GetClassHashAt(n: nat) returns (r: Result<nat, Code>)
      ensures r.Ok? ==> r.value == classAt(n)
    {
      if * {
        return Err(RpcUnavailable);
      }
      return Ok(classAt(n));
    }

    method GetBlockNumber() returns (r: Result<nat, Code>)
      requires Valid()
      modifies this`head
      ensures Valid() && old(head) <= head
      ensures r.Ok? ==> r.value == head
    {
      var grown :| head <= grown < |chain|;
      head := grown;
      if * {
        return Err(RpcUnavailable);
      }
      return Ok(head);
    }

    method GetBlock(n: int) returns (r: Result<Header, Code>)
      requires Valid()
      ensures r.Ok? ==> 0 <= n <= head && r.value == HeaderAt(chain, n)
    {
      var refused: bool := *;
      if refused || n < 0 || n > head {
        return Err(RpcUnavailable);
      }
      return Ok(HeaderAt(chain, n));
    }

    method GetBlocks(numbers: seq<nat>) returns (r: Result<seq<Header>, Code>)
      requires Valid()
      ensures r.Ok? ==> forall h :: h in r.value ==> h.number <= head && h == HeaderAt(chain, h.number)
      ensures r.Ok? ==> forall h :: h in r.value ==> h.number in numbers
    {
      var headers: seq<Header> := [];
      for k := 0 to |numbers|
        invariant forall h :: h in headers ==> h.number <= head && h == HeaderAt(chain, h.number)
        invariant forall h :: h in headers ==> h.number in numbers
      {
        var refused, omitted: bool := *, *;
        if refused {
          return Err(RpcUnavailable);
        }
        if numbers[k] <= head && !omitted {
          headers := headers + [HeaderAt(chain, numbers[k])];
        }
      }
      return Ok(headers);
    }

    function Remaining(next: Option<nat>): seq<RawEvent>
      reads this
    {
      if next.Some? && next.value in pending then pending[next.value] else []
    }

    /** The first page starts some listing of the range; every later page continues the listing of its token. */
    method GetEvents(query: Query, from: nat, through: nat, token: Option<nat>)
      returns (r: Result<Page, Code>)
      requires Valid()
      modifies this`pending, this`patience
      ensures r.Ok? ==> through <= head && patience < old(patience)
      ensures r.Ok? && token.Some? ==> old(Remaining(token)) == r.value.events + Remaining(r.value.next)
      ensures r.Ok? && token.None? && through <= head ==>
                multiset(r.value.events + Remaining(r.value.next))
                == multiset(EventsIn(query, chain, from, through + 1))
    {
      var refused, last: bool := *, *;
      if refused || through > head || patience == 0 {
        return Err(RpcUnavailable);
      }
      patience := patience - 1;
      var listing := Remaining(token);
      if token.None? {
        listing := Shuffled(EventsIn(query, chain, from, through + 1));
      }
      var cut :| 0 <= cut <= |listing|;
      assert listing[..cut] + listing[cut..] == listing;
      if last && cut == |listing| {
        return Ok(Page(listing, None));
      }
      var next :| 0 <= next;
      pending := pending[next := listing[cut..]];
      return Ok(Page(listing[..cut], Some(next)));
    }

    method Shuffled(events: seq<RawEvent>) returns (listing: seq<RawEvent>)
      ensures multiset(listing) == multiset(events)
    {
      listing := [];
      for k := 0 to |events|
        invariant multiset(listing) == multiset(events[..k])
      {
        var at :| 0 <= at <= |listing|;
        assert listing == listing[..at] + listing[at..];
        assert events[..k + 1] == events[..k] + [events[k]];
        listing := listing[..at] + [events[k]] + listing[at..];
      }
      assert events[..|events|] == events;
    }
  }
}
