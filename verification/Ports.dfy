/** The host port allocator of `internal/ports/allocator.go`. */
module Ports {
  import opened Text
  import opened Models
  import opened Registries

  /** A port may be handed out when no record claims it and, if probing, nothing on the host holds it. */
  predicate Free(p: int, claimed: set<int>, busy: set<int>) {
    p !in claimed && p !in busy
  }

  /** The lowest free port of `[p, end]`. */
  function LowestFree(p: int, end: int, claimed: set<int>, busy: set<int>): (port: Option<int>)
    ensures match port
            case Some(q) => p <= q <= end && Free(q, claimed, busy) && forall r | p <= r < q :: !Free(r, claimed, busy)
            case None => forall r | p <= r <= end :: !Free(r, claimed, busy)
    decreases end - p
  {
    if p > end then None
    else if Free(p, claimed, busy) then Some(p)
    else LowestFree(p + 1, end, claimed, busy)
  }

  /** The ports of the pool. */
  function Range(start: int, end: int): (pool: set<int>)
    ensures forall p :: p in pool <==> start <= p <= end
    ensures |pool| == if start <= end then end - start + 1 else 0
    decreases end - start
  {
    if start > end then {} else {start} + Range(start + 1, end)
  }

  /** With probing off, exhaustion means every port of the range is claimed; fewer claims than ports rules it out. */
  lemma ExhaustedMeansAllClaimed(start: int, end: int, claimed: set<int>)
    ensures LowestFree(start, end, claimed, {}) == None <==> Range(start, end) <= claimed
    ensures |claimed| < end - start + 1 ==> LowestFree(start, end, claimed, {}).Some?
  {
    var port := LowestFree(start, end, claimed, {});
    if port.Some? {
      assert port.value in Range(start, end);
    } else {
      assert forall p | p in Range(start, end) :: !Free(p, claimed, {});
      SubsetSize(Range(start, end), claimed);
    }
  }

  class Allocator {
    const start: int
    const end: int
    const probeHost: bool
    const store: Store

    constructor (start: int, end: int, probeHost: bool, store: Store)
      ensures this.start == start && this.end == end && this.probeHost == probeHost && this.store == store
    {
      this.start, this.end, this.probeHost, this.store := start, end, probeHost, store;
    }

    /** `busy` are the ports that something on the host is already bound to. */
    method Allocate(busy: set<int>) returns (port: Option<int>)
      ensures port == LowestFree(start, end, ClaimedPorts(store.servers), if probeHost then busy else {})
    {
      var claimed := store.UsedPorts();
      ghost var held := if probeHost then busy else {};
      var p := start;
      while p <= end
        invariant start <= p
        invariant forall r | start <= r < p :: !Free(r, claimed, held)
        invariant LowestFree(start, end, claimed, held) == LowestFree(p, end, claimed, held)
        decreases end - p
      {
        if p !in claimed && !(probeHost && p in busy) {
          return Some(p);
        }
        p := p + 1;
      }
      return None;
    }
  }
}
