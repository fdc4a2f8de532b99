/** Packet filters: how a packet from the stream finds its stage. */
module Filters {
  import opened Basics

  /** A packet from the host, as far as the multiplexer looks at it. */
  datatype Packet = Packet(buildId: string, kind: Kind, payload: seq<byte>)

  datatype Kind = ImageTransfer(id: string) | BuildTransfer(id: string) | Command(id: string)

  datatype Verdict = Accept | Ignore | Refuse(message: string)

  type Filter = Packet -> Verdict

  /** The first verdict of a chain that is not an acceptance. */
  method RunChain(filters: seq<Filter>, p: Packet) returns (v: Verdict)
    ensures v == Accept <==> forall i | 0 <= i < |filters| :: filters[i](p) == Accept
    ensures v != Accept ==> exists i | 0 <= i < |filters| ::
          filters[i](p) == v && forall j | 0 <= j < i :: filters[j](p) == Accept
  {
    v := Accept;
    for n := 0 to |filters|
      invariant forall i | 0 <= i < n :: filters[i](p) == Accept
    {
      if filters[n](p) != Accept {
        return filters[n](p);
      }
    }
  }

  /** Stage `i` is the first whose filter accepts the packet. */
  ghost predicate FirstAccepts(stages: seq<Filter>, p: Packet, i: nat) {
    && i < |stages| && stages[i](p) == Accept
    && forall j | 0 <= j < i :: stages[j](p) != Accept
  }

  ghost function Route(stages: seq<Filter>, p: Packet): (r: Option<nat>)
    ensures r.Some? ==> FirstAccepts(stages, p, r.value)
    ensures r.None? <==> forall i | 0 <= i < |stages| :: stages[i](p) != Accept
  {
    RouteFrom(stages, p, 0)
  }

  ghost function RouteFrom(stages: seq<Filter>, p: Packet, n: nat): (r: Option<nat>)
    requires n <= |stages| && forall j | 0 <= j < n :: stages[j](p) != Accept
    ensures r.Some? ==> FirstAccepts(stages, p, r.value)
    ensures r.None? <==> forall i | 0 <= i < |stages| :: stages[i](p) != Accept
    decreases |stages| - n
  {
    if n == |stages| then None
    else if stages[n](p) == Accept then Some(n)
    else RouteFrom(stages, p, n + 1)
  }

  /** The dispatch loop: a filter that refuses is passed over like one that ignores. */
  method Dispatch(stages: seq<Filter>, p: Packet) returns (r: Option<nat>)
    ensures r == Route(stages, p)
  {
    r := None;
    for n := 0 to |stages|
      invariant forall j | 0 <= j < n :: stages[j](p) != Accept
    {
      if stages[n](p) == Accept {
        return Some(n);
      }
    }
  }
}
