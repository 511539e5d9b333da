/** What discovery is meant to compute, stated on the graph alone: hop counts to the
    nearest host, and the tier-t part of a connected component of the graph cut off
    above tier t. Nothing here mentions queues, visited sets or group names. */
module TopologySpec {
  import opened Graph

  datatype DeviceType = Host | Switch

  datatype Device = Device(kind: DeviceType, tier: int)

  type Devices = map<string, Device>

  /** A discovered group of switches of one tier. */
  datatype Group = Group(name: string, tier: int, members: set<string>, lower: set<string>, upper: set<string>)

  /** Every edge joins two known devices and is recorded at both ends. */
  ghost predicate WellShaped(devices: Devices, adj: Adjacency) {
    && adj.Keys == devices.Keys
    && (forall a :: a in adj ==> adj[a] <= devices.Keys)
    && Symmetric(adj)
  }

  /** Hosts start at tier 0 and switches untiered. */
  ghost predicate Untiered(devices: Devices) {
    forall d :: d in devices ==> devices[d].tier == if devices[d].kind.Host? then 0 else -1
  }

  // ---------------------------------------------------------------- hop counts

  /** A walk of `hops` edges from `d` to some host. */
  ghost predicate HostWalk(devices: Devices, adj: Adjacency, w: seq<string>, d: string, hops: nat) {
    && Walk(adj, devices.Keys, w) && |w| == hops + 1
    && w[0] == d && devices[w[hops]].kind.Host?
  }

  ghost predicate HostWithin(devices: Devices, adj: Adjacency, d: string, hops: nat) {
    exists w :: HostWalk(devices, adj, w, d, hops)
  }

  /** `tier` is the length of a shortest walk from `d` to a host, or -1 when there is none. */
  ghost predicate IsHostDistance(devices: Devices, adj: Adjacency, d: string, tier: int) {
    if tier >= 0 then
      HostWithin(devices, adj, d, tier) && forall hops: nat :: HostWithin(devices, adj, d, hops) ==> tier <= hops
    else
      tier == -1 && forall hops: nat :: !HostWithin(devices, adj, d, hops)
  }

  /** The edge-by-edge rules a breadth-first labelling leaves behind. */
  ghost predicate LocallyTiered(devices: Devices, adj: Adjacency) {
    && (forall d :: d in devices && devices[d].kind.Host? ==> devices[d].tier == 0)
    && (forall d :: d in devices && devices[d].kind.Switch? ==> devices[d].tier == -1 || devices[d].tier >= 1)
    && (forall d, h {:trigger h in adj[d]} ::
          d in devices && d in adj && devices[d].kind.Switch? && h in adj[d] && h in devices && devices[h].kind.Host?
          ==> devices[d].tier == 1)
    && (forall d {:trigger HasLowerNeighbour(devices, adj, d)} ::
          d in devices && devices[d].kind.Switch? && devices[d].tier >= 1 ==> HasLowerNeighbour(devices, adj, d))
    && (forall d, e {:trigger e in adj[d]} :: d in devices && d in adj && e in adj[d] && e in devices &&
          devices[d].kind.Switch? && devices[e].kind.Switch? && devices[d].tier >= 1
          ==> 1 <= devices[e].tier <= devices[d].tier + 1)
  }

  ghost predicate HasLowerNeighbour(devices: Devices, adj: Adjacency, d: string)
    requires d in devices
  {
    d in adj && exists e :: e in adj[d] && e in devices && devices[e].tier == devices[d].tier - 1
  }

  lemma {:induction false} TierIsReached(devices: Devices, adj: Adjacency, d: string)
    requires WellShaped(devices, adj) && LocallyTiered(devices, adj)
    requires d in devices && devices[d].tier >= 0
    ensures HostWithin(devices, adj, d, devices[d].tier)
    decreases devices[d].tier
  {
    if devices[d].tier == 0 {
      assert HostWalk(devices, adj, [d], d, 0);
    } else {
      assert HasLowerNeighbour(devices, adj, d);
      var e :| e in adj[d] && e in devices && devices[e].tier == devices[d].tier - 1;
      TierIsReached(devices, adj, e);
      var w :| HostWalk(devices, adj, w, e, devices[e].tier);
      assert HostWalk(devices, adj, [d] + w, d, devices[d].tier);
    }
  }

  lemma {:induction false} NoShorterWalk(devices: Devices, adj: Adjacency, w: seq<string>, d: string, hops: nat)
    requires WellShaped(devices, adj) && LocallyTiered(devices, adj)
    requires d in devices && HostWalk(devices, adj, w, d, hops)
    ensures 0 <= devices[d].tier <= hops
    decreases hops
  {
    if hops > 0 && devices[d].kind.Switch? {
      var e := w[1];
      assert w[0] in adj && e in adj[w[0]];
      assert HostWalk(devices, adj, w[1..], e, hops - 1);
      NoShorterWalk(devices, adj, w[1..], e, hops - 1);
      assert d in adj[e];
    }
  }

  /** The local rules pin the labelling down: it is the hop count to the nearest host. */
  lemma LocalRulesGiveDistance(devices: Devices, adj: Adjacency, d: string)
    requires WellShaped(devices, adj) && LocallyTiered(devices, adj)
    requires d in devices
    ensures IsHostDistance(devices, adj, d, devices[d].tier)
  {
    forall hops: nat | HostWithin(devices, adj, d, hops)
      ensures 0 <= devices[d].tier <= hops
    {
      var w :| HostWalk(devices, adj, w, d, hops);
      NoShorterWalk(devices, adj, w, d, hops);
    }
    if devices[d].tier >= 0 {
      TierIsReached(devices, adj, d);
    }
  }

  // ------------------------------------------------------------ layered graphs

  /** After normalisation: edges join adjacent tiers only, and every tiered switch keeps
      a neighbour one tier below. */
  ghost predicate Layered(devices: Devices, adj: Adjacency) {
    && WellShaped(devices, adj)
    && (forall d :: d in devices ==> devices[d].tier >= -1 && (devices[d].kind.Host? <==> devices[d].tier == 0))
    && (forall a, b {:trigger b in adj[a]} :: a in adj && b in adj[a] ==>
          devices[a].tier >= 0 && devices[b].tier >= 0 &&
          (devices[b].tier == devices[a].tier + 1 || devices[b].tier == devices[a].tier - 1))
    && (forall d {:trigger HasLowerNeighbour(devices, adj, d)} ::
          d in devices && devices[d].tier >= 1 ==> HasLowerNeighbour(devices, adj, d))
  }

  /** The devices of tiers 0 to `tier`. */
  ghost function UpTo(devices: Devices, tier: int): set<string> {
    set d | d in devices && 0 <= devices[d].tier <= tier
  }

  /** Connected in the graph cut off above `tier`. */
  ghost predicate LinkedUpTo(devices: Devices, adj: Adjacency, tier: int, a: string, b: string) {
    Linked(adj, UpTo(devices, tier), a, b)
  }

  /** The tier-`tier` part of `d`'s component in the graph cut off above `tier`. */
  ghost function ComponentAt(devices: Devices, adj: Adjacency, tier: int, d: string): set<string> {
    set b | b in devices && devices[b].tier == tier && LinkedUpTo(devices, adj, tier, d, b)
  }

  /** The hosts of that same component. */
  ghost function HostsAt(devices: Devices, adj: Adjacency, tier: int, d: string): set<string> {
    set h | h in devices && devices[h].kind.Host? && LinkedUpTo(devices, adj, tier, d, h)
  }

  lemma LinkedUpToSelf(devices: Devices, adj: Adjacency, tier: int, d: string)
    requires d in devices && 0 <= devices[d].tier <= tier
    ensures LinkedUpTo(devices, adj, tier, d, d)
  {
    LinkedSelf(adj, UpTo(devices, tier), d);
  }

  lemma LinkedUpToSym(devices: Devices, adj: Adjacency, tier: int, a: string, b: string)
    requires Symmetric(adj) && LinkedUpTo(devices, adj, tier, a, b)
    ensures LinkedUpTo(devices, adj, tier, b, a)
  {
    LinkedSym(adj, UpTo(devices, tier), a, b);
  }

  lemma LinkedUpToTrans(devices: Devices, adj: Adjacency, tier: int, a: string, b: string, c: string)
    requires LinkedUpTo(devices, adj, tier, a, b) && LinkedUpTo(devices, adj, tier, b, c)
    ensures LinkedUpTo(devices, adj, tier, a, c)
  {
    LinkedTrans(adj, UpTo(devices, tier), a, b, c);
  }

  lemma LinkedUpToEdge(devices: Devices, adj: Adjacency, tier: int, a: string, b: string)
    requires Layered(devices, adj) && a in adj && b in adj[a]
    requires devices[a].tier <= tier && devices[b].tier <= tier
    ensures LinkedUpTo(devices, adj, tier, a, b)
  {
    LinkedEdge(adj, UpTo(devices, tier), a, b);
  }

  lemma LinkedUpToWiden(devices: Devices, adj: Adjacency, tier: int, higher: int, a: string, b: string)
    requires tier <= higher && LinkedUpTo(devices, adj, tier, a, b)
    ensures LinkedUpTo(devices, adj, higher, a, b)
  {
    LinkedWiden(adj, UpTo(devices, tier), UpTo(devices, higher), a, b);
  }

  /** Linked devices have the same component and the same hosts. */
  lemma ComponentShared(devices: Devices, adj: Adjacency, tier: int, a: string, b: string)
    requires Symmetric(adj) && LinkedUpTo(devices, adj, tier, a, b)
    ensures ComponentAt(devices, adj, tier, a) == ComponentAt(devices, adj, tier, b)
    ensures HostsAt(devices, adj, tier, a) == HostsAt(devices, adj, tier, b)
  {
    LinkedUpToSym(devices, adj, tier, a, b);
    forall x
      ensures LinkedUpTo(devices, adj, tier, a, x) <==> LinkedUpTo(devices, adj, tier, b, x)
    {
      if LinkedUpTo(devices, adj, tier, a, x) { LinkedUpToTrans(devices, adj, tier, b, a, x); }
      if LinkedUpTo(devices, adj, tier, b, x) { LinkedUpToTrans(devices, adj, tier, a, b, x); }
    }
  }

  /** Hosts have no edges among themselves, so tier 0 is all singletons. */
  lemma HostsLinkOnlyToThemselves(devices: Devices, adj: Adjacency, a: string, b: string)
    requires Layered(devices, adj) && LinkedUpTo(devices, adj, 0, a, b)
    ensures a == b
  {
    LinkedEnds(adj, UpTo(devices, 0), a, b);
    LinkedStaysInside(adj, UpTo(devices, 0), {a}, a, b);
  }

  // ---------------------------------------------------------- the layered merge

  /** The heart of the layer-by-layer merge. `part` is a set of tier-`tier` devices that
      holds `a` and that is closed under "shares a lower component": then it already
      holds every tier-`tier` device connected to `a` in the graph cut off above `tier`. */
  lemma MergeReachesComponent(devices: Devices, adj: Adjacency, tier: int, part: set<string>, a: string, b: string)
    requires Layered(devices, adj) && tier >= 1
    requires a in devices && devices[a].tier == tier && a in part
    requires b in devices && devices[b].tier == tier && LinkedUpTo(devices, adj, tier, a, b)
    requires forall p :: p in part ==> p in devices && devices[p].tier == tier
    requires ClosedAbove(devices, adj, tier, part)
    ensures b in part
  {
    var below := set c | c in UpTo(devices, tier - 1) && HangsBelow(devices, adj, tier, part, c);
    var closed := part + below;
    forall x, y | x in closed && x in adj && y in adj[x] && y in UpTo(devices, tier)
      ensures y in closed
    {
      MergeStep(devices, adj, tier, part, x, y);
    }
    LinkedStaysInside(adj, UpTo(devices, tier), closed, a, b);
  }

  /** One edge of that argument: from `part`, or from below it, no edge leads outside. */
  lemma MergeStep(devices: Devices, adj: Adjacency, tier: int, part: set<string>, x: string, y: string)
    requires Layered(devices, adj) && tier >= 1
    requires forall p :: p in part ==> p in devices && devices[p].tier == tier
    requires ClosedAbove(devices, adj, tier, part)
    requires x in adj && y in adj[x] && devices[y].tier <= tier
    requires x in part || (devices[x].tier < tier && HangsBelow(devices, adj, tier, part, x))
    ensures y in part || (devices[y].tier < tier && HangsBelow(devices, adj, tier, part, y))
  {
    if x in part {
      LinkedUpToSelf(devices, adj, tier - 1, y);
      assert HangsBelow(devices, adj, tier, part, y);
    } else {
      var p, u :| p in part && u in adj[p] && LinkedUpTo(devices, adj, tier - 1, u, x);
      if devices[y].tier == tier {
        assert x in adj[y];
        assert y in part;
      } else {
        MergeBelow(devices, adj, tier, part, p, u, x, y);
      }
    }
  }

  lemma MergeBelow(devices: Devices, adj: Adjacency, tier: int, part: set<string>, p: string, u: string, x: string,
                   y: string)
    requires adj.Keys == devices.Keys && part <= devices.Keys
    requires p in part && u in adj[p] && LinkedUpTo(devices, adj, tier - 1, u, x)
    requires x in adj && y in adj[x] && y in devices && 0 <= devices[y].tier < tier
    ensures HangsBelow(devices, adj, tier, part, y)
  {
    LinkedExtend(adj, UpTo(devices, tier - 1), u, x, y);
    assert LinkedUpTo(devices, adj, tier - 1, u, y);
  }

  /** Every tier-`tier` switch over a lower component that `part` touches is in `part`. */
  ghost predicate ClosedAbove(devices: Devices, adj: Adjacency, tier: int, part: set<string>)
    requires adj.Keys == devices.Keys && part <= devices.Keys
  {
    forall p, x, y, q ::
      (p in part && x in adj[p] && LinkedUpTo(devices, adj, tier - 1, x, y) &&
       q in devices && devices[q].tier == tier && y in adj[q])
      ==> q in part
  }

  ghost predicate HangsBelow(devices: Devices, adj: Adjacency, tier: int, part: set<string>, c: string)
    requires forall p :: p in part ==> p in adj
  {
    exists p, u :: p in part && u in adj[p] && LinkedUpTo(devices, adj, tier - 1, u, c)
  }

  /** Two switches over one lower component belong to one component one tier up. */
  lemma SharedLowerLinks(devices: Devices, adj: Adjacency, tier: int, p: string, x: string, y: string, q: string)
    requires Layered(devices, adj)
    requires p in devices && q in devices && devices[p].tier == tier && devices[q].tier == tier
    requires x in adj[p] && y in adj[q] && LinkedUpTo(devices, adj, tier - 1, x, y)
    ensures LinkedUpTo(devices, adj, tier, p, q)
  {
    LinkedEnds(adj, UpTo(devices, tier - 1), x, y);
    LinkedUpToEdge(devices, adj, tier, p, x);
    LinkedUpToWiden(devices, adj, tier - 1, tier, x, y);
    LinkedUpToEdge(devices, adj, tier, y, q);
    LinkedUpToTrans(devices, adj, tier, p, x, y);
    LinkedUpToTrans(devices, adj, tier, p, y, q);
  }
}
