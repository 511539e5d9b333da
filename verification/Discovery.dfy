/** Topology discovery: the undirected LLDP graph, the breadth-first tier assignment, the
    removal of edges that do not join adjacent tiers, and the zones they leave.
    Iteration over a Go map or over a freshly sorted list is an arbitrary pick here, so
    every result holds for every order. */
module Discovery {
  import opened Graph
  import opened TopologySpec

  /** One LLDP report: the switch that saw it (possibly left blank) and the remote system. */
  datatype Neighbor = Neighbor(localDevice: string, remoteSystem: string)

  datatype SwitchReport = SwitchReport(name: string, neighbors: seq<Neighbor>)

  function SwitchNames(switches: seq<SwitchReport>): set<string> {
    set i | 0 <= i < |switches| :: switches[i].name
  }

  /** A report is used when it is about the reporting switch and names a known device. */
  predicate Usable(devices: Devices, sw: SwitchReport, n: Neighbor) {
    && (n.localDevice == "" || n.localDevice == sw.name)
    && n.remoteSystem != "" && n.remoteSystem in devices
  }

  /** The directed links that the first `k` reports of `sw` claim. */
  ghost function LinksOf(devices: Devices, sw: SwitchReport, k: nat): set<(string, string)>
    requires k <= |sw.neighbors|
  {
    set j | 0 <= j < k && Usable(devices, sw, sw.neighbors[j]) :: (sw.name, sw.neighbors[j].remoteSystem)
  }

  /** The directed links that the first `k` switches claim. */
  ghost function Links(devices: Devices, switches: seq<SwitchReport>, k: nat): set<(string, string)>
    requires k <= |switches|
  {
    if k == 0 then {}
      else Links(devices, switches, k - 1) + LinksOf(devices, switches[k - 1], |switches[k - 1].neighbors|)
  }

  /** A link joins its two ends in both directions. */
  ghost function Undirected(names: set<string>, links: set<(string, string)>): Adjacency {
    map a | a in names :: set b | b in names && ((a, b) in links || (b, a) in links)
  }

  lemma UndirectedIsWellShaped(devices: Devices, links: set<(string, string)>)
    ensures WellShaped(devices, Undirected(devices.Keys, links))
  {
  }

  lemma UndirectedGrows(names: set<string>, links: set<(string, string)>, a: string, b: string)
    requires a in names && b in names
    ensures var adj := Undirected(names, links);
      var once := adj[a := adj[a] + {b}];
      once[b := once[b] + {a}] == Undirected(names, links + {(a, b)})
  {
    var adj := Undirected(names, links);
    var once := adj[a := adj[a] + {b}];
    var twice := once[b := once[b] + {a}];
    var grown := Undirected(names, links + {(a, b)});
    assert twice.Keys == grown.Keys;
    forall x | x in names
      ensures twice[x] == grown[x]
    {
      assert forall y :: y in twice[x] <==> y in grown[x];
    }
  }

  ghost predicate SameDevices(before: Devices, after: Devices) {
    && after.Keys == before.Keys
    && forall d :: d in before ==> after[d].kind == before[d].kind
  }

  // ------------------------------------------------------- breadth-first states

  /** What the tiers assigned so far satisfy, whatever is still queued. */
  ghost predicate PartlyTiered(devices: Devices, adj: Adjacency) {
    && (forall d :: d in devices && devices[d].kind.Host? ==> devices[d].tier == 0)
    && (forall d :: d in devices && devices[d].kind.Switch? ==> devices[d].tier == -1 || devices[d].tier >= 1)
    && (forall d, h {:trigger h in adj[d]} ::
          d in devices && d in adj && devices[d].kind.Switch? && h in adj[d] && h in devices && devices[h].kind.Host?
          ==> devices[d].tier == 1)
    && (forall d {:trigger HasLowerNeighbour(devices, adj, d)} ::
          d in devices && devices[d].kind.Switch? && devices[d].tier >= 1 ==> HasLowerNeighbour(devices, adj, d))
  }

  /** The switches around `d` are tiered, at most one tier above it. */
  ghost predicate Settled(devices: Devices, adj: Adjacency, d: string)
    requires d in devices
  {
    d in adj && forall e :: e in adj[d] && e in devices && devices[e].kind.Switch? ==>
      1 <= devices[e].tier <= devices[d].tier + 1
  }

  /** The queue holds tiered switches in tier order, and nothing is more than one tier above its head. */
  ghost predicate Frontier(devices: Devices, queue: seq<string>) {
    && (forall i :: 0 <= i < |queue| ==>
          queue[i] in devices && devices[queue[i]].kind.Switch? && devices[queue[i]].tier >= 1)
    && (forall i, j :: 0 <= i < j < |queue| ==> devices[queue[i]].tier <= devices[queue[j]].tier)
    && (forall d :: d in devices && |queue| > 0 ==> devices[d].tier <= devices[queue[0]].tier + 1)
  }

  ghost function Unreached(devices: Devices): set<string> {
    set d | d in devices && devices[d].tier == -1
  }

  class TopologyGraph {
    var devices: Devices
    var adj: Adjacency

    /** BuildTopologyGraph: hosts, then switches (a switch wins a shared name), then one
        undirected edge per usable report. */
    constructor (hosts: set<string>, switches: seq<SwitchReport>)
      ensures devices.Keys == hosts + SwitchNames(switches)
      ensures forall d :: d in devices ==> (devices[d].kind.Switch? <==> d in SwitchNames(switches))
      ensures WellShaped(devices, adj) && Untiered(devices)
      ensures adj == Undirected(devices.Keys, Links(devices, switches, |switches|))
    {
      var names := SwitchNames(switches);
      devices := map d | d in hosts + names :: if d in names then Device(Switch, -1) else Device(Host, 0);
      adj := map d | d in hosts + names :: {};
      new;
      ghost var ds := devices;
      assert adj == Undirected(devices.Keys, {}) by {
        assert forall d :: d in adj ==> adj[d] == Undirected(devices.Keys, {})[d];
      }
      for i := 0 to |switches|
        invariant devices == ds
        invariant adj == Undirected(devices.Keys, Links(devices, switches, i))
      {
        AddReports(switches[i], Links(devices, switches, i));
      }
      UndirectedIsWellShaped(devices, Links(devices, switches, |switches|));
    }

    method AddReports(sw: SwitchReport, ghost links: set<(string, string)>)
      requires sw.name in devices && adj == Undirected(devices.Keys, links)
      modifies this`adj
      ensures adj == Undirected(devices.Keys, links + LinksOf(devices, sw, |sw.neighbors|))
    {
      assert links + LinksOf(devices, sw, 0) == links;
      for j := 0 to |sw.neighbors|
        invariant adj == Undirected(devices.Keys, links + LinksOf(devices, sw, j))
      {
        var n := sw.neighbors[j];
        if Usable(devices, sw, n) {
          AddUndirectedEdge(sw.name, n.remoteSystem, links + LinksOf(devices, sw, j));
          assert LinksOf(devices, sw, j + 1) == LinksOf(devices, sw, j) + {(sw.name, n.remoteSystem)};
          assert links + LinksOf(devices, sw, j + 1) == links + LinksOf(devices, sw, j) + {(sw.name, n.remoteSystem)};
        } else {
          assert LinksOf(devices, sw, j + 1) == LinksOf(devices, sw, j);
        }
      }
    }

    method AddUndirectedEdge(a: string, b: string, ghost links: set<(string, string)>)
      requires a in devices && b in devices && adj == Undirected(devices.Keys, links)
      modifies this`adj
      ensures adj == Undirected(devices.Keys, links + {(a, b)})
    {
      UndirectedGrows(devices.Keys, links, a, b);
      adj := adj[a := adj[a] + {b}];
      adj := adj[b := adj[b] + {a}];
    }

    /** InferTiers: switches next to a host get tier 1, then the tiers spread outwards. */
    method InferTiers()
      requires WellShaped(devices, adj) && Untiered(devices)
      modifies this`devices
      ensures SameDevices(old(devices), devices) && LocallyTiered(devices, adj)
      ensures forall d :: d in devices ==> IsHostDistance(devices, adj, d, devices[d].tier)
    {
      var queue := TierEdgeSwitches();
      while |queue| > 0
        invariant SameDevices(old(devices), devices)
        invariant Spreading(devices, adj, queue)
        decreases Unreached(devices), |queue|
      {
        queue := TierNeighbours(queue);
      }
      SpreadingDone(devices, adj);
    }

    /** One turn of the search: tier and queue the untiered switches next to the head, then drop the head. */
    method TierNeighbours(work: seq<string>) returns (queue: seq<string>)
      requires WellShaped(devices, adj) && Spreading(devices, adj, work) && |work| > 0
      modifies this`devices
      ensures SameDevices(old(devices), devices) && Spreading(devices, adj, queue)
      ensures Unreached(devices) < old(Unreached(devices))
        || (Unreached(devices) == old(Unreached(devices)) && |queue| < |work|)
    {
      var current := work[0];
      queue := work;
      var todo := adj[current];
      while todo != {}
        invariant todo <= adj[current] && SameDevices(old(devices), devices)
        invariant |queue| > 0 && queue[0] == current && Spreading(devices, adj, queue)
        invariant forall e :: e in adj[current] && e !in todo && devices[e].kind.Switch? ==> devices[e].tier >= 1
        invariant Unreached(devices) < old(Unreached(devices))
          || (Unreached(devices) == old(Unreached(devices)) && queue == work)
      {
        var neighbour :| neighbour in todo;
        todo := todo - {neighbour};
        queue := TierNeighbour(neighbour, queue);
      }
      SpreadingPop(devices, adj, queue);
      queue := queue[1..];
    }

    method TierNeighbour(neighbour: string, work: seq<string>) returns (queue: seq<string>)
      requires WellShaped(devices, adj) && Spreading(devices, adj, work)
      requires |work| > 0 && neighbour in adj[work[0]]
      modifies this`devices
      ensures SameDevices(old(devices), devices) && Spreading(devices, adj, queue)
      ensures |queue| > 0 && queue[0] == work[0]
      ensures devices[neighbour].kind.Switch? ==> devices[neighbour].tier >= 1
      ensures forall d :: d in devices && d != neighbour ==> devices[d] == old(devices)[d]
      ensures Unreached(devices) < old(Unreached(devices)) || (devices == old(devices) && queue == work)
    {
      queue := work;
      if devices[neighbour].kind.Switch? && devices[neighbour].tier == -1 {
        TierOne(devices, adj, queue, neighbour);
        assert neighbour in Unreached(devices);
        devices := devices[neighbour := Device(Switch, devices[work[0]].tier + 1)];
        queue := queue + [neighbour];
      }
    }

    /** NormalizeTierEdges: rebuild the edges, keeping those between adjacent tiers. */
    method NormalizeTierEdges()
      requires WellShaped(devices, adj)
      modifies this`adj
      ensures adj == AdjacentTierEdges(devices, old(adj))
    {
      var newAdj: Adjacency := map d | d in devices :: {};
      assert KeptFrom(devices, adj, devices.Keys - devices.Keys) == {};
      assert newAdj == Undirected(devices.Keys, {}) by {
        assert forall d :: d in newAdj ==> newAdj[d] == Undirected(devices.Keys, {})[d];
      }
      var todo := devices.Keys;
      while todo != {}
        invariant adj == old(adj) && todo <= devices.Keys
        invariant newAdj == Undirected(devices.Keys, KeptFrom(devices, adj, devices.Keys - todo))
      {
        var a :| a in todo;
        newAdj := KeepEdgesOf(a, newAdj, KeptFrom(devices, adj, devices.Keys - todo));
        assert KeptFrom(devices, adj, devices.Keys - todo) + KeptFrom(devices, adj, {a}) ==
          KeptFrom(devices, adj, devices.Keys - (todo - {a}));
        todo := todo - {a};
      }
      assert devices.Keys - todo == devices.Keys;
      KeptFromAll(devices, adj);
      adj := newAdj;
    }

    method KeepEdgesOf(a: string, work: Adjacency, ghost links: set<(string, string)>) returns (newAdj: Adjacency)
      requires WellShaped(devices, adj) && a in devices
      requires work == Undirected(devices.Keys, links)
      ensures newAdj == Undirected(devices.Keys, links + KeptFrom(devices, adj, {a}))
    {
      newAdj := work;
      ghost var kept: set<(string, string)> := {};
      assert links + kept == links;
      var todo := adj[a];
      while todo != {}
        invariant todo <= adj[a]
        invariant newAdj == Undirected(devices.Keys, links + kept)
        invariant kept == set b | b in adj[a] && b !in todo && AdjacentTiers(devices, a, b) :: (a, b)
      {
        var b :| b in todo;
        todo := todo - {b};
        if AdjacentTiers(devices, a, b) {
          UndirectedGrows(devices.Keys, links + kept, a, b);
          newAdj := newAdj[a := newAdj[a] + {b}];
          newAdj := newAdj[b := newAdj[b] + {a}];
          assert links + kept + {(a, b)} == links + (kept + {(a, b)});
          kept := kept + {(a, b)};
        }
      }
      assert kept == KeptFrom(devices, adj, {a});
    }

    /** CollectConnectedZones: one component per host that no earlier zone covers. */
    method CollectConnectedZones() returns (zones: seq<set<string>>)
      requires Layered(devices, adj)
      ensures forall i, j :: 0 <= i < j < |zones| ==> zones[i] !! zones[j]
      ensures forall i {:trigger IsHostZone(devices, adj, zones[i])} :: 0 <= i < |zones| ==>
        IsHostZone(devices, adj, zones[i])
      ensures forall h {:trigger ZoneOf(devices, adj, h)} :: h in devices && devices[h].kind.Host? ==>
        ZoneOf(devices, adj, h) in zones
    {
      zones := [];
      var visited: set<string> := {};
      var starts := set h | h in devices && devices[h].kind.Host?;
      while starts != {}
        invariant starts <= devices.Keys
        invariant ZonesSoFar(devices, adj, zones, visited)
        invariant forall h :: h in devices && devices[h].kind.Host? && h !in starts ==> h in visited
      {
        var start :| start in starts;
        starts := starts - {start};
        if start !in visited {
          var zone;
          zone, visited := CollectZone(start, visited, zones);
          zones := zones + [zone];
        }
      }
      ZonesDone(devices, adj, zones, visited);
    }

    /** collectZoneDeviceNames: breadth-first from `start` over what is not yet visited. */
    method CollectZone(start: string, seen: set<string>, ghost zones: seq<set<string>>)
      returns (zone: set<string>, visited: set<string>)
      requires Layered(devices, adj)
      requires start in devices && devices[start].kind.Host? && start !in seen
      requires ZonesSoFar(devices, adj, zones, seen)
      ensures zone == ZoneOf(devices, adj, start) && start in zone && visited == seen + zone
      ensures ZonesSoFar(devices, adj, zones + [zone], visited)
    {
      var queue := [start];
      visited := seen;
      zone := {};
      LinkedSelf(adj, devices.Keys, start);
      while |queue| > 0
        invariant visited == seen + zone && zone !! seen && visited <= devices.Keys
        invariant start in zone || start in queue
        invariant forall d :: d in zone || d in queue ==> Linked(adj, devices.Keys, start, d)
        invariant forall d, e {:trigger e in adj[d]} :: d in zone && e in adj[d] ==> e in visited || e in queue
        decreases devices.Keys - visited, |queue|
      {
        var current := queue[0];
        queue := queue[1..];
        if current !in visited {
          ghost var before := visited;
          visited := visited + {current};
          zone := zone + {current};
          assert devices.Keys - visited < devices.Keys - before by { assert current in devices.Keys - before; }
          queue := EnqueueAll(queue, adj[current] - visited);
          forall d | d in adj[current]
            ensures Linked(adj, devices.Keys, start, d)
          {
            LinkedExtend(adj, devices.Keys, start, current, d);
          }
        }
      }
      ZoneFilled(devices, adj, zones, seen, zone, start);
    }

    /** The first loop of InferTiers. */
    method TierEdgeSwitches() returns (queue: seq<string>)
      requires WellShaped(devices, adj) && Untiered(devices)
      modifies this`devices
      ensures SameDevices(old(devices), devices)
      ensures Spreading(devices, adj, queue)
    {
      queue := [];
      var todo := devices.Keys;
      while todo != {}
        invariant SameDevices(old(devices), devices) && EdgePass(devices, adj, todo, queue)
      {
        var name :| name in todo;
        todo := todo - {name};
        if devices[name].kind.Switch? && HasHostNeighbour(devices, adj, name) {
          devices := devices[name := devices[name].(tier := 1)];
          queue := queue + [name];
        }
      }
      EdgePassDone(devices, adj, queue);
    }
  }

  /** Both ends are tiered and their tiers differ by exactly one. */
  predicate AdjacentTiers(devices: Devices, a: string, b: string)
    requires a in devices && b in devices
  {
    devices[a].tier >= 0 && devices[b].tier >= 0 && Abs(devices[a].tier - devices[b].tier) == 1
  }

  function Abs(x: int): int {
    if x < 0 then -x else x
  }

  /** The edges that join adjacent tiers. */
  ghost function AdjacentTierEdges(devices: Devices, adj: Adjacency): Adjacency
    requires WellShaped(devices, adj)
  {
    map a | a in devices :: set b | b in adj[a] && AdjacentTiers(devices, a, b)
  }

  /** The directed edges out of `from` that join adjacent tiers. */
  ghost function KeptFrom(devices: Devices, adj: Adjacency, from: set<string>): set<(string, string)>
    requires WellShaped(devices, adj) && from <= devices.Keys
  {
    set a, b | a in from && b in adj[a] && AdjacentTiers(devices, a, b) :: (a, b)
  }

  lemma KeptFromAll(devices: Devices, adj: Adjacency)
    requires WellShaped(devices, adj)
    ensures Undirected(devices.Keys, KeptFrom(devices, adj, devices.Keys)) == AdjacentTierEdges(devices, adj)
  {
    var u, k := Undirected(devices.Keys, KeptFrom(devices, adj, devices.Keys)), AdjacentTierEdges(devices, adj);
    forall a | a in devices
      ensures u[a] == k[a]
    {
      assert forall b :: b in u[a] <==> b in k[a];
    }
  }

  /** Normalisation removes exactly the edges between equal tiers or untiered devices, and
      it leaves every tiered switch a neighbour one tier below. */
  lemma NormalizedEdges(devices: Devices, adj: Adjacency)
    requires WellShaped(devices, adj) && LocallyTiered(devices, adj)
    ensures Layered(devices, AdjacentTierEdges(devices, adj))
    ensures forall a, b {:trigger b in adj[a]} :: a in adj && b in adj[a] ==>
      (b !in AdjacentTierEdges(devices, adj)[a] <==>
        devices[a].tier == devices[b].tier || devices[a].tier < 0 || devices[b].tier < 0)
  {
    var kept := AdjacentTierEdges(devices, adj);
    forall a, b | a in adj && b in adj[a]
      ensures a in adj[b]
      ensures b in kept[a] <==> a in kept[b]
      ensures b !in kept[a] <==> devices[a].tier == devices[b].tier || devices[a].tier < 0 || devices[b].tier < 0
    {
      assert a in adj[b];
    }
    assert WellShaped(devices, kept);
    forall d | d in devices && devices[d].tier >= 1
      ensures HasLowerNeighbour(devices, kept, d)
    {
      assert HasLowerNeighbour(devices, adj, d);
      var e :| e in adj[d] && e in devices && devices[e].tier == devices[d].tier - 1;
      assert e in kept[d];
    }
  }

  /** Everything connected to `d`. */
  ghost function ZoneOf(devices: Devices, adj: Adjacency, d: string): set<string> {
    set e | e in devices && Linked(adj, devices.Keys, d, e)
  }

  /** The zones collected so far are disjoint components of hosts and make up `visited`. */
  ghost predicate ZonesSoFar(devices: Devices, adj: Adjacency, zones: seq<set<string>>, visited: set<string>) {
    && visited <= devices.Keys
    && (forall d, e {:trigger e in adj[d]} :: d in visited && d in adj && e in adj[d] ==> e in visited)
    && (forall i, j :: 0 <= i < j < |zones| ==> zones[i] !! zones[j])
    && (forall i :: 0 <= i < |zones| ==> zones[i] <= visited)
    && (forall i {:trigger IsHostZone(devices, adj, zones[i])} :: 0 <= i < |zones| ==>
          IsHostZone(devices, adj, zones[i]))
    && (forall d {:trigger InSomeZone(zones, d)} :: d in visited ==> InSomeZone(zones, d))
  }

  ghost predicate InSomeZone(zones: seq<set<string>>, d: string) {
    exists i :: 0 <= i < |zones| && d in zones[i]
  }

  ghost predicate IsHostZone(devices: Devices, adj: Adjacency, z: set<string>) {
    exists h :: h in devices && devices[h].kind.Host? && z == ZoneOf(devices, adj, h)
  }

  lemma ZoneFilled(devices: Devices, adj: Adjacency, zones: seq<set<string>>, seen: set<string>, zone: set<string>,
                   start: string)
    requires Layered(devices, adj) && ZonesSoFar(devices, adj, zones, seen)
    requires start in zone && devices.Keys >= zone && zone !! seen && devices[start].kind.Host?
    requires forall d :: d in zone ==> Linked(adj, devices.Keys, start, d)
    requires forall d, e {:trigger e in adj[d]} :: d in zone && e in adj[d] ==> e in seen + zone
    ensures zone == ZoneOf(devices, adj, start)
    ensures ZonesSoFar(devices, adj, zones + [zone], seen + zone)
  {
    forall d, e | d in zone && e in adj[d]
      ensures e in zone
    {
      assert d in adj[e];
    }
    forall e | e in ZoneOf(devices, adj, start)
      ensures e in zone
    {
      LinkedStaysInside(adj, devices.Keys, zone, start, e);
    }
    assert IsHostZone(devices, adj, zone);
    var more := zones + [zone];
    forall d | d in seen + zone
      ensures InSomeZone(more, d)
    {
      if d in seen {
        assert InSomeZone(zones, d);
        var i :| 0 <= i < |zones| && d in zones[i];
        assert d in more[i];
      } else {
        assert d in more[|zones|];
      }
    }
  }

  lemma SameZone(devices: Devices, adj: Adjacency, a: string, b: string)
    requires WellShaped(devices, adj) && Linked(adj, devices.Keys, a, b)
    ensures ZoneOf(devices, adj, a) == ZoneOf(devices, adj, b)
  {
    LinkedSym(adj, devices.Keys, a, b);
    forall x
      ensures Linked(adj, devices.Keys, a, x) <==> Linked(adj, devices.Keys, b, x)
    {
      if Linked(adj, devices.Keys, a, x) { LinkedTrans(adj, devices.Keys, b, a, x); }
      if Linked(adj, devices.Keys, b, x) { LinkedTrans(adj, devices.Keys, a, b, x); }
    }
  }

  lemma ZonesDone(devices: Devices, adj: Adjacency, zones: seq<set<string>>, visited: set<string>)
    requires Layered(devices, adj) && ZonesSoFar(devices, adj, zones, visited)
    requires forall h :: h in devices && devices[h].kind.Host? ==> h in visited
    ensures forall i {:trigger IsHostZone(devices, adj, zones[i])} :: 0 <= i < |zones| ==>
      IsHostZone(devices, adj, zones[i])
    ensures forall h {:trigger ZoneOf(devices, adj, h)} :: h in devices && devices[h].kind.Host? ==>
      ZoneOf(devices, adj, h) in zones
  {
    forall h | h in devices && devices[h].kind.Host?
      ensures ZoneOf(devices, adj, h) in zones
    {
      assert InSomeZone(zones, h);
      var i :| 0 <= i < |zones| && h in zones[i];
      assert IsHostZone(devices, adj, zones[i]);
      var g :| g in devices && devices[g].kind.Host? && zones[i] == ZoneOf(devices, adj, g);
      SameZone(devices, adj, g, h);
    }
  }

  lemma {:induction false} TieredReachesHost(devices: Devices, adj: Adjacency, tier: int, d: string) returns (h: string)
    requires Layered(devices, adj)
    requires d in devices && 0 <= devices[d].tier <= tier
    ensures h in devices && devices[h].kind.Host? && LinkedUpTo(devices, adj, tier, d, h)
    decreases devices[d].tier
  {
    if devices[d].tier == 0 {
      h := d;
      LinkedUpToSelf(devices, adj, tier, d);
    } else {
      assert HasLowerNeighbour(devices, adj, d);
      var e :| e in adj[d] && e in devices && devices[e].tier == devices[d].tier - 1;
      h := TieredReachesHost(devices, adj, tier, e);
      LinkedUpToEdge(devices, adj, tier, d, e);
      LinkedUpToTrans(devices, adj, tier, d, e, h);
    }
  }

  /** The host zones cover exactly the tiered devices. */
  lemma ZonesCoverTiered(devices: Devices, adj: Adjacency, d: string)
    requires Layered(devices, adj) && d in devices
    ensures devices[d].tier >= 0 <==> exists h :: h in devices && devices[h].kind.Host? && d in ZoneOf(devices, adj, h)
  {
    if devices[d].tier >= 0 {
      var h := TieredReachesHost(devices, adj, devices[d].tier, d);
      LinkedUpToSym(devices, adj, devices[d].tier, d, h);
      LinkedWiden(adj, UpTo(devices, devices[d].tier), devices.Keys, h, d);
    }
    forall h | h in devices && devices[h].kind.Host? && d in ZoneOf(devices, adj, h)
      ensures devices[d].tier >= 0
    {
      LinkedStaysInside(adj, devices.Keys, (set e | e in devices && devices[e].tier >= 0), h, d);
    }
  }

  method EnqueueAll(queue: seq<string>, more: set<string>) returns (longer: seq<string>)
    ensures forall d :: d in longer <==> d in queue || d in more
  {
    longer := queue;
    var todo := more;
    while todo != {}
      invariant todo <= more
      invariant forall d :: d in longer <==> d in queue || d in more - todo
    {
      var d :| d in todo;
      todo := todo - {d};
      longer := longer + [d];
    }
  }

  /** The first loop of InferTiers with `todo` still to be visited. */
  ghost predicate EdgePass(devices: Devices, adj: Adjacency, todo: set<string>, queue: seq<string>) {
    && todo <= devices.Keys
    && (forall d :: d in devices && devices[d].kind.Host? ==> devices[d].tier == 0)
    && (forall d :: d in devices && devices[d].kind.Switch? ==>
          devices[d].tier == if d !in todo && HasHostNeighbour(devices, adj, d) then 1 else -1)
    && (forall d :: d in queue <==> d in devices && devices[d] == Device(Switch, 1))
  }

  lemma EdgePassDone(devices: Devices, adj: Adjacency, queue: seq<string>)
    requires WellShaped(devices, adj) && EdgePass(devices, adj, {}, queue)
    ensures Spreading(devices, adj, queue)
  {
    forall d | d in devices && devices[d].kind.Switch? && devices[d].tier >= 1
      ensures HasLowerNeighbour(devices, adj, d)
    {
      assert HasHostNeighbour(devices, adj, d);
    }
    forall d, h | d in devices && devices[d].kind.Switch? && h in adj[d] && devices[h].kind.Host?
      ensures devices[d].tier == 1
    {
      assert HasHostNeighbour(devices, adj, d);
    }
    assert forall i :: 0 <= i < |queue| ==> queue[i] in queue;
  }

  lemma SpreadingPop(devices: Devices, adj: Adjacency, queue: seq<string>)
    requires Spreading(devices, adj, queue) && |queue| > 0 && queue[0] in adj
    requires forall e :: e in adj[queue[0]] && e in devices && devices[e].kind.Switch? ==> devices[e].tier >= 1
    ensures Spreading(devices, adj, queue[1..])
  {
    assert Settled(devices, adj, queue[0]);
    forall d | d in devices && devices[d].kind.Switch? && devices[d].tier >= 1 && d !in queue[1..]
      ensures Settled(devices, adj, d)
    {
      if d != queue[0] {
        assert d !in queue;
      }
    }
  }

  lemma SpreadingDone(devices: Devices, adj: Adjacency)
    requires WellShaped(devices, adj) && Spreading(devices, adj, [])
    ensures LocallyTiered(devices, adj)
    ensures forall d :: d in devices ==> IsHostDistance(devices, adj, d, devices[d].tier)
  {
    forall d, e | d in devices && e in adj[d] && e in devices &&
      devices[d].kind.Switch? && devices[e].kind.Switch? && devices[d].tier >= 1
      ensures 1 <= devices[e].tier <= devices[d].tier + 1
    {
      assert Settled(devices, adj, d);
    }
    forall d | d in devices
      ensures IsHostDistance(devices, adj, d, devices[d].tier)
    {
      LocalRulesGiveDistance(devices, adj, d);
    }
  }

  /** Everything the outer loop of InferTiers keeps true. */
  ghost predicate Spreading(devices: Devices, adj: Adjacency, queue: seq<string>) {
    && PartlyTiered(devices, adj) && Frontier(devices, queue)
    && forall d {:trigger Settled(devices, adj, d)} ::
         d in devices && devices[d].kind.Switch? && devices[d].tier >= 1 && d !in queue ==> Settled(devices, adj, d)
  }

  /** Giving an untiered neighbour of the queue's head the next tier and queueing it keeps
      the search state; only the neighbour stops being unreached. */
  lemma TierOne(devices: Devices, adj: Adjacency, queue: seq<string>, e: string)
    requires WellShaped(devices, adj) && Spreading(devices, adj, queue)
    requires |queue| > 0 && e in adj[queue[0]] && devices[e] == Device(Switch, -1)
    ensures var after := devices[e := Device(Switch, devices[queue[0]].tier + 1)];
      SameDevices(devices, after) && Spreading(after, adj, queue + [e]) && Unreached(after) == Unreached(devices) - {e}
  {
    var after := devices[e := Device(Switch, devices[queue[0]].tier + 1)];
    TierOnePartly(devices, adj, queue[0], e);
    TierOneFrontier(devices, queue, e);
    forall d | d in after && after[d].kind.Switch? && after[d].tier >= 1 && d !in queue + [e]
      ensures Settled(after, adj, d)
    {
      assert d !in queue;
      TierOneSettled(devices, adj, d, e, after[e].tier);
    }
  }

  lemma TierOnePartly(devices: Devices, adj: Adjacency, head: string, e: string)
    requires WellShaped(devices, adj) && PartlyTiered(devices, adj)
    requires head in devices && devices[head].kind.Switch? && devices[head].tier >= 1
    requires e in adj[head] && devices[e] == Device(Switch, -1)
    ensures PartlyTiered(devices[e := Device(Switch, devices[head].tier + 1)], adj)
  {
    var after := devices[e := Device(Switch, devices[head].tier + 1)];
    assert head in adj[e];
    forall d | d in after && after[d].kind.Switch? && after[d].tier >= 1
      ensures HasLowerNeighbour(after, adj, d)
    {
      if d == e {
        assert head in adj[d] && after[head].tier == after[d].tier - 1;
      } else {
        assert HasLowerNeighbour(devices, adj, d);
        var f :| f in adj[d] && f in devices && devices[f].tier == devices[d].tier - 1;
        assert after[f].tier == after[d].tier - 1;
      }
    }
  }

  lemma TierOneFrontier(devices: Devices, queue: seq<string>, e: string)
    requires Frontier(devices, queue) && |queue| > 0
    requires e in devices && devices[e] == Device(Switch, -1)
    ensures Frontier(devices[e := Device(Switch, devices[queue[0]].tier + 1)], queue + [e])
    ensures Unreached(devices[e := Device(Switch, devices[queue[0]].tier + 1)]) == Unreached(devices) - {e}
  {
  }

  lemma TierOneSettled(devices: Devices, adj: Adjacency, d: string, e: string, tier: int)
    requires d in devices && d != e && Settled(devices, adj, d)
    requires e in devices && devices[e] == Device(Switch, -1)
    ensures Settled(devices[e := Device(Switch, tier)], adj, d)
  {
  }

  predicate HasHostNeighbour(devices: Devices, adj: Adjacency, d: string) {
    d in adj && exists h :: h in adj[d] && h in devices && devices[h].kind.Host?
  }

  // ------------------------------------------------------------------ links, by the reports

  /** One of the first `k` switches has this name and reports the other end: by a neighbour entry
      with a name, for no device or for the switch itself. */
  ghost predicate Reported(switches: seq<SwitchReport>, k: nat, a: string, b: string) {
    exists i, j :: 0 <= i < k && i < |switches| && switches[i].name == a && 0 <= j < |switches[i].neighbors|
      && b != "" && switches[i].neighbors[j].remoteSystem == b && switches[i].neighbors[j].localDevice in {"", a}
  }

  lemma {:induction false} LinksAreReported(devices: Devices, switches: seq<SwitchReport>, k: nat, a: string, b: string)
    requires k <= |switches|
    ensures (a, b) in Links(devices, switches, k) <==> b in devices && Reported(switches, k, a, b)
    decreases k
  {
    if k > 0 {
      LinksAreReported(devices, switches, k - 1, a, b);
      var sw := switches[k - 1];
      if (a, b) in LinksOf(devices, sw, |sw.neighbors|) {
        var j :| 0 <= j < |sw.neighbors| && Usable(devices, sw, sw.neighbors[j])
          && (sw.name, sw.neighbors[j].remoteSystem) == (a, b);
        assert Reported(switches, k, a, b);
      }
      if b in devices && Reported(switches, k, a, b) && !Reported(switches, k - 1, a, b) {
        var i, j :| 0 <= i < k && i < |switches| && switches[i].name == a && 0 <= j < |switches[i].neighbors|
          && b != "" && switches[i].neighbors[j].remoteSystem == b && switches[i].neighbors[j].localDevice in {"", a};
        assert i == k - 1 && Usable(devices, sw, sw.neighbors[j]);
      }
    }
  }

  /** Two devices are linked exactly when one of them reports the other. */
  lemma LinkedIffReported(devices: Devices, switches: seq<SwitchReport>, a: string, b: string)
    requires a in devices && b in devices
    ensures b in Undirected(devices.Keys, Links(devices, switches, |switches|))[a] <==>
      Reported(switches, |switches|, a, b) || Reported(switches, |switches|, b, a)
  {
    LinksAreReported(devices, switches, |switches|, a, b);
    LinksAreReported(devices, switches, |switches|, b, a);
  }
}
