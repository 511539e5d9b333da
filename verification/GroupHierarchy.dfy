/** What discovery guarantees to the label writer: the groups of a layered graph are disjoint
    within a tier, each host lies in a gapless column of groups, and a group's hosts stay
    together in the group above. */
module GroupHierarchy {
  import opened Decimal
  import opened Graph
  import opened TopologySpec
  import opened Discovery
  import opened Grouping
  import opened ParentIndex
  import opened NormalizeGroups
  import opened AutoLabel

  ghost predicate HasGroupBelow(groups: set<DiscoveredGroup>, g: DiscoveredGroup, n: string) {
    HasGroupAt(groups, n, g.tier - 1)
  }

  ghost predicate Hierarchy(groups: set<DiscoveredGroup>) {
    && GroupsSeparate(groups)
    && (forall g :: g in groups ==> g.nodes != {})
    && (forall g, n {:trigger HasGroupBelow(groups, g, n)} :: g in groups && n in g.nodes && g.tier > 1 ==>
          HasGroupBelow(groups, g, n))
    && (forall g, h, n {:trigger n in g.nodes, n in h.nodes} ::
          g in groups && h in groups && h.tier == g.tier + 1 && n in g.nodes && n in h.nodes ==> g.nodes <= h.nodes)
  }

  /** Every tier fits the integers of labels and status objects. */
  ghost predicate TiersWithin(devices: Devices, limit: int) {
    forall d {:trigger devices[d]} :: d in devices ==> devices[d].tier <= limit
  }

  lemma LinkedThrough(devices: Devices, adj: Adjacency, tier: int, x: string, n: string, y: string)
    requires Layered(devices, adj) && LinkedUpTo(devices, adj, tier, x, n) && LinkedUpTo(devices, adj, tier, y, n)
    ensures LinkedUpTo(devices, adj, tier, x, y)
  {
    LinkedUpToSym(devices, adj, tier, y, n);
    LinkedUpToTrans(devices, adj, tier, x, n, y);
  }

  lemma SharedHostMeansSameGroup(devices: Devices, adj: Adjacency, digest: set<string> -> string, x: string, y: string,
                                 n: string)
    requires Layered(devices, adj) && x in Switches(devices) && y in Switches(devices)
      && devices[x].tier == devices[y].tier
    requires n in HostGroupOf(devices, adj, digest, x).nodes && n in HostGroupOf(devices, adj, digest, y).nodes
    ensures HostGroupOf(devices, adj, digest, x) == HostGroupOf(devices, adj, digest, y)
  {
    LinkedThrough(devices, adj, devices[x].tier, x, n, y);
    SameHostGroup(devices, adj, digest, x, y);
  }

  lemma SameHostGroup(devices: Devices, adj: Adjacency, digest: set<string> -> string, x: string, y: string)
    requires Layered(devices, adj) && x in Switches(devices) && y in Switches(devices)
      && devices[x].tier == devices[y].tier
    requires LinkedUpTo(devices, adj, devices[x].tier, x, y)
    ensures HostGroupOf(devices, adj, digest, x) == HostGroupOf(devices, adj, digest, y)
  {
    GroupOfShared(devices, adj, digest, x, y);
    ComponentShared(devices, adj, devices[x].tier, x, y);
  }

  lemma SharedMemberMeansSameGroup(devices: Devices, adj: Adjacency, digest: set<string> -> string, x: string,
                                   y: string, m: string)
    requires Layered(devices, adj) && x in Switches(devices) && y in Switches(devices)
    requires m in HostGroupOf(devices, adj, digest, x).members && m in HostGroupOf(devices, adj, digest, y).members
    ensures HostGroupOf(devices, adj, digest, x) == HostGroupOf(devices, adj, digest, y)
  {
    LinkedThrough(devices, adj, devices[x].tier, x, m, y);
    SameHostGroup(devices, adj, digest, x, y);
  }

  lemma GroupsAreSeparate(devices: Devices, adj: Adjacency, digest: set<string> -> string)
    requires Layered(devices, adj) && DistinctGroupNames(devices, adj, digest) && TiersWithin(devices, MAX_INT)
    ensures GroupsSeparate(HostGroups(devices, adj, digest))
  {
    var groups := HostGroups(devices, adj, digest);
    forall g, h | g in groups && h in groups
      ensures g.internalName == h.internalName ==> g == h
      ensures g != h ==> g.members !! h.members
      ensures g != h && g.tier == h.tier ==> g.nodes !! h.nodes
    {
      var x :| x in Switches(devices) && g == HostGroupOf(devices, adj, digest, x);
      var y :| y in Switches(devices) && h == HostGroupOf(devices, adj, digest, y);
      PairIsSeparate(devices, adj, digest, x, y);
    }
  }

  lemma PairIsSeparate(devices: Devices, adj: Adjacency, digest: set<string> -> string, x: string, y: string)
    requires Layered(devices, adj) && DistinctGroupNames(devices, adj, digest) && x in Switches(devices)
      && y in Switches(devices)
    ensures var g, h := HostGroupOf(devices, adj, digest, x), HostGroupOf(devices, adj, digest, y);
      && (g.internalName == h.internalName ==> g == h)
      && (g != h ==> g.members !! h.members)
      && (g != h && g.tier == h.tier ==> g.nodes !! h.nodes)
  {
    var g, h := HostGroupOf(devices, adj, digest, x), HostGroupOf(devices, adj, digest, y);
    if g.internalName == h.internalName {
      NamesIdentifyGroups(devices, adj, digest, x, y);
      InOwnGroup(devices, adj, digest, y);
      SharedMemberMeansSameGroup(devices, adj, digest, x, y, y);
    }
    forall m | m in g.members && m in h.members
      ensures g == h
    {
      SharedMemberMeansSameGroup(devices, adj, digest, x, y, m);
    }
    forall n | g.tier == h.tier && n in g.nodes && n in h.nodes
      ensures g == h
    {
      SharedHostMeansSameGroup(devices, adj, digest, x, y, n);
    }
  }

  /** Below a group there is a group for each of its hosts. */
  lemma GroupBelow(devices: Devices, adj: Adjacency, digest: set<string> -> string, x: string, n: string)
    requires Layered(devices, adj) && x in Switches(devices) && devices[x].tier > 1
      && n in HostGroupOf(devices, adj, digest, x).nodes
    ensures HasGroupAt(HostGroups(devices, adj, digest), n, devices[x].tier - 1)
  {
    var tier := devices[x].tier - 1;
    LinkedUpToSym(devices, adj, devices[x].tier, x, n);
    var y, u := CrossesUp(devices, adj, n, tier, x);
    LinkedUpToSym(devices, adj, tier, n, y);
    assert y in Switches(devices);
    assert GroupAt(HostGroups(devices, adj, digest), n, tier, HostGroupOf(devices, adj, digest, y));
  }

  /** Hosts of one group stay together one tier up. */
  lemma HostsStayTogether(devices: Devices, adj: Adjacency, digest: set<string> -> string, x: string, z: string,
                          n: string, m: string)
    requires Layered(devices, adj) && x in Switches(devices) && z in Switches(devices)
      && devices[z].tier == devices[x].tier + 1
    requires n in HostGroupOf(devices, adj, digest, x).nodes && n in HostGroupOf(devices, adj, digest, z).nodes
    requires m in HostGroupOf(devices, adj, digest, x).nodes
    ensures m in HostGroupOf(devices, adj, digest, z).nodes
  {
    var tier := devices[x].tier;
    LinkedUpToSym(devices, adj, tier, x, n);
    LinkedUpToTrans(devices, adj, tier, n, x, m);
    LinkedUpToWiden(devices, adj, tier, tier + 1, n, m);
    LinkedUpToTrans(devices, adj, tier + 1, z, n, m);
  }

  lemma GroupHasHosts(devices: Devices, adj: Adjacency, digest: set<string> -> string, x: string)
    requires Layered(devices, adj) && x in Switches(devices)
    ensures HostGroupOf(devices, adj, digest, x).nodes != {}
  {
    var h := TieredReachesHost(devices, adj, devices[x].tier, x);
    assert h in HostGroupOf(devices, adj, digest, x).nodes;
  }

  /** The groups of a layered graph form a hierarchy over its hosts. */
  lemma HostGroupsFormHierarchy(devices: Devices, adj: Adjacency, digest: set<string> -> string)
    requires Layered(devices, adj) && DistinctGroupNames(devices, adj, digest) && TiersWithin(devices, MAX_INT)
    ensures Hierarchy(HostGroups(devices, adj, digest))
  {
    var groups := HostGroups(devices, adj, digest);
    GroupsAreSeparate(devices, adj, digest);
    forall g | g in groups
      ensures g.nodes != {} && forall n {:trigger HasGroupBelow(groups, g, n)} :: n in g.nodes && g.tier > 1 ==>
        HasGroupBelow(groups, g, n)
    {
      var x :| x in Switches(devices) && g == HostGroupOf(devices, adj, digest, x);
      GroupHasHosts(devices, adj, digest, x);
      forall n | n in g.nodes && g.tier > 1
        ensures HasGroupBelow(groups, g, n)
      {
        GroupBelow(devices, adj, digest, x, n);
      }
    }
    forall g, h, n | g in groups && h in groups && h.tier == g.tier + 1 && n in g.nodes && n in h.nodes
      ensures g.nodes <= h.nodes
    {
      var x :| x in Switches(devices) && g == HostGroupOf(devices, adj, digest, x);
      var z :| z in Switches(devices) && h == HostGroupOf(devices, adj, digest, z);
      forall m | m in g.nodes
        ensures m in h.nodes
      {
        HostsStayTogether(devices, adj, digest, x, z, n, m);
      }
    }
  }
}
