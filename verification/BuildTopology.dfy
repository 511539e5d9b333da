/** BuildTopology and DiscoverTopology: the zone loop and the whole discovery run. */
module BuildTopology {
  import opened Graph
  import opened TopologySpec
  import opened Discovery
  import opened Grouping
  import opened ParentIndex

  datatype Topology = Topology(groups: set<Group>, parentIndex: Index)

  /** What discovery must output on a layered graph: one group per component of the graph
      cut off at each tier, and one parent for whatever has a neighbour one tier up. */
  ghost predicate Discovered(devices: Devices, adj: Adjacency, digest: set<string> -> string, t: Topology) {
    && t.groups == GroupsOf(devices, adj, digest, Switches(devices))
    && SoundIndex(devices, adj, digest, t.parentIndex)
    && (forall d {:trigger Filed(devices, adj, digest, t.parentIndex, d, d)} ::
          d in devices && devices[d].tier >= 0 ==> Filed(devices, adj, digest, t.parentIndex, d, d))
    && (forall d {:trigger Filed(devices, adj, digest, t.parentIndex, d, GroupOf(devices, adj, digest, d).name)} ::
          d in devices && devices[d].tier >= 1 ==>
            Filed(devices, adj, digest, t.parentIndex, d, GroupOf(devices, adj, digest, d).name))
  }

  /** The naming hypotheses: distinct groups have distinct names, none of them a foreign device's. */
  ghost predicate UnambiguousNames(devices: Devices, adj: Adjacency, digest: set<string> -> string) {
    DistinctGroupNames(devices, adj, digest) && NoDeviceClash(devices, adj, digest)
  }

  lemma HostZoneCloses(devices: Devices, adj: Adjacency, zone: set<string>)
    requires Layered(devices, adj) && IsHostZone(devices, adj, zone)
    ensures ClosedZone(devices, adj, zone)
    ensures forall d :: d in zone ==> devices[d].tier >= 0
  {
    var h :| h in devices && devices[h].kind.Host? && zone == ZoneOf(devices, adj, h);
    forall d, e | d in zone && e in adj[d]
      ensures e in zone
    {
      LinkedExtend(adj, devices.Keys, h, d, e);
    }
    forall d | d in zone
      ensures devices[d].tier >= 0
    {
      ZonesCoverTiered(devices, adj, d);
    }
  }

  lemma AllGroupsDisjoint(devices: Devices, adj: Adjacency, digest: set<string> -> string, some: set<string>)
    requires Layered(devices, adj) && some <= Switches(devices)
    ensures DisjointMembers(GroupsOf(devices, adj, digest, some))
  {
    var groups := GroupsOf(devices, adj, digest, some);
    forall g, h, m | g in groups && h in groups && m in g.members && m in h.members
      ensures g == h
    {
      var d :| d in some && g == GroupOf(devices, adj, digest, d);
      var e :| e in some && h == GroupOf(devices, adj, digest, e);
      MemberHasGroup(devices, adj, digest, d, m);
      MemberHasGroup(devices, adj, digest, e, m);
    }
  }

  /** buildDeviceToGroupIndex. */
  method DeviceToGroupIndex(zone: set<string>, groups: set<Group>) returns (deviceToGroup: map<string, string>)
    requires DisjointMembers(groups)
    ensures forall g, m :: g in groups && m in g.members && m in zone ==> NameOf(deviceToGroup, m) == g.name
  {
    deviceToGroup := map[];
    var todo := groups;
    while todo != {}
      invariant todo <= groups
      invariant forall g, m :: g in groups && g !in todo && m in g.members && m in zone ==>
        NameOf(deviceToGroup, m) == g.name
      decreases todo
    {
      var group :| group in todo;
      todo := todo - {group};
      var inZone := group.(members := group.members * zone);
      assert forall g, m :: g in groups && g != group && m in g.members ==> m !in group.members;
      NameOfUpdate(deviceToGroup, inZone);
      deviceToGroup := deviceToGroup + map m | m in inZone.members :: inZone.name;
    }
  }

  /** What holds once the zones that make up `done` are finished. */
  ghost predicate ZonesBuilt(devices: Devices, adj: Adjacency, digest: set<string> -> string, done: set<string>,
                             t: Topology)
    requires done <= devices.Keys
  {
    && t.groups == GroupsOf(devices, adj, digest, done * Switches(devices))
    && SoundIndex(devices, adj, digest, t.parentIndex)
    && (forall d {:trigger Filed(devices, adj, digest, t.parentIndex, d, d)} ::
          d in done && devices[d].tier >= 0 ==> Filed(devices, adj, digest, t.parentIndex, d, d))
    && (forall d {:trigger Filed(devices, adj, digest, t.parentIndex, d, GroupOf(devices, adj, digest, d).name)} ::
          d in done && devices[d].tier >= 1 ==>
            Filed(devices, adj, digest, t.parentIndex, d, GroupOf(devices, adj, digest, d).name))
  }

  /** One zone: its groups, then the parents of its devices and groups. */
  method BuildZone(devices: Devices, adj: Adjacency, zone: set<string>, digest: set<string> -> string,
                   ghost done: set<string>, before: Topology)
    returns (t: Topology)
    requires Layered(devices, adj) && UnambiguousNames(devices, adj, digest)
    requires IsHostZone(devices, adj, zone) && done <= devices.Keys && zone <= devices.Keys
    requires ZonesBuilt(devices, adj, digest, done, before)
    ensures ZonesBuilt(devices, adj, digest, done + zone, t)
  {
    HostZoneCloses(devices, adj, zone);
    var zoneGroups := BuildZoneGroups(devices, adj, zone, digest);
    var groups := before.groups + zoneGroups;
    ZoneGroupsAdded(devices, adj, digest, done, zone);
    AllGroupsDisjoint(devices, adj, digest, (done + zone) * Switches(devices));
    var deviceToGroup := DeviceToGroupIndex(zone, groups);
    ZoneIsNamed(devices, adj, digest, zone, done, deviceToGroup);
    var index := IndexDevices(devices, adj, zone, deviceToGroup, before.parentIndex, digest);
    ghost var middle := index;
    index := IndexGroups(devices, adj, zone, deviceToGroup, groups, index, digest);
    t := Topology(groups, index);
    ZoneFiled(devices, adj, digest, done, zone, before, middle, t);
  }

  lemma ZoneGroupsAdded(devices: Devices, adj: Adjacency, digest: set<string> -> string, done: set<string>,
                        zone: set<string>)
    requires done <= devices.Keys && zone <= devices.Keys
    ensures GroupsOf(devices, adj, digest, (done + zone) * Switches(devices)) ==
      GroupsOf(devices, adj, digest, done * Switches(devices))
        + GroupsOf(devices, adj, digest, set d | d in zone && devices[d].tier >= 1)
    ensures GroupsOf(devices, adj, digest, (done + zone) * Switches(devices)) <=
      GroupsOf(devices, adj, digest, Switches(devices))
  {
    assert (set d | d in zone && devices[d].tier >= 1) == zone * Switches(devices);
  }

  lemma ZoneIsNamed(devices: Devices, adj: Adjacency, digest: set<string> -> string, zone: set<string>,
                    done: set<string>, deviceToGroup: map<string, string>)
    requires Layered(devices, adj) && done <= devices.Keys && zone <= devices.Keys
    requires forall g, m ::
      g in GroupsOf(devices, adj, digest, (done + zone) * Switches(devices)) && m in g.members && m in zone ==>
        NameOf(deviceToGroup, m) == g.name
    ensures ZoneNamed(devices, adj, digest, zone, deviceToGroup)
  {
    forall d | d in zone && devices[d].tier >= 1
      ensures NameOf(deviceToGroup, d) == GroupOf(devices, adj, digest, d).name
    {
      assert d in (done + zone) * Switches(devices);
      InOwnGroup(devices, adj, digest, d);
    }
  }

  lemma ZoneFiled(devices: Devices, adj: Adjacency, digest: set<string> -> string, done: set<string>, zone: set<string>,
                  before: Topology, middle: Index, t: Topology)
    requires done <= devices.Keys && zone <= devices.Keys
    requires ZonesBuilt(devices, adj, digest, done, before)
    requires Keeps(before.parentIndex, middle) && Keeps(middle, t.parentIndex)
    requires t.groups == GroupsOf(devices, adj, digest, (done + zone) * Switches(devices))
    requires SoundIndex(devices, adj, digest, t.parentIndex)
    requires forall d :: d in zone ==> Filed(devices, adj, digest, middle, d, d)
    requires forall g, m :: g in t.groups && m in g.members && m in zone ==>
      Filed(devices, adj, digest, t.parentIndex, m, g.name)
    ensures ZonesBuilt(devices, adj, digest, done + zone, t)
  {
    forall d | d in done + zone && devices[d].tier >= 0
      ensures Filed(devices, adj, digest, t.parentIndex, d, d)
    {
      if d in done {
        FiledKept(devices, adj, digest, before.parentIndex, middle, d, d);
      }
      FiledKept(devices, adj, digest, middle, t.parentIndex, d, d);
    }
    forall d | d in done + zone && devices[d].tier >= 1
      ensures Filed(devices, adj, digest, t.parentIndex, d, GroupOf(devices, adj, digest, d).name)
    {
      var k := GroupOf(devices, adj, digest, d).name;
      if d in done {
        FiledKept(devices, adj, digest, before.parentIndex, middle, d, k);
        FiledKept(devices, adj, digest, middle, t.parentIndex, d, k);
      } else {
        InOwnGroup(devices, adj, digest, d);
        assert d in (done + zone) * Switches(devices);
      }
    }
  }

  /** BuildTopology: every zone in turn. */
  method Build(g: TopologyGraph, digest: set<string> -> string) returns (t: Topology)
    requires Layered(g.devices, g.adj) && UnambiguousNames(g.devices, g.adj, digest)
    ensures Discovered(g.devices, g.adj, digest, t)
  {
    var zones := g.CollectConnectedZones();
    t := Topology({}, map[]);
    ghost var done: set<string> := {};
    for i := 0 to |zones|
      invariant done <= g.devices.Keys
      invariant forall j :: 0 <= j < i ==> zones[j] <= done
      invariant ZonesBuilt(g.devices, g.adj, digest, done, t)
    {
      assert IsHostZone(g.devices, g.adj, zones[i]);
      t := BuildZone(g.devices, g.adj, zones[i], digest, done, t);
      done := done + zones[i];
    }
    AllZonesBuilt(g.devices, g.adj, digest, zones, done, t);
  }

  lemma AllZonesBuilt(devices: Devices, adj: Adjacency, digest: set<string> -> string, zones: seq<set<string>>,
                      done: set<string>, t: Topology)
    requires Layered(devices, adj) && done <= devices.Keys && ZonesBuilt(devices, adj, digest, done, t)
    requires forall j :: 0 <= j < |zones| ==> zones[j] <= done
    requires forall h {:trigger ZoneOf(devices, adj, h)} :: h in devices && devices[h].kind.Host? ==>
      ZoneOf(devices, adj, h) in zones
    ensures Discovered(devices, adj, digest, t)
  {
    forall d | d in devices && devices[d].tier >= 0
      ensures d in done
    {
      ZonesCoverTiered(devices, adj, d);
      var h :| h in devices && devices[h].kind.Host? && d in ZoneOf(devices, adj, h);
      assert ZoneOf(devices, adj, h) in zones;
    }
    assert done * Switches(devices) == Switches(devices);
  }
}
