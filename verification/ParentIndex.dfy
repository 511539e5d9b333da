/** The parent index of a discovered topology: every device and every group that has a
    neighbour one tier up has exactly one parent, the group of that neighbour. */
module ParentIndex {
  import opened Graph
  import opened TopologySpec
  import opened Grouping

  type Index = map<string, set<string>>

  /** `u` is a neighbour of `x` one tier up. */
  ghost predicate Upward(devices: Devices, adj: Adjacency, x: string, u: string) {
    x in devices && u in devices && x in adj && u in adj[x] && devices[u].tier == devices[x].tier + 1
  }

  /** `k` is a key under which the parent of `x` is filed: its own name or its group's. */
  ghost predicate FiledUnder(devices: Devices, adj: Adjacency, digest: set<string> -> string, x: string, k: string) {
    x in devices && (k == x || (devices[x].tier >= 1 && k == GroupOf(devices, adj, digest, x).name))
  }

  /** A group is named like a device only when that device is its single member. */
  ghost predicate NoDeviceClash(devices: Devices, adj: Adjacency, digest: set<string> -> string) {
    forall d {:trigger GroupOf(devices, adj, digest, d)} ::
      d in devices && devices[d].tier >= 1 && GroupOf(devices, adj, digest, d).name in devices
      ==> GroupOf(devices, adj, digest, d).members == {GroupOf(devices, adj, digest, d).name}
  }

  /** The upward neighbours of one component all belong to one group. */
  lemma OneParentGroup(devices: Devices, adj: Adjacency, digest: set<string> -> string, x: string, u: string, y: string,
                       v: string)
    requires Layered(devices, adj) && Upward(devices, adj, x, u) && Upward(devices, adj, y, v)
    requires devices[x].tier == devices[y].tier && LinkedUpTo(devices, adj, devices[x].tier, x, y)
    ensures GroupOf(devices, adj, digest, u) == GroupOf(devices, adj, digest, v)
  {
    assert x in adj[u] && y in adj[v];
    SharedLowerLinks(devices, adj, devices[u].tier, u, x, y, v);
    GroupOfShared(devices, adj, digest, u, v);
  }

  lemma InOwnGroup(devices: Devices, adj: Adjacency, digest: set<string> -> string, d: string)
    requires d in devices && devices[d].tier >= 0
    ensures d in GroupOf(devices, adj, digest, d).members
  {
    LinkedUpToSelf(devices, adj, devices[d].tier, d);
  }

  lemma DeviceKeyIsItself(devices: Devices, adj: Adjacency, digest: set<string> -> string, x: string, k: string)
    requires NoDeviceClash(devices, adj, digest) && FiledUnder(devices, adj, digest, x, k) && k in devices
    ensures k == x
  {
    if k != x {
      InOwnGroup(devices, adj, digest, x);
    }
  }

  /** Whatever devices a key is filed for, they have the same parent group. */
  lemma OneParentPerKey(devices: Devices, adj: Adjacency, digest: set<string> -> string, k: string, x: string,
                        u: string, y: string, v: string)
    requires Layered(devices, adj) && DistinctGroupNames(devices, adj, digest) && NoDeviceClash(devices, adj, digest)
    requires Upward(devices, adj, x, u) && Upward(devices, adj, y, v)
    requires FiledUnder(devices, adj, digest, x, k) && FiledUnder(devices, adj, digest, y, k)
    ensures GroupOf(devices, adj, digest, u) == GroupOf(devices, adj, digest, v)
  {
    if k in devices {
      DeviceKeyIsItself(devices, adj, digest, x, k);
      DeviceKeyIsItself(devices, adj, digest, y, k);
      LinkedUpToSelf(devices, adj, devices[x].tier, x);
    } else {
      assert SameName(devices, adj, digest, x, y);
      InOwnGroup(devices, adj, digest, y);
      assert y in GroupOf(devices, adj, digest, x).members;
    }
    OneParentGroup(devices, adj, digest, x, u, y, v);
  }

  ghost predicate JustifiedBy(devices: Devices, adj: Adjacency, digest: set<string> -> string, k: string,
                              parents: set<string>, x: string, u: string) {
    && Upward(devices, adj, x, u) && FiledUnder(devices, adj, digest, x, k)
    && parents == {GroupOf(devices, adj, digest, u).name}
  }

  /** Every entry names the one group above the device or group it is filed for. */
  ghost predicate Justified(devices: Devices, adj: Adjacency, digest: set<string> -> string, k: string,
                            parents: set<string>) {
    exists x, u :: JustifiedBy(devices, adj, digest, k, parents, x, u)
  }

  ghost predicate SoundIndex(devices: Devices, adj: Adjacency, digest: set<string> -> string, index: Index) {
    forall k {:trigger index[k]} :: k in index ==> Justified(devices, adj, digest, k, index[k])
  }

  /** The entries of `before` are still there, unchanged. */
  ghost predicate Keeps(before: Index, after: Index) {
    forall k {:trigger after[k]} {:trigger k in before} :: k in before ==> k in after && after[k] == before[k]
  }

  lemma FileEntry(devices: Devices, adj: Adjacency, digest: set<string> -> string, index: Index, k: string, x: string,
                  u: string)
    requires Layered(devices, adj) && DistinctGroupNames(devices, adj, digest) && NoDeviceClash(devices, adj, digest)
    requires SoundIndex(devices, adj, digest, index) && Upward(devices, adj, x, u)
      && FiledUnder(devices, adj, digest, x, k)
    ensures var parents := {GroupOf(devices, adj, digest, u).name};
      SoundIndex(devices, adj, digest, index[k := parents]) && Keeps(index, index[k := parents])
  {
    var parents := {GroupOf(devices, adj, digest, u).name};
    assert JustifiedBy(devices, adj, digest, k, parents, x, u);
    if k in index {
      assert Justified(devices, adj, digest, k, index[k]);
      var y, v :| JustifiedBy(devices, adj, digest, k, index[k], y, v);
      OneParentPerKey(devices, adj, digest, k, x, u, y, v);
    }
  }

  /** The switches of the zone are filed under the names of their groups. */
  ghost predicate ZoneNamed(devices: Devices, adj: Adjacency, digest: set<string> -> string, zone: set<string>,
                            deviceToGroup: map<string, string>)
    requires zone <= devices.Keys
  {
    forall d :: d in zone && devices[d].tier >= 1 ==> NameOf(deviceToGroup, d) == GroupOf(devices, adj, digest, d).name
  }

  /** The names of the groups one tier above `x`. */
  function ParentNames(devices: Devices, adj: Adjacency, zone: set<string>, deviceToGroup: map<string, string>,
                       x: string): set<string>
    requires zone <= devices.Keys && x in adj && x in devices
  {
    set p | p in adj[x] && p in zone && devices[p].tier == devices[x].tier + 1 :: NameOf(deviceToGroup, p)
  }

  lemma ParentNamesAreOne(devices: Devices, adj: Adjacency, digest: set<string> -> string, zone: set<string>,
                          deviceToGroup: map<string, string>, x: string)
    requires Layered(devices, adj) && ClosedZone(devices, adj, zone)
      && ZoneNamed(devices, adj, digest, zone, deviceToGroup)
    requires x in zone && devices[x].tier >= 0
    ensures forall u :: Upward(devices, adj, x, u) ==>
      ParentNames(devices, adj, zone, deviceToGroup, x) == {GroupOf(devices, adj, digest, u).name}
    ensures ParentNames(devices, adj, zone, deviceToGroup, x) != {} ==> exists u :: Upward(devices, adj, x, u)
  {
    LinkedUpToSelf(devices, adj, devices[x].tier, x);
    forall u | Upward(devices, adj, x, u)
      ensures ParentNames(devices, adj, zone, deviceToGroup, x) == {GroupOf(devices, adj, digest, u).name}
    {
      assert NameOf(deviceToGroup, u) in ParentNames(devices, adj, zone, deviceToGroup, x);
      forall p | p in adj[x] && p in zone && devices[p].tier == devices[x].tier + 1
        ensures NameOf(deviceToGroup, p) == GroupOf(devices, adj, digest, u).name
      {
        OneParentGroup(devices, adj, digest, x, u, x, p);
      }
    }
    if ParentNames(devices, adj, zone, deviceToGroup, x) != {} {
      var n :| n in ParentNames(devices, adj, zone, deviceToGroup, x);
      var p :| p in adj[x] && p in zone && devices[p].tier == devices[x].tier + 1 && NameOf(deviceToGroup, p) == n;
      assert Upward(devices, adj, x, p);
    }
  }

  /** `x`'s parent is filed under `k`. */
  ghost predicate Filed(devices: Devices, adj: Adjacency, digest: set<string> -> string, index: Index, x: string,
                        k: string) {
    forall u :: Upward(devices, adj, x, u) ==> k in index && index[k] == {GroupOf(devices, adj, digest, u).name}
  }

  lemma FiledKept(devices: Devices, adj: Adjacency, digest: set<string> -> string, before: Index, after: Index,
                  x: string, k: string)
    requires Filed(devices, adj, digest, before, x, k) && Keeps(before, after)
    ensures Filed(devices, adj, digest, after, x, k)
  {
  }

  /** buildDeviceParentIndex. */
  method IndexDevices(devices: Devices, adj: Adjacency, zone: set<string>, deviceToGroup: map<string, string>,
                      before: Index,
                      ghost digest: set<string> -> string)
    returns (index: Index)
    requires Layered(devices, adj) && DistinctGroupNames(devices, adj, digest) && NoDeviceClash(devices, adj, digest)
    requires ClosedZone(devices, adj, zone) && ZoneNamed(devices, adj, digest, zone, deviceToGroup)
    requires forall d :: d in zone ==> devices[d].tier >= 0
    requires SoundIndex(devices, adj, digest, before)
    ensures SoundIndex(devices, adj, digest, index) && Keeps(before, index)
    ensures forall d :: d in zone ==> Filed(devices, adj, digest, index, d, d)
  {
    index := before;
    var todo := zone;
    while todo != {}
      invariant todo <= zone
      invariant SoundIndex(devices, adj, digest, index) && Keeps(before, index)
      invariant forall d :: d in zone && d !in todo ==> Filed(devices, adj, digest, index, d, d)
    {
      var child :| child in todo;
      ghost var last := index;
      index := IndexDeviceParents(devices, adj, zone, deviceToGroup, child, index, digest);
      forall d | d in zone && d !in todo
        ensures Filed(devices, adj, digest, index, d, d)
      {
        FiledKept(devices, adj, digest, last, index, d, d);
      }
      todo := todo - {child};
    }
  }

  method IndexDeviceParents(devices: Devices, adj: Adjacency, zone: set<string>, deviceToGroup: map<string, string>,
                            child: string, before: Index,
                            ghost digest: set<string> -> string)
    returns (index: Index)
    requires Layered(devices, adj) && DistinctGroupNames(devices, adj, digest) && NoDeviceClash(devices, adj, digest)
    requires ClosedZone(devices, adj, zone) && ZoneNamed(devices, adj, digest, zone, deviceToGroup)
    requires child in zone && devices[child].tier >= 0
    requires SoundIndex(devices, adj, digest, before)
    ensures SoundIndex(devices, adj, digest, index) && Keeps(before, index)
    ensures Filed(devices, adj, digest, index, child, child)
  {
    index := before;
    var parents := ParentNames(devices, adj, zone, deviceToGroup, child);
    ParentNamesAreOne(devices, adj, digest, zone, deviceToGroup, child);
    if parents != {} {
      ghost var u :| Upward(devices, adj, child, u);
      FileEntry(devices, adj, digest, index, child, child, u);
      index := index[child := parents];
    }
  }

  // -------------------------------------------------------------- parents of groups

  /** The switches that belong to some group. */
  ghost function Switches(devices: Devices): set<string> {
    set d | d in devices && devices[d].tier >= 1
  }

  function GroupParentNames(devices: Devices, adj: Adjacency, zone: set<string>, deviceToGroup: map<string, string>,
                            group: Group): set<string>
    requires zone <= devices.Keys && zone <= adj.Keys
  {
    (set m, p | m in group.members && m in zone && p in adj[m] && p in zone && devices[p].tier == devices[m].tier + 1 ::
      NameOf(deviceToGroup, p))
    - {group.name}
  }

  /** A member of the group of `d` has that same group. */
  lemma MemberHasGroup(devices: Devices, adj: Adjacency, digest: set<string> -> string, d: string, m: string)
    requires Layered(devices, adj) && d in devices && devices[d].tier >= 1
      && m in GroupOf(devices, adj, digest, d).members
    ensures m in devices && devices[m].tier == devices[d].tier
    ensures GroupOf(devices, adj, digest, m) == GroupOf(devices, adj, digest, d)
    ensures FiledUnder(devices, adj, digest, m, GroupOf(devices, adj, digest, d).name)
  {
    GroupOfShared(devices, adj, digest, d, m);
  }

  lemma GroupParentsAreOne(devices: Devices, adj: Adjacency, digest: set<string> -> string, zone: set<string>,
                           deviceToGroup: map<string, string>,
                           d: string, m: string, u: string)
    requires Layered(devices, adj) && DistinctGroupNames(devices, adj, digest)
    requires ClosedZone(devices, adj, zone) && ZoneNamed(devices, adj, digest, zone, deviceToGroup)
    requires d in devices && devices[d].tier >= 1 && m in zone && m in GroupOf(devices, adj, digest, d).members
      && Upward(devices, adj, m, u)
    ensures GroupParentNames(devices, adj, zone, deviceToGroup, GroupOf(devices, adj, digest, d)) ==
      {GroupOf(devices, adj, digest, u).name}
  {
    var group := GroupOf(devices, adj, digest, d);
    var name := GroupOf(devices, adj, digest, u).name;
    MemberHasGroup(devices, adj, digest, d, m);
    forall n, p | n in group.members && n in zone && p in adj[n] && p in zone && devices[p].tier == devices[n].tier + 1
      ensures NameOf(deviceToGroup, p) == name
    {
      MemberHasGroup(devices, adj, digest, d, n);
      LinkedUpToSym(devices, adj, devices[d].tier, d, m);
      LinkedUpToTrans(devices, adj, devices[d].tier, m, d, n);
      OneParentGroup(devices, adj, digest, m, u, n, p);
    }
    InOwnGroup(devices, adj, digest, u);
    assert !SameName(devices, adj, digest, u, d);
    assert NameOf(deviceToGroup, u) == name;
  }

  /** One turn of buildGroupParentIndex. */
  method IndexGroupParents(devices: Devices, adj: Adjacency, zone: set<string>, deviceToGroup: map<string, string>,
                           group: Group, before: Index,
                           ghost digest: set<string> -> string)
    returns (index: Index)
    requires Layered(devices, adj) && DistinctGroupNames(devices, adj, digest) && NoDeviceClash(devices, adj, digest)
    requires ClosedZone(devices, adj, zone) && ZoneNamed(devices, adj, digest, zone, deviceToGroup)
    requires group in GroupsOf(devices, adj, digest, Switches(devices))
    requires SoundIndex(devices, adj, digest, before)
    ensures SoundIndex(devices, adj, digest, index) && Keeps(before, index)
    ensures forall m :: m in zone && m in group.members ==> Filed(devices, adj, digest, index, m, group.name)
  {
    index := before;
    var parents := GroupParentNames(devices, adj, zone, deviceToGroup, group);
    ghost var d :| d in Switches(devices) && group == GroupOf(devices, adj, digest, d);
    FileGroupParents(devices, adj, digest, zone, deviceToGroup, d, before);
    if parents != {} {
      index := index[group.name := parents];
    }
  }

  lemma FileGroupParents(devices: Devices, adj: Adjacency, digest: set<string> -> string, zone: set<string>,
                         deviceToGroup: map<string, string>,
                         d: string, before: Index)
    requires Layered(devices, adj) && DistinctGroupNames(devices, adj, digest) && NoDeviceClash(devices, adj, digest)
    requires ClosedZone(devices, adj, zone) && ZoneNamed(devices, adj, digest, zone, deviceToGroup)
    requires d in devices && devices[d].tier >= 1
    requires SoundIndex(devices, adj, digest, before)
    ensures var group := GroupOf(devices, adj, digest, d);
      var parents := GroupParentNames(devices, adj, zone, deviceToGroup, group);
      var after := if parents == {} then before else before[group.name := parents];
      && SoundIndex(devices, adj, digest, after) && Keeps(before, after)
      && forall m :: m in zone && m in group.members ==> Filed(devices, adj, digest, after, m, group.name)
  {
    var group := GroupOf(devices, adj, digest, d);
    var parents := GroupParentNames(devices, adj, zone, deviceToGroup, group);
    if parents != {} {
      var m, u := GroupParentWitness(devices, adj, zone, deviceToGroup, group);
      MemberHasGroup(devices, adj, digest, d, m);
      GroupParentsAreOne(devices, adj, digest, zone, deviceToGroup, d, m, u);
      FileEntry(devices, adj, digest, before, group.name, m, u);
    }
    var after := if parents == {} then before else before[group.name := parents];
    forall m | m in zone && m in group.members
      ensures Filed(devices, adj, digest, after, m, group.name)
    {
      forall u | Upward(devices, adj, m, u)
        ensures group.name in after && after[group.name] == {GroupOf(devices, adj, digest, u).name}
      {
        GroupParentsAreOne(devices, adj, digest, zone, deviceToGroup, d, m, u);
      }
    }
  }

  lemma GroupParentWitness(devices: Devices, adj: Adjacency, zone: set<string>, deviceToGroup: map<string, string>,
                           group: Group)
    returns (m: string, u: string)
    requires zone <= devices.Keys && zone <= adj.Keys
    requires GroupParentNames(devices, adj, zone, deviceToGroup, group) != {}
    ensures m in zone && m in group.members && Upward(devices, adj, m, u)
  {
    var n :| n in GroupParentNames(devices, adj, zone, deviceToGroup, group);
    m, u :| m in group.members && m in zone && u in adj[m] && u in zone && devices[u].tier == devices[m].tier + 1
      && NameOf(deviceToGroup, u) == n;
  }

  /** buildGroupParentIndex. */
  method IndexGroups(devices: Devices, adj: Adjacency, zone: set<string>, deviceToGroup: map<string, string>,
                     groups: set<Group>, before: Index,
                     ghost digest: set<string> -> string)
    returns (index: Index)
    requires Layered(devices, adj) && DistinctGroupNames(devices, adj, digest) && NoDeviceClash(devices, adj, digest)
    requires ClosedZone(devices, adj, zone) && ZoneNamed(devices, adj, digest, zone, deviceToGroup)
    requires groups <= GroupsOf(devices, adj, digest, Switches(devices))
    requires SoundIndex(devices, adj, digest, before)
    ensures SoundIndex(devices, adj, digest, index) && Keeps(before, index)
    ensures forall g, m :: g in groups && m in g.members && m in zone ==> Filed(devices, adj, digest, index, m, g.name)
  {
    index := before;
    var todo := groups;
    while todo != {}
      invariant todo <= groups
      invariant SoundIndex(devices, adj, digest, index) && Keeps(before, index)
      invariant forall g, m :: g in groups && g !in todo && m in g.members && m in zone ==>
        Filed(devices, adj, digest, index, m, g.name)
      decreases todo
    {
      var group :| group in todo;
      ghost var last := index;
      index := IndexGroupParents(devices, adj, zone, deviceToGroup, group, index, digest);
      forall g, m | g in groups && g !in todo && m in g.members && m in zone
        ensures Filed(devices, adj, digest, index, m, g.name)
      {
        FiledKept(devices, adj, digest, last, index, m, g.name);
      }
      todo := todo - {group};
    }
  }
}
