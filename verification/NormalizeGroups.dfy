/** normalizeDiscoveredGroups: walk every host up the parent index and collect the hosts of
    each group. On a discovered topology none of its error paths can be taken. */
module NormalizeGroups {
  import opened Wrappers
  import opened Graph
  import opened TopologySpec
  import opened Grouping
  import opened ParentIndex
  import opened BuildTopology

  datatype NormalizeError = MultipleParents | Cycle | NotAGroup | Discontinuous

  /** A group as the label writer sees it: its switches and the hosts below them. */
  datatype DiscoveredGroup = DiscoveredGroup(internalName: string, tier: int, members: set<string>, nodes: set<string>)

  /** The label writer's view of the group of `d`. */
  ghost function HostGroupOf(devices: Devices, adj: Adjacency, digest: set<string> -> string,
                             d: string): DiscoveredGroup
    requires d in devices
  {
    var g := GroupOf(devices, adj, digest, d);
    DiscoveredGroup(g.name, g.tier, g.members, HostsAt(devices, adj, g.tier, d))
  }

  ghost function HostGroups(devices: Devices, adj: Adjacency, digest: set<string> -> string): set<DiscoveredGroup> {
    set d | d in Switches(devices) :: HostGroupOf(devices, adj, digest, d)
  }

  // ---------------------------------------------------------------- the walk of one host

  /** The names of the groups below tier `tier` whose component holds the host `h`. */
  ghost function AncestorsBelow(devices: Devices, adj: Adjacency, digest: set<string> -> string, h: string,
                                tier: int): set<string> {
    set x | x in Switches(devices) && devices[x].tier < tier && LinkedUpTo(devices, adj, devices[x].tier, h, x) ::
      GroupOf(devices, adj, digest, x).name
  }

  ghost function Ancestors(devices: Devices, adj: Adjacency, digest: set<string> -> string, h: string): set<string> {
    set x | x in Switches(devices) && LinkedUpTo(devices, adj, devices[x].tier, h, x) ::
      GroupOf(devices, adj, digest, x).name
  }

  /** The walk from `h` has reached `current`, which stands for the component of `x` one tier below `tier`. */
  ghost predicate Reached(devices: Devices, adj: Adjacency, digest: set<string> -> string, h: string, tier: int,
                          current: string, x: string) {
    && tier >= 1 && x in devices && devices[x].tier == tier - 1
    && FiledUnder(devices, adj, digest, x, current) && (tier >= 2 ==> current == GroupOf(devices, adj, digest, x).name)
    && LinkedUpTo(devices, adj, tier - 1, h, x)
  }

  /** All devices one key is filed for lie in one component. */
  lemma KeyComponent(devices: Devices, adj: Adjacency, digest: set<string> -> string, k: string, x: string, y: string)
    requires Layered(devices, adj) && UnambiguousNames(devices, adj, digest)
    requires FiledUnder(devices, adj, digest, x, k) && FiledUnder(devices, adj, digest, y, k)
    requires devices[x].tier >= 0 && devices[y].tier >= 0
    ensures devices[x].tier == devices[y].tier && LinkedUpTo(devices, adj, devices[x].tier, x, y)
  {
    if k in devices {
      DeviceKeyIsItself(devices, adj, digest, x, k);
      DeviceKeyIsItself(devices, adj, digest, y, k);
      LinkedUpToSelf(devices, adj, devices[x].tier, x);
    } else {
      assert SameName(devices, adj, digest, x, y);
      InOwnGroup(devices, adj, digest, y);
      assert y in GroupOf(devices, adj, digest, x).members;
    }
  }

  /** A component that is linked to something higher has an upward edge. */
  lemma CrossesUp(devices: Devices, adj: Adjacency, h: string, tier: int, x: string) returns (y: string, u: string)
    requires Layered(devices, adj) && h in devices && 0 <= devices[h].tier <= tier
    requires x in devices && devices[x].tier > tier && LinkedUpTo(devices, adj, devices[x].tier, h, x)
    ensures LinkedUpTo(devices, adj, tier, h, y) && Upward(devices, adj, y, u) && devices[y].tier == tier
  {
    var near := set c | c in UpTo(devices, tier) && LinkedUpTo(devices, adj, tier, h, c);
    if c, d :| c in near && Upward(devices, adj, c, d) && devices[c].tier == tier {
      y, u := c, d;
    } else {
      LinkedUpToSelf(devices, adj, tier, h);
      forall c, d | c in near && c in adj && d in adj[c] && d in UpTo(devices, devices[x].tier)
        ensures d in near
      {
        assert !(Upward(devices, adj, c, d) && devices[c].tier == tier);
        LinkedUpToEdge(devices, adj, tier, c, d);
        LinkedUpToTrans(devices, adj, tier, h, c, d);
      }
      LinkedStaysInside(adj, UpTo(devices, devices[x].tier), near, h, x);
      assert false;
    }
  }

  /** Climbing one entry of the index reaches the one group of the next tier. */
  lemma ClimbOne(devices: Devices, adj: Adjacency, digest: set<string> -> string, t: Topology, h: string, tier: int,
                 current: string, x: string)
    returns (v: string)
    requires Layered(devices, adj) && UnambiguousNames(devices, adj, digest) && Discovered(devices, adj, digest, t)
    requires h in devices && devices[h].kind.Host? && Reached(devices, adj, digest, h, tier, current, x)
    requires current in t.parentIndex
    ensures v in devices && devices[v].tier == tier && t.parentIndex[current] == {GroupOf(devices, adj, digest, v).name}
    ensures Reached(devices, adj, digest, h, tier + 1, GroupOf(devices, adj, digest, v).name, v)
  {
    assert Justified(devices, adj, digest, current, t.parentIndex[current]);
    var y;
    y, v :| JustifiedBy(devices, adj, digest, current, t.parentIndex[current], y, v);
    KeyComponent(devices, adj, digest, current, x, y);
    LinkedUpToTrans(devices, adj, tier - 1, h, x, y);
    LinkedUpToWiden(devices, adj, tier - 1, tier, h, y);
    LinkedUpToEdge(devices, adj, tier, y, v);
    LinkedUpToTrans(devices, adj, tier, h, y, v);
  }

  lemma AncestorsGrow(devices: Devices, adj: Adjacency, digest: set<string> -> string, h: string, tier: int, v: string)
    requires Layered(devices, adj) && v in devices && devices[v].tier == tier && tier >= 1
      && LinkedUpTo(devices, adj, tier, h, v)
    ensures AncestorsBelow(devices, adj, digest, h, tier + 1) ==
      AncestorsBelow(devices, adj, digest, h, tier) + {GroupOf(devices, adj, digest, v).name}
  {
    forall x | x in devices && devices[x].tier == tier && LinkedUpTo(devices, adj, tier, h, x)
      ensures GroupOf(devices, adj, digest, x) == GroupOf(devices, adj, digest, v)
    {
      LinkedUpToSym(devices, adj, tier, h, x);
      LinkedUpToTrans(devices, adj, tier, x, h, v);
      GroupOfShared(devices, adj, digest, x, v);
    }
  }

  /** A walk only ends where nothing above is connected to the host. */
  lemma WalkEnds(devices: Devices, adj: Adjacency, digest: set<string> -> string, t: Topology, h: string, tier: int,
                 current: string, x: string)
    requires Layered(devices, adj) && UnambiguousNames(devices, adj, digest) && Discovered(devices, adj, digest, t)
    requires h in devices && devices[h].kind.Host? && Reached(devices, adj, digest, h, tier, current, x)
    requires current !in t.parentIndex
    ensures AncestorsBelow(devices, adj, digest, h, tier) == Ancestors(devices, adj, digest, h)
  {
    forall z | z in Switches(devices) && LinkedUpTo(devices, adj, devices[z].tier, h, z)
      ensures devices[z].tier < tier
    {
      if devices[z].tier >= tier {
        var y, u := CrossesUp(devices, adj, h, tier - 1, z);
        UpwardIsFiled(devices, adj, digest, t, h, tier, current, x, y, u);
      }
    }
  }

  lemma UpwardIsFiled(devices: Devices, adj: Adjacency, digest: set<string> -> string, t: Topology, h: string,
                      tier: int, current: string, x: string,
                      y: string, u: string)
    requires Layered(devices, adj) && Discovered(devices, adj, digest, t)
    requires h in devices && devices[h].kind.Host? && Reached(devices, adj, digest, h, tier, current, x)
    requires LinkedUpTo(devices, adj, tier - 1, h, y) && Upward(devices, adj, y, u) && devices[y].tier == tier - 1
    ensures current in t.parentIndex
  {
    if tier == 1 {
      HostsLinkOnlyToThemselves(devices, adj, h, y);
      HostsLinkOnlyToThemselves(devices, adj, h, x);
      assert Filed(devices, adj, digest, t.parentIndex, y, y);
    } else {
      LinkedUpToSym(devices, adj, tier - 1, h, y);
      LinkedUpToTrans(devices, adj, tier - 1, y, h, x);
      GroupOfShared(devices, adj, digest, y, x);
      assert Filed(devices, adj, digest, t.parentIndex, y, GroupOf(devices, adj, digest, y).name);
    }
  }

  /** The checks made on the parents of the current resource; the next resource when they pass. */
  function CheckStep(parents: set<string>, seen: set<string>, groupsByName: map<string, Group>,
                     expectedTier: int): Result<string, NormalizeError> {
    if |parents| != 1 then Err(MultipleParents)
    else if Only(parents) in seen then Err(Cycle)
    else if Only(parents) !in groupsByName then Err(NotAGroup)
    else if groupsByName[Only(parents)].tier != expectedTier then Err(Discontinuous)
    else Ok(Only(parents))
  }

  /** A discovered topology with its groups by name. */
  ghost predicate WalkSetting(devices: Devices, adj: Adjacency, digest: set<string> -> string, t: Topology,
                              groupsByName: map<string, Group>) {
    && Layered(devices, adj) && UnambiguousNames(devices, adj, digest)
    && Discovered(devices, adj, digest, t) && GroupsFiled(devices, adj, digest, groupsByName)
  }

  /** The loop over one host of normalizeDiscoveredGroups. */
  method WalkHost(t: Topology, groupsByName: map<string, Group>, host: string, before: Index,
                  ghost devices: Devices, ghost adj: Adjacency, ghost digest: set<string> -> string)
    returns (r: Result<Index, NormalizeError>)
    requires WalkSetting(devices, adj, digest, t, groupsByName) && host in devices
    ensures r.Ok? <==> !Blocked(devices, adj, host)
    ensures r.Ok? ==> HostAdded(before, r.value, Climbed(devices, adj, digest, host), host)
  {
    var nodesByGroup := before;
    var current := host;
    var expectedTier := 1;
    var seen: set<string> := {};
    ghost var x := host;
    WalkStarts(devices, adj, digest, t, host, groupsByName);
    while current in t.parentIndex && t.parentIndex[current] != {}
      invariant WalkOk(devices, adj, digest, host, expectedTier, current, x, seen, before, nodesByGroup, groupsByName)
      decreases groupsByName.Keys - seen
    {
      var step := CheckStep(t.parentIndex[current], seen, groupsByName, expectedTier);
      ghost var v :=
        StepKeepsWalk(devices, adj, digest, t, host, expectedTier, current, x, seen, before, nodesByGroup, groupsByName,
          step);
      match step
      case Err(e) =>
        return Err(e);
      case Ok(parent) =>
        seen := seen + {parent};
        nodesByGroup := AddHost(nodesByGroup, parent, host);
        current, expectedTier, x := parent, expectedTier + 1, v;
    }
    WalkDone(devices, adj, digest, t, host, expectedTier, current, x, seen, groupsByName);
    r := Ok(nodesByGroup);
  }

  /** The state of the walk: a host climbs its components, a switch never leaves its own name. */
  ghost predicate Walking(devices: Devices, adj: Adjacency, digest: set<string> -> string, h: string, tier: int,
                          current: string, x: string,
                          seen: set<string>)
  {
    h in devices &&
    if devices[h].kind.Host? then
      Reached(devices, adj, digest, h, tier, current, x) && seen == AncestorsBelow(devices, adj, digest, h, tier)
    else current == h && tier == 1 && seen == {}
  }

  ghost predicate WalkOk(devices: Devices, adj: Adjacency, digest: set<string> -> string, h: string, tier: int,
                         current: string, x: string,
                         seen: set<string>, before: Index, after: Index, groupsByName: map<string, Group>)
  {
    Walking(devices, adj, digest, h, tier, current, x, seen) && HostAdded(before, after, seen, h)
      && seen <= groupsByName.Keys
  }

  function AddHost(index: Index, name: string, host: string): Index {
    index[name := Lookup(index, name) + {host}]
  }

  /** One turn of the loop: it stops on a blocked entry only, and otherwise climbs one tier. */
  lemma StepKeepsWalk(devices: Devices, adj: Adjacency, digest: set<string> -> string, t: Topology, h: string,
                      tier: int, current: string, x: string,
                      seen: set<string>, before: Index, after: Index, groupsByName: map<string, Group>,
                      step: Result<string, NormalizeError>)
    returns (v: string)
    requires WalkSetting(devices, adj, digest, t, groupsByName) && current in t.parentIndex
    requires WalkOk(devices, adj, digest, h, tier, current, x, seen, before, after, groupsByName)
    requires step == CheckStep(t.parentIndex[current], seen, groupsByName, tier)
    ensures step.Err? ==> Blocked(devices, adj, h)
    ensures step.Ok? ==> groupsByName.Keys - (seen + {step.value}) < groupsByName.Keys - seen
    ensures step.Ok? ==>
      WalkOk(devices, adj, digest, h, tier + 1, step.value, v, seen
        + {step.value}, before, AddHost(after, step.value, h), groupsByName)
  {
    v := WalkStep(devices, adj, digest, t, h, tier, current, x, seen, groupsByName);
    if step.Ok? {
      HostAddedTo(before, after, seen, h, step.value);
      assert step.value in groupsByName.Keys - seen;
    }
  }

  lemma WalkStarts(devices: Devices, adj: Adjacency, digest: set<string> -> string, t: Topology, h: string,
                   groupsByName: map<string, Group>)
    requires WalkSetting(devices, adj, digest, t, groupsByName) && h in devices
    ensures Walking(devices, adj, digest, h, 1, h, h, {})
  {
    if devices[h].kind.Host? {
      LinkedUpToSelf(devices, adj, 0, h);
    }
  }

  lemma WalkStep(devices: Devices, adj: Adjacency, digest: set<string> -> string, t: Topology, h: string, tier: int,
                 current: string, x: string,
                 seen: set<string>, groupsByName: map<string, Group>)
    returns (v: string)
    requires WalkSetting(devices, adj, digest, t, groupsByName)
      && Walking(devices, adj, digest, h, tier, current, x, seen)
    requires current in t.parentIndex
    ensures var step := CheckStep(t.parentIndex[current], seen, groupsByName, tier);
      && (step.Err? ==> Blocked(devices, adj, h))
      && (step.Ok? ==> step.value in groupsByName && step.value !in seen)
      && (step.Ok? ==> Walking(devices, adj, digest, h, tier + 1, step.value, v, seen + {step.value}))
  {
    if devices[h].kind.Host? {
      v := Climb(devices, adj, digest, t, h, tier, current, x, groupsByName);
    } else {
      v := h;
      SwitchIsDiscontinuous(devices, adj, digest, t, h, groupsByName);
    }
  }

  lemma WalkDone(devices: Devices, adj: Adjacency, digest: set<string> -> string, t: Topology, h: string, tier: int,
                 current: string, x: string,
                 seen: set<string>, groupsByName: map<string, Group>)
    requires WalkSetting(devices, adj, digest, t, groupsByName)
      && Walking(devices, adj, digest, h, tier, current, x, seen)
    requires current !in t.parentIndex || t.parentIndex[current] == {}
    ensures seen == Climbed(devices, adj, digest, h) && !Blocked(devices, adj, h)
  {
    if devices[h].kind.Host? {
      WalkEnds(devices, adj, digest, t, h, tier, current, x);
    } else {
      SwitchWithoutEntry(devices, adj, digest, t, h);
    }
  }

  /** A host entry that has the name of a switch stands for that switch, and the switch has a
      neighbour one tier up. */
  ghost predicate Blocked(devices: Devices, adj: Adjacency, x: string) {
    x in devices && devices[x].kind.Switch? && exists u :: Upward(devices, adj, x, u)
  }

  /** The groups that the walk of a host entry adds it to: none when the name is a switch's. */
  ghost function Climbed(devices: Devices, adj: Adjacency, digest: set<string> -> string, h: string): set<string> {
    if h in devices && devices[h].kind.Host? then Ancestors(devices, adj, digest, h) else {}
  }

  /** The first step up from a switch meets a group of tier 2 or more, where tier 1 is expected. */
  lemma SwitchIsDiscontinuous(devices: Devices, adj: Adjacency, digest: set<string> -> string, t: Topology, x: string,
                              groupsByName: map<string, Group>)
    requires Layered(devices, adj) && UnambiguousNames(devices, adj, digest) && Discovered(devices, adj, digest, t)
    requires GroupsFiled(devices, adj, digest, groupsByName) && x in devices && devices[x].kind.Switch?
      && x in t.parentIndex
    ensures Blocked(devices, adj, x) && CheckStep(t.parentIndex[x], {}, groupsByName, 1) == Err(Discontinuous)
  {
    assert Justified(devices, adj, digest, x, t.parentIndex[x]);
    var y, u :| JustifiedBy(devices, adj, digest, x, t.parentIndex[x], y, u);
    DeviceKeyIsItself(devices, adj, digest, y, x);
    assert Upward(devices, adj, x, u);
    assert u in Switches(devices);
    assert GroupOf(devices, adj, digest, u).name in groupsByName;
  }

  lemma SwitchWithoutEntry(devices: Devices, adj: Adjacency, digest: set<string> -> string, t: Topology, x: string)
    requires Layered(devices, adj) && Discovered(devices, adj, digest, t) && x in devices
    requires x !in t.parentIndex || t.parentIndex[x] == {}
    ensures forall u :: !Upward(devices, adj, x, u)
  {
    assert devices[x].tier >= 0 ==> Filed(devices, adj, digest, t.parentIndex, x, x);
  }

  /** `host` has been added to exactly the entries called `names`. */
  ghost predicate HostAdded(before: Index, after: Index, names: set<string>, host: string) {
    forall n {:trigger Lookup(after, n)} :: Lookup(after, n) == AddIf(Lookup(before, n), n in names, host)
  }

  lemma HostAddedTo(before: Index, after: Index, names: set<string>, host: string, name: string)
    requires HostAdded(before, after, names, host)
    ensures HostAdded(before, AddHost(after, name, host), names + {name}, host)
  {
    var more := AddHost(after, name, host);
    forall n
      ensures Lookup(more, n) == AddIf(Lookup(before, n), n in names + {name}, host)
    {
      assert Lookup(after, n) == AddIf(Lookup(before, n), n in names, host);
      assert Lookup(after, n) + {host} == Lookup(before, n) + {host};
    }
  }

  /** Everything the loop needs to know about one step: its checks all pass. */
  lemma Climb(devices: Devices, adj: Adjacency, digest: set<string> -> string, t: Topology, h: string, tier: int,
              current: string, x: string,
              groupsByName: map<string, Group>)
    returns (v: string)
    requires Layered(devices, adj) && UnambiguousNames(devices, adj, digest) && Discovered(devices, adj, digest, t)
    requires GroupsFiled(devices, adj, digest, groupsByName)
    requires h in devices && devices[h].kind.Host? && Reached(devices, adj, digest, h, tier, current, x)
    requires current in t.parentIndex
    ensures var step :=
      CheckStep(t.parentIndex[current], AncestorsBelow(devices, adj, digest, h, tier), groupsByName, tier);
      && step.Ok? && step.value in groupsByName && step.value !in AncestorsBelow(devices, adj, digest, h, tier)
      && Reached(devices, adj, digest, h, tier + 1, step.value, v)
      && AncestorsBelow(devices, adj, digest, h, tier + 1) ==
         AncestorsBelow(devices, adj, digest, h, tier) + {step.value}
  {
    v := ClimbOne(devices, adj, digest, t, h, tier, current, x);
    StepIsNew(devices, adj, digest, h, tier, v, groupsByName);
    AncestorsGrow(devices, adj, digest, h, tier, v);
  }

  /** Every group can be looked up under its name. */
  ghost predicate GroupsFiled(devices: Devices, adj: Adjacency, digest: set<string> -> string,
                              groupsByName: map<string, Group>) {
    forall d {:trigger GroupOf(devices, adj, digest, d)} :: d in Switches(devices) ==>
      GroupOf(devices, adj, digest, d).name in groupsByName
        && groupsByName[GroupOf(devices, adj, digest, d).name] == GroupOf(devices, adj, digest, d)
  }

  /** The next group up is registered with the expected tier and has not been met before. */
  lemma StepIsNew(devices: Devices, adj: Adjacency, digest: set<string> -> string, h: string, tier: int, v: string,
                  groupsByName: map<string, Group>)
    requires Layered(devices, adj) && UnambiguousNames(devices, adj, digest)
      && GroupsFiled(devices, adj, digest, groupsByName)
    requires v in devices && devices[v].tier == tier && tier >= 1
    ensures var name := GroupOf(devices, adj, digest, v).name;
      name in groupsByName && groupsByName[name].tier == tier && name !in AncestorsBelow(devices, adj, digest, h, tier)
  {
    forall x | x in Switches(devices) && devices[x].tier < tier
      ensures GroupOf(devices, adj, digest, x).name != GroupOf(devices, adj, digest, v).name
    {
      InOwnGroup(devices, adj, digest, x);
      assert !SameName(devices, adj, digest, x, v);
    }
  }

  // ------------------------------------------------------------------ all hosts

  /** The entries in `some` that the walk adds to a group called `name`. */
  ghost function HostsUnder(devices: Devices, adj: Adjacency, digest: set<string> -> string, some: set<string>,
                            name: string): set<string> {
    set h | h in some && name in Climbed(devices, adj, digest, h)
  }

  /** The hosts that climb to a group are the hosts of its component. */
  lemma HostsUnderGroup(devices: Devices, adj: Adjacency, digest: set<string> -> string, d: string)
    requires Layered(devices, adj) && UnambiguousNames(devices, adj, digest) && d in Switches(devices)
    ensures HostsUnder(devices, adj, digest, Hosts(devices), GroupOf(devices, adj, digest, d).name) ==
      HostsAt(devices, adj, devices[d].tier, d)
  {
    var name, tier := GroupOf(devices, adj, digest, d).name, devices[d].tier;
    forall h | h in Hosts(devices)
      ensures name in Ancestors(devices, adj, digest, h) <==> LinkedUpTo(devices, adj, tier, d, h)
    {
      if LinkedUpTo(devices, adj, tier, d, h) {
        LinkedUpToSym(devices, adj, tier, d, h);
      }
      if name in Ancestors(devices, adj, digest, h) {
        var x :| x in Switches(devices) && LinkedUpTo(devices, adj, devices[x].tier, h, x)
          && GroupOf(devices, adj, digest, x).name == name;
        assert SameName(devices, adj, digest, d, x);
        InOwnGroup(devices, adj, digest, x);
        assert x in GroupOf(devices, adj, digest, d).members;
        LinkedUpToSym(devices, adj, tier, h, x);
        LinkedUpToTrans(devices, adj, tier, d, x, h);
      }
    }
  }

  ghost function Hosts(devices: Devices): set<string> {
    set h | h in devices && devices[h].kind.Host?
  }

  method IndexByName(groups: set<Group>) returns (groupsByName: map<string, Group>)
    requires forall g, h :: g in groups && h in groups && g.name == h.name ==> g == h
    ensures forall g :: g in groups ==> g.name in groupsByName && groupsByName[g.name] == g
  {
    groupsByName := map[];
    var todo := groups;
    while todo != {}
      invariant todo <= groups
      invariant forall g :: g in groups && g !in todo ==> g.name in groupsByName && groupsByName[g.name] == g
      decreases todo
    {
      var group :| group in todo;
      todo := todo - {group};
      groupsByName := groupsByName[group.name := group];
    }
  }

  lemma NamesIdentifyGroups(devices: Devices, adj: Adjacency, digest: set<string> -> string, d: string, e: string)
    requires Layered(devices, adj) && DistinctGroupNames(devices, adj, digest) && d in Switches(devices)
      && e in Switches(devices)
    requires GroupOf(devices, adj, digest, d).name == GroupOf(devices, adj, digest, e).name
    ensures GroupOf(devices, adj, digest, d) == GroupOf(devices, adj, digest, e)
  {
    assert SameName(devices, adj, digest, d, e);
    InOwnGroup(devices, adj, digest, e);
    GroupOfShared(devices, adj, digest, d, e);
  }

  /** normalizeDiscoveredGroups fails exactly when a host entry has the name of a switch with
      something above it. Otherwise it gives each group exactly the hosts of its component in
      the graph cut off at its tier. */
  method NormalizeDiscoveredGroups(t: Topology, hosts: set<string>, ghost devices: Devices, ghost adj: Adjacency,
                                   ghost digest: set<string> -> string)
    returns (r: Result<set<DiscoveredGroup>, NormalizeError>)
    requires Layered(devices, adj) && UnambiguousNames(devices, adj, digest) && Discovered(devices, adj, digest, t)
    requires Hosts(devices) <= hosts <= devices.Keys
    ensures r.Ok? <==> forall h :: h in hosts ==> !Blocked(devices, adj, h)
    ensures r.Ok? ==> r.value == HostGroups(devices, adj, digest)
  {
    GroupsHaveOwnNames(devices, adj, digest);
    var groupsByName := IndexByName(t.groups);
    assert GroupsFiled(devices, adj, digest, groupsByName);
    var nodesByGroup: Index := map[];
    var todo := hosts;
    while todo != {}
      invariant todo <= hosts && forall h :: h in hosts && h !in todo ==> !Blocked(devices, adj, h)
      invariant forall n {:trigger Lookup(nodesByGroup, n)} ::
        Lookup(nodesByGroup, n) == HostsUnder(devices, adj, digest, hosts - todo, n)
      decreases todo
    {
      var host :| host in todo;
      ghost var before := nodesByGroup;
      var walked := WalkHost(t, groupsByName, host, nodesByGroup, devices, adj, digest);
      match walked
      case Err(e) =>
        return Err(e);
      case Ok(index) =>
        HostWalked(devices, adj, digest, hosts, todo, host, before, index);
        nodesByGroup := index;
        todo := todo - {host};
    }
    assert hosts - todo == hosts;
    OnlyHostsClimb(devices, adj, digest, hosts);
    var groups := set g | g in t.groups :: DiscoveredGroup(g.name, g.tier, g.members, Lookup(nodesByGroup, g.name));
    GroupsGetHosts(devices, adj, digest, nodesByGroup);
    r := Ok(groups);
  }

  lemma GroupsHaveOwnNames(devices: Devices, adj: Adjacency, digest: set<string> -> string)
    requires Layered(devices, adj) && DistinctGroupNames(devices, adj, digest)
    ensures var groups := GroupsOf(devices, adj, digest, Switches(devices));
      forall g, h :: g in groups && h in groups && g.name == h.name ==> g == h
  {
    forall d, e | d in Switches(devices) && e in Switches(devices)
      && GroupOf(devices, adj, digest, d).name == GroupOf(devices, adj, digest, e).name
      ensures GroupOf(devices, adj, digest, d) == GroupOf(devices, adj, digest, e)
    {
      NamesIdentifyGroups(devices, adj, digest, d, e);
    }
  }

  lemma OnlyHostsClimb(devices: Devices, adj: Adjacency, digest: set<string> -> string, hosts: set<string>)
    requires Hosts(devices) <= hosts <= devices.Keys
    ensures forall n {:trigger HostsUnder(devices, adj, digest, hosts, n)} ::
      HostsUnder(devices, adj, digest, hosts, n) == HostsUnder(devices, adj, digest, Hosts(devices), n)
  {
  }

  lemma HostWalked(devices: Devices, adj: Adjacency, digest: set<string> -> string, hosts: set<string>,
                   todo: set<string>, host: string,
                   before: Index, after: Index)
    requires todo <= hosts && host in todo && HostAdded(before, after, Climbed(devices, adj, digest, host), host)
    requires forall n {:trigger Lookup(before, n)} ::
      Lookup(before, n) == HostsUnder(devices, adj, digest, hosts - todo, n)
    ensures forall n {:trigger Lookup(after, n)} ::
      Lookup(after, n) == HostsUnder(devices, adj, digest, hosts - (todo - {host}), n)
  {
    forall n
      ensures Lookup(after, n) == HostsUnder(devices, adj, digest, hosts - (todo - {host}), n)
    {
      assert Lookup(before, n) == HostsUnder(devices, adj, digest, hosts - todo, n);
      assert hosts - (todo - {host}) == (hosts - todo) + {host};
    }
  }

  lemma GroupsGetHosts(devices: Devices, adj: Adjacency, digest: set<string> -> string, nodesByGroup: Index)
    requires Layered(devices, adj) && UnambiguousNames(devices, adj, digest)
    requires forall n {:trigger Lookup(nodesByGroup, n)} ::
      Lookup(nodesByGroup, n) == HostsUnder(devices, adj, digest, Hosts(devices), n)
    ensures (set g | g in GroupsOf(devices, adj, digest, Switches(devices)) ::
               DiscoveredGroup(g.name, g.tier, g.members, Lookup(nodesByGroup, g.name))) ==
                 HostGroups(devices, adj, digest)
  {
    forall d | d in Switches(devices)
      ensures var g := GroupOf(devices, adj, digest, d);
        DiscoveredGroup(g.name, g.tier, g.members, Lookup(nodesByGroup, g.name)) == HostGroupOf(devices, adj, digest, d)
    {
      HostsUnderGroup(devices, adj, digest, d);
    }
    var left := set g | g in GroupsOf(devices, adj, digest, Switches(devices)) ::
      DiscoveredGroup(g.name, g.tier, g.members, Lookup(nodesByGroup, g.name));
    forall x | x in HostGroups(devices, adj, digest)
      ensures x in left
    {
      var d :| d in Switches(devices) && x == HostGroupOf(devices, adj, digest, d);
      assert GroupOf(devices, adj, digest, d) in GroupsOf(devices, adj, digest, Switches(devices));
    }
  }
}
