/** The whole run: discover, name, label, and read the labels back as a status. */
module Pipeline {
  import opened Wrappers
  import opened Decimal
  import opened Graph
  import opened TopologySpec
  import opened Discovery
  import opened Grouping
  import opened ParentIndex
  import opened BuildTopology
  import opened NormalizeGroups
  import opened LabelSyntax
  import opened AutoLabel
  import opened AutoLabelPlan
  import opened CrashSafety
  import opened GroupHierarchy
  import opened LabelsToStatus
  import opened Sets
  import NodeGroups
  import TopologyStatus

  /** What is asked of a digest of several member names: different sets get different
      digests, and a digest is not the name of a device. */
  ghost predicate Ideal(digest: set<string> -> string, names: set<string>) {
    && (forall a, b {:trigger digest(a), digest(b)} ::
          a <= names && b <= names && |a| > 1 && |b| > 1 && digest(a) == digest(b) ==> a == b)
    && (forall a {:trigger digest(a)} :: a <= names && |a| > 1 ==> digest(a) !in names)
  }

  lemma GroupNameIdentifies(digest: set<string> -> string, names: set<string>, a: set<string>, b: set<string>)
    requires Ideal(digest, names) && a <= names && b <= names && a != {} && b != {}
    ensures GroupName(a, digest) == GroupName(b, digest) ==> a == b
    ensures GroupName(a, digest) in names ==> a == {GroupName(a, digest)}
  {
  }

  lemma IdealMeansUnambiguous(devices: Devices, adj: Adjacency, digest: set<string> -> string)
    requires Layered(devices, adj) && Ideal(digest, devices.Keys)
    ensures UnambiguousNames(devices, adj, digest)
  {
    forall d, e | SameName(devices, adj, digest, d, e) && devices[d].tier >= 1 && devices[e].tier >= 1
      ensures GroupOf(devices, adj, digest, d).members == GroupOf(devices, adj, digest, e).members
    {
      InOwnGroup(devices, adj, digest, d);
      InOwnGroup(devices, adj, digest, e);
      GroupNameIdentifies(digest, devices.Keys, GroupOf(devices, adj, digest, d).members,
        GroupOf(devices, adj, digest, e).members);
    }
    forall d | d in devices && devices[d].tier >= 1 && GroupOf(devices, adj, digest, d).name in devices
      ensures GroupOf(devices, adj, digest, d).members == {GroupOf(devices, adj, digest, d).name}
    {
      InOwnGroup(devices, adj, digest, d);
      GroupNameIdentifies(digest, devices.Keys, GroupOf(devices, adj, digest, d).members,
        GroupOf(devices, adj, digest, d).members);
    }
  }

  /** No tier exceeds the number of devices: every lower tier is inhabited. */
  lemma {:induction false} TiersAreSmall(devices: Devices, adj: Adjacency, d: string)
    requires Layered(devices, adj) && d in devices && devices[d].tier >= 0
    ensures devices[d].tier < |UpTo(devices, devices[d].tier)|
    decreases devices[d].tier
  {
    var tier := devices[d].tier;
    if tier == 0 {
      assert d in UpTo(devices, 0);
    } else {
      assert HasLowerNeighbour(devices, adj, d);
      var e :| e in adj[d] && devices[e].tier == tier - 1;
      TiersAreSmall(devices, adj, e);
      SubsetSize(UpTo(devices, tier - 1) + {d}, UpTo(devices, tier));
    }
  }

  lemma TiersFitDevices(devices: Devices, adj: Adjacency)
    requires Layered(devices, adj)
    ensures TiersWithin(devices, |devices|)
  {
    forall d | d in devices
      ensures devices[d].tier <= |devices|
    {
      if devices[d].tier >= 0 {
        TiersAreSmall(devices, adj, d);
        SubsetSize(UpTo(devices, devices[d].tier), devices.Keys);
      }
    }
  }

  /** The undirected links that the usable reports describe. */
  ghost function ReportedLinks(devices: Devices, reports: seq<SwitchReport>): Adjacency {
    Undirected(devices.Keys, Links(devices, reports, |reports|))
  }

  lemma {:induction false} LinksOnlyNeedNames(a: Devices, b: Devices, reports: seq<SwitchReport>, k: nat)
    requires a.Keys == b.Keys && k <= |reports|
    ensures Links(a, reports, k) == Links(b, reports, k)
    decreases k
  {
    if k > 0 {
      LinksOnlyNeedNames(a, b, reports, k - 1);
      var sw := reports[k - 1];
      forall j | 0 <= j < |sw.neighbors|
        ensures Usable(a, sw, sw.neighbors[j]) == Usable(b, sw, sw.neighbors[j])
      {
        assert sw.neighbors[j].remoteSystem in a.Keys <==> sw.neighbors[j].remoteSystem in b.Keys;
      }
      assert LinksOf(a, sw, |sw.neighbors|) == LinksOf(b, sw, |sw.neighbors|);
    }
  }

  /** The graph that discovery works on: reported devices, each tier the distance to the
      nearest host over the reported links, and only the links between adjacent tiers. */
  ghost predicate DiscoveryGraph(hosts: set<string>, reports: seq<SwitchReport>, devices: Devices, adj: Adjacency) {
    && devices.Keys == hosts + Discovery.SwitchNames(reports)
    && (forall d :: d in devices ==> (devices[d].kind.Switch? <==> d in Discovery.SwitchNames(reports)))
    && (forall d :: d in devices ==> IsHostDistance(devices, ReportedLinks(devices, reports), d, devices[d].tier))
    && adj == AdjacentTierEdges(devices, ReportedLinks(devices, reports)) && Layered(devices, adj)
  }

  /** BuildTopologyGraph, InferTiers, NormalizeTierEdges. */
  method DiscoverGraph(hosts: set<string>, reports: seq<SwitchReport>) returns (graph: TopologyGraph)
    ensures fresh(graph) && DiscoveryGraph(hosts, reports, graph.devices, graph.adj)
  {
    graph := new TopologyGraph(hosts, reports);
    ghost var untiered := graph.devices;
    graph.InferTiers();
    LinksOnlyNeedNames(untiered, graph.devices, reports, |reports|);
    NormalizedEdges(graph.devices, graph.adj);
    graph.NormalizeTierEdges();
  }

  lemma GroupsNameTheirObjects(hosts: set<string>, reports: seq<SwitchReport>, devices: Devices, adj: Adjacency,
                               digest: set<string> -> string)
    requires DiscoveryGraph(hosts, reports, devices, adj)
    ensures forall g :: g in HostGroups(devices, adj, digest) ==>
      g.tier <= |hosts + Discovery.SwitchNames(reports)| && g.nodes <= hosts
        && g.members <= Discovery.SwitchNames(reports)
  {
    TiersFitDevices(devices, adj);
  }

  /** No host entry has the name of a switch with something above it. */
  ghost predicate Walkable(devices: Devices, adj: Adjacency, hosts: set<string>) {
    forall h {:trigger Blocked(devices, adj, h)} :: h in hosts ==> !Blocked(devices, adj, h)
  }

  /** In the graph that discovery works on, no two groups get one name and none is called like
      a device. GroupNaming says exactly when. */
  ghost predicate NamesTellApart(hosts: set<string>, reports: seq<SwitchReport>, digest: set<string> -> string) {
    forall devices, adj {:trigger DiscoveryGraph(hosts, reports, devices, adj)} ::
      DiscoveryGraph(hosts, reports, devices, adj) ==> UnambiguousNames(devices, adj, digest)
  }

  /** A digest that tells all sets of names apart is more than enough. */
  lemma IdealTellsApart(hosts: set<string>, reports: seq<SwitchReport>, digest: set<string> -> string)
    requires Ideal(digest, hosts + Discovery.SwitchNames(reports))
    ensures NamesTellApart(hosts, reports, digest)
  {
    forall devices, adj | DiscoveryGraph(hosts, reports, devices, adj)
      ensures UnambiguousNames(devices, adj, digest)
    {
      IdealMeansUnambiguous(devices, adj, digest);
    }
  }

  /** DiscoverTopology and the normalization of its groups, from reports to host groups. */
  method DiscoverGroups(hosts: set<string>, reports: seq<SwitchReport>, digest: set<string> -> string)
    returns (r: Result<set<DiscoveredGroup>, NormalizeError>, ghost devices: Devices, ghost adj: Adjacency)
    requires NamesTellApart(hosts, reports, digest) && |hosts + Discovery.SwitchNames(reports)| <= MAX_INT
    ensures DiscoveryGraph(hosts, reports, devices, adj)
    ensures r.Ok? <==> Walkable(devices, adj, hosts)
    ensures r.Ok? ==> r.value == HostGroups(devices, adj, digest) && Hierarchy(r.value)
  {
    var graph := DiscoverGraph(hosts, reports);
    devices, adj := graph.devices, graph.adj;
    TiersFitDevices(devices, adj);
    var topology := Build(graph, digest);
    HostGroupsFormHierarchy(devices, adj, digest);
    r := NormalizeDiscoveredGroups(topology, hosts, devices, adj, digest);
  }

  /** Without a name that is both a host's and a switch's the walk never fails. */
  lemma DisjointNamesAreWalkable(hosts: set<string>, reports: seq<SwitchReport>, devices: Devices, adj: Adjacency)
    requires DiscoveryGraph(hosts, reports, devices, adj) && hosts !! Discovery.SwitchNames(reports)
    ensures Walkable(devices, adj, hosts)
  {
  }

  /** Host `n` hangs on switch `a`, switch `b` on `a`, and `a` is also the name of a host. */
  function SharedNameReports(n: string, a: string, b: string): seq<SwitchReport> {
    [SwitchReport(a, [Neighbor(a, n), Neighbor(a, b)]), SwitchReport(b, [Neighbor(b, a)])]
  }

  lemma SharedNameLinks(n: string, a: string, b: string, devices: Devices)
    requires n != "" && a != "" && b != "" && n != a && n != b && a != b && devices.Keys == {n, a, b}
    ensures ReportedLinks(devices, SharedNameReports(n, a, b)) == map[n := {a}, a := {n, b}, b := {a}]
  {
    var reports := SharedNameReports(n, a, b);
    assert LinksOf(devices, reports[0], 2) == {(a, n), (a, b)} by {
      assert reports[0].neighbors[0].remoteSystem == n && reports[0].neighbors[1].remoteSystem == b;
    }
    assert LinksOf(devices, reports[1], 1) == {(b, a)} by {
      assert reports[1].neighbors[0].remoteSystem == a;
    }
    assert Links(devices, reports, 0) == {} && Links(devices, reports, 1) == {(a, n), (a, b)};
    assert Links(devices, reports, 2) == {(a, n), (a, b), (b, a)};
    var links := ReportedLinks(devices, reports);
    assert links[n] == {a} && links[a] == {n, b} && links[b] == {a};
  }

  /** A family of inputs on which the run fails. */
  lemma SharedNameBlocks(n: string, a: string, b: string, devices: Devices, adj: Adjacency)
    requires n != "" && a != "" && b != "" && n != a && n != b && a != b
    requires DiscoveryGraph({n, a}, SharedNameReports(n, a, b), devices, adj)
    ensures !Walkable(devices, adj, {n, a})
  {
    var reports := SharedNameReports(n, a, b);
    assert reports[0].name == a && reports[1].name == b;
    assert Discovery.SwitchNames(reports) == {a, b};
    assert devices.Keys == {n, a, b};
    SharedNameLinks(n, a, b, devices);
    ReportedLinksAreWellShaped(devices, reports);
    var links := ReportedLinks(devices, reports);
    NextToHostIsTierOne(devices, links, a, n);
    SecondHopIsTierTwo(devices, links, n, a, b);
    assert Upward(devices, adj, a, b);
    assert Blocked(devices, adj, a);
  }

  lemma SecondHopIsTierTwo(devices: Devices, links: Adjacency, n: string, a: string, b: string)
    requires devices.Keys == {n, a, b} && links == map[n := {a}, a := {n, b}, b := {a}] && n != a && n != b && a != b
    requires devices[n].kind.Host? && devices[a].kind.Switch? && devices[b].kind.Switch?
    requires IsHostDistance(devices, links, b, devices[b].tier)
    ensures devices[b].tier == 2
  {
    assert HostWalk(devices, links, [b, a, n], b, 2);
    assert HostWithin(devices, links, b, 2);
    var tier := devices[b].tier;
    var w :| HostWalk(devices, links, w, b, tier);
  }

  ghost function GroupsOfSome(devices: Devices, adj: Adjacency, digest: set<string> -> string,
                              some: set<string>): set<DiscoveredGroup>
    requires some <= devices.Keys
  {
    set d | d in some :: HostGroupOf(devices, adj, digest, d)
  }

  lemma {:induction false} NoMoreGroupsThanSwitches(devices: Devices, adj: Adjacency, digest: set<string> -> string,
                                                    some: set<string>)
    requires some <= devices.Keys
    ensures |GroupsOfSome(devices, adj, digest, some)| <= |some|
    decreases some
  {
    if some != {} {
      var d :| d in some;
      NoMoreGroupsThanSwitches(devices, adj, digest, some - {d});
      assert GroupsOfSome(devices, adj, digest, some) ==
        GroupsOfSome(devices, adj, digest, some - {d}) + {HostGroupOf(devices, adj, digest, d)};
    }
  }

  lemma FewGroups(hosts: set<string>, reports: seq<SwitchReport>, devices: Devices, adj: Adjacency,
                  digest: set<string> -> string)
    requires DiscoveryGraph(hosts, reports, devices, adj)
    ensures |HostGroups(devices, adj, digest)| <= |hosts + Discovery.SwitchNames(reports)|
  {
    NoMoreGroupsThanSwitches(devices, adj, digest, Switches(devices));
    assert HostGroups(devices, adj, digest) == GroupsOfSome(devices, adj, digest, Switches(devices));
    SubsetSize(Switches(devices), devices.Keys);
  }

  // ------------------------------------------------------------- a single tier of switches

  /** Report i of switch `k` shows a host. */
  ghost predicate ShowsHost(hosts: set<string>, reports: seq<SwitchReport>, k: string, i: int, j: int) {
    && 0 <= i < |reports| && 0 <= j < |reports[i].neighbors| && reports[i].name == k
    && var n := reports[i].neighbors[j];
    && (n.localDevice == "" || n.localDevice == k) && n.remoteSystem != ""
    && n.remoteSystem in hosts && n.remoteSystem !in Discovery.SwitchNames(reports)
  }

  /** Every switch reports a host, as it does when switches are known from hosts only. */
  ghost predicate AllSeeHosts(hosts: set<string>, reports: seq<SwitchReport>) {
    forall k {:trigger k in Discovery.SwitchNames(reports)} :: k in Discovery.SwitchNames(reports) ==>
      exists i, j :: ShowsHost(hosts, reports, k, i, j)
  }

  lemma {:induction false} ReportedLink(devices: Devices, reports: seq<SwitchReport>, n: nat, i: nat, j: nat)
    requires i < n <= |reports| && j < |reports[i].neighbors| && Usable(devices, reports[i], reports[i].neighbors[j])
    ensures (reports[i].name, reports[i].neighbors[j].remoteSystem) in Links(devices, reports, n)
    decreases n
  {
    if i < n - 1 {
      ReportedLink(devices, reports, n - 1, i, j);
    }
  }

  lemma NextToHostIsTierOne(devices: Devices, adj: Adjacency, d: string, h: string)
    requires WellShaped(devices, adj) && d in devices && h in devices && d in adj && h in adj[d]
    requires devices[d].kind.Switch? && devices[h].kind.Host? && IsHostDistance(devices, adj, d, devices[d].tier)
    ensures devices[d].tier == 1
  {
    assert HostWalk(devices, adj, [d, h], d, 1);
    assert HostWithin(devices, adj, d, 1);
  }

  lemma ReportedLinksAreWellShaped(devices: Devices, reports: seq<SwitchReport>)
    ensures WellShaped(devices, ReportedLinks(devices, reports))
  {
    UndirectedIsWellShaped(devices, Links(devices, reports, |reports|));
  }

  /** Where every switch sees a host, all groups are of tier 1. */
  lemma AllSeeHostsGivesOneTier(hosts: set<string>, reports: seq<SwitchReport>, devices: Devices, adj: Adjacency,
                                digest: set<string> -> string)
    requires DiscoveryGraph(hosts, reports, devices, adj) && AllSeeHosts(hosts, reports)
    ensures forall g :: g in HostGroups(devices, adj, digest) ==> g.tier == 1
  {
    ReportedLinksAreWellShaped(devices, reports);
    forall d | d in Switches(devices)
      ensures devices[d].tier == 1
    {
      var i, j :| ShowsHost(hosts, reports, d, i, j);
      var h := reports[i].neighbors[j].remoteSystem;
      ReportedLink(devices, reports, |reports|, i, j);
      NextToHostIsTierOne(devices, ReportedLinks(devices, reports), d, h);
    }
  }

  /** The cluster holds the discovered objects, and none of the role is labelled yet. */
  ghost predicate FreshCluster(s: Syntax, role: string, hosts: set<string>, reports: seq<SwitchReport>,
                               synthetic: set<string>, c: Cluster) {
    && Unlabelled(s, role, c) && hosts <= c.nodes.Keys
    && (forall m :: m in Discovery.SwitchNames(reports) ==> m in c.switches || m in synthetic)
  }

  ghost predicate OneTier(groups: set<DiscoveredGroup>) {
    forall g :: g in groups ==> g.tier == 1
  }

  /** None of the Switches carries a name. */
  ghost predicate NoneNamed(switches: set<string>, c: Cluster) {
    forall m {:trigger c.switches[m]} :: m in switches && m in c.switches ==> c.switches[m].domain == ""
  }

  /** The groups refer to reported hosts and switches only. */
  ghost predicate Refer(groups: set<DiscoveredGroup>, hosts: set<string>, reports: seq<SwitchReport>) {
    forall g :: g in groups ==>
      g.tier <= MAX_INT32 && g.nodes <= hosts && g.members <= Discovery.SwitchNames(reports)
  }

  lemma FreshIsOwn(s: Syntax, d: RoleTopology, hosts: set<string>, reports: seq<SwitchReport>, c: Cluster)
    requires FreshCluster(s, d.role, hosts, reports, d.synthetic, c) && Refer(d.groups, hosts, reports)
    requires |d.groups| <= MAX_INT
    ensures Placed(d, c) && OwnLabels(s, d, c) && NextFit(s, d, c)
  {
    UnlabelledIsOwn(s, d, c);
    assert InUse(s, d.role, c) == {};
    forall tier
      ensures Top(s, d, c, tier) == 0 && |FreshGroups(s, c, d.groups, tier)| <= |d.groups|
    {
      HighestIsUnique(s, {}, tier, 0, Top(s, d, c, tier));
      SubsetSize(FreshGroups(s, c, d.groups, tier), d.groups);
    }
  }

  /** Without names on any of the switches a plan exists unless a topology known from hosts only
      has several tiers. */
  lemma FreshIsPlannable(s: Syntax, d: RoleTopology, hosts: set<string>, reports: seq<SwitchReport>, c: Cluster)
    requires Lawful(s) && GroupsSeparate(d.groups) && FreshCluster(s, d.role, hosts, reports, d.synthetic, c)
    requires Refer(d.groups, hosts, reports) && NoneNamed(Discovery.SwitchNames(reports), c)
    ensures Plannable(s, d, c) <==> (d.nodeOnly ==> OneTier(d.groups))
  {
    forall g | g in d.groups
      ensures Locked(s, c, g) == {} && GroupReadable(s, d, c, g)
    {
      NothingLocked(s, d, hosts, reports, c, g);
    }
    assert AutoLabel.SwitchNames(d.role, c.switches) == {};
  }

  lemma NothingLocked(s: Syntax, d: RoleTopology, hosts: set<string>, reports: seq<SwitchReport>, c: Cluster,
                      g: DiscoveredGroup)
    requires Lawful(s) && GroupsSeparate(d.groups) && FreshCluster(s, d.role, hosts, reports, d.synthetic, c)
    requires Refer(d.groups, hosts, reports) && NoneNamed(Discovery.SwitchNames(reports), c) && g in d.groups
    ensures Locked(s, c, g) == {} && GroupReadable(s, d, c, g)
  {
    assert s.matchTier(s.render(g.tier)).Some?;
    assert LockedOnNodes(s, c, g) == {} && LockedOnSwitches(c, g) == {};
  }

  /** Plan, write every label and build the status. It fails exactly when no plan can be built;
      otherwise the status mirrors the groups. */
  method LabelAndReport(s: Syntax, w: NodeGroups.Numbering, d: RoleTopology, c: Cluster,
                        previous: seq<NodeGroups.NodeGroup>)
    returns (r: Result<TopologyStatus.Status, string>, names: Names)
    requires Lawful(s) && Hierarchy(d.groups) && Placed(d, c) && OwnLabels(s, d, c) && NextFit(s, d, c)
    ensures r.Ok? <==> Plannable(s, d, c)
    ensures r.Ok? ==> Mirrors(d, c, names, r.value)
    ensures r.Ok? && |previous| + |r.value.groups| <= MAX_INT ==> NodeGroups.Follows(w, previous, r.value.groups)
  {
    var planned;
    planned, names := BuildAutoLabelPlan(s, d, c);
    if planned.Err? {
      return Err("conflict"), names;
    }
    r := WriteAndReport(s, w, d, c, names, planned.value, previous);
  }

  /** Discover, plan, write every label and build the status. It fails exactly when a host has
      the name of a switch with something above it, or no plan can be built for the groups. When
      no switch carries a name, the latter means that a topology known from hosts only has
      several tiers. Otherwise the status mirrors the components of the reported graph. */
  method DiscoverLabelReport(s: Syntax, w: NodeGroups.Numbering, role: string, hosts: set<string>,
                             reports: seq<SwitchReport>, synthetic: set<string>,
                             nodeOnly: bool, digest: set<string> -> string, c: Cluster,
                             previous: seq<NodeGroups.NodeGroup>)
    returns (r: Result<TopologyStatus.Status, string>, names: Names, ghost devices: Devices, ghost adj: Adjacency)
    requires Lawful(s) && NamesTellApart(hosts, reports, digest)
    requires |hosts + Discovery.SwitchNames(reports)| <= MAX_INT32
    requires FreshCluster(s, role, hosts, reports, synthetic, c)
    ensures DiscoveryGraph(hosts, reports, devices, adj)
    ensures var d := RoleTopology(role, HostGroups(devices, adj, digest), synthetic, nodeOnly);
      && (r.Ok? <==> Walkable(devices, adj, hosts) && Plannable(s, d, c))
      && (NoneNamed(Discovery.SwitchNames(reports), c) ==>
            (r.Ok? <==> Walkable(devices, adj, hosts) && (nodeOnly ==> OneTier(d.groups))))
      && (r.Ok? ==> Mirrors(d, c, names, r.value))
    ensures r.Ok? && |previous| + |r.value.groups| <= MAX_INT ==> NodeGroups.Follows(w, previous, r.value.groups)
  {
    names := map[];
    var discovered;
    discovered, devices, adj := DiscoverGroups(hosts, reports, digest);
    if discovered.Err? {
      return Err("groups"), names, devices, adj;
    }
    var d := RoleTopology(role, discovered.value, synthetic, nodeOnly);
    GroupsNameTheirObjects(hosts, reports, devices, adj, digest);
    FewGroups(hosts, reports, devices, adj, digest);
    FreshIsOwn(s, d, hosts, reports, c);
    if NoneNamed(Discovery.SwitchNames(reports), c) {
      FreshIsPlannable(s, d, hosts, reports, c);
    }
    r, names := LabelAndReport(s, w, d, c, previous);
  }

  /** Every write of the plan lands. */
  method WriteAll(s: Syntax, d: RoleTopology, c: Cluster, ghost names: Names, p: Plan) returns (after: Cluster)
    requires Labelling(s, d, c, names, p)
    ensures Written(s, d, after, names) && RoleSwitches(d.role, after).Keys == RoleSwitches(d.role, c).Keys
  {
    PlanForFits(s, d, c, names, p);
    var nodes, switches;
    after, nodes, switches := ApplyPlan(c, p, |p.nodes.Keys| + |p.switches.Keys|);
    if |nodes| + |switches| == |p.nodes.Keys| + |p.switches.Keys| {
      AllOfBoth(nodes, p.nodes.Keys, switches, p.switches.Keys);
    }
    LandKeepsRoles(d.role, c, p, nodes, switches);
    LandedIsWritten(s, d, c, names, p);
  }

  method WriteAndReport(s: Syntax, w: NodeGroups.Numbering, d: RoleTopology, c: Cluster, ghost names: Names, p: Plan,
                        previous: seq<NodeGroups.NodeGroup>)
    returns (r: Result<TopologyStatus.Status, string>)
    requires Labelling(s, d, c, names, p)
    ensures r.Ok? && Mirrors(d, c, names, r.value)
    ensures |previous| + |r.value.groups| <= MAX_INT ==> NodeGroups.Follows(w, previous, r.value.groups)
  {
    var after := WriteAll(s, d, c, names, p);
    DiscoveryIsAcceptable(s, d, after, names);
    var labelled := map x | x in after.switches && after.switches[x].role == d.role :: after.switches[x].domain;
    assert labelled == RoleSwitches(d.role, after);
    r := TopologyStatus.BuildTopologyStatus(s, w, after.nodes, labelled, previous);
    StatusMirrorsDiscovery(s, w, d, after, names, previous, r.value);
    SameMembers(d, c, after, names, r.value);
  }
}
