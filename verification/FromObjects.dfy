/** From FabricNodes and Switches to status: the inputs of discovery are built, the topology
    is discovered, labelled and reported. */
module FromObjects {
  import opened Wrappers
  import opened Decimal
  import opened TopologySpec
  import opened Discovery
  import opened LabelSyntax
  import opened NormalizeGroups
  import opened AutoLabel
  import opened GroupHierarchy
  import opened CrashSafety
  import opened LabelsToStatus
  import opened Pipeline
  import opened MergedPlans
  import opened Sets
  import FreshNumbers
  import Graph
  import Inputs = TopologyInputs
  import LabelTemplate
  import NodeGroups
  import PlanMerge
  import ResourceName
  import TopologyStatus

  // -------------------------------------------------------------------------- reports

  /** Some report of switch `k` names `neighbor`. */
  ghost predicate Reports(reports: seq<SwitchReport>, k: string, neighbor: string) {
    exists i, j ::
      0 <= i < |reports| && 0 <= j < |reports[i].neighbors| && reports[i].name == k
        && reports[i].neighbors[j] == Neighbor(k, neighbor)
  }

  method ListNeighbors(k: string, names: set<string>) returns (neighbors: seq<Neighbor>)
    ensures forall n {:trigger Neighbor(k, n)} :: n in names ==> Neighbor(k, n) in neighbors
    ensures forall i :: 0 <= i < |neighbors| ==> neighbors[i].localDevice == k && neighbors[i].remoteSystem in names
  {
    neighbors := [];
    var todo := names;
    while todo != {}
      invariant todo <= names
      invariant forall n {:trigger Neighbor(k, n)} :: n in names && n !in todo ==> Neighbor(k, n) in neighbors
      invariant forall i :: 0 <= i < |neighbors| ==> neighbors[i].localDevice == k && neighbors[i].remoteSystem in names
      decreases todo
    {
      var n :| n in todo;
      neighbors := neighbors + [Neighbor(k, n)];
      todo := todo - {n};
    }
  }

  /** The report names only neighbours that the map has for its switch. */
  ghost predicate OnlyKnown(switches: map<string, set<string>>, report: SwitchReport) {
    report.name in switches && forall j :: 0 <= j < |report.neighbors| ==>
      report.neighbors[j].localDevice == report.name && report.neighbors[j].remoteSystem in switches[report.name]
  }

  /** The reports say what the map says. */
  ghost predicate ReportsAre(switches: map<string, set<string>>, reports: seq<SwitchReport>) {
    && Discovery.SwitchNames(reports) == switches.Keys
    && (forall i {:trigger reports[i]} :: 0 <= i < |reports| ==> OnlyKnown(switches, reports[i]))
    && (forall k, n {:trigger Reports(reports, k, n)} :: k in switches && n in switches[k] ==> Reports(reports, k, n))
  }

  ghost predicate Listed(switches: map<string, set<string>>, todo: set<string>, reports: seq<SwitchReport>) {
    && (forall i {:trigger reports[i]} :: 0 <= i < |reports| ==>
          reports[i].name in switches && reports[i].name !in todo && OnlyKnown(switches, reports[i]))
    && (forall k, n {:trigger Reports(reports, k, n)} :: k in switches && k !in todo && n in switches[k] ==>
          Reports(reports, k, n))
    && (forall k {:trigger k in Discovery.SwitchNames(reports)} :: k in switches && k !in todo ==>
          k in Discovery.SwitchNames(reports))
  }

  lemma ListOneMore(switches: map<string, set<string>>, todo: set<string>, reports: seq<SwitchReport>, k: string,
                    neighbors: seq<Neighbor>)
    requires Listed(switches, todo, reports) && k in todo && k in switches
    requires forall n {:trigger Neighbor(k, n)} :: n in switches[k] ==> Neighbor(k, n) in neighbors
    requires OnlyKnown(switches, SwitchReport(k, neighbors))
    ensures Listed(switches, todo - {k}, reports + [SwitchReport(k, neighbors)])
  {
    var more := reports + [SwitchReport(k, neighbors)];
    forall x, n | x in switches && x !in todo - {k} && n in switches[x]
      ensures Reports(more, x, n)
    {
      if x == k {
        var j :| 0 <= j < |neighbors| && neighbors[j] == Neighbor(k, n);
        assert more[|reports|].neighbors[j] == Neighbor(k, n);
      } else {
        assert Reports(reports, x, n);
        var i, j :|
          0 <= i < |reports| && 0 <= j < |reports[i].neighbors| && reports[i].name == x
            && reports[i].neighbors[j] == Neighbor(x, n);
        assert more[i] == reports[i];
      }
    }
    forall x | x in switches && x !in todo - {k}
      ensures x in Discovery.SwitchNames(more)
    {
      if x == k {
        assert more[|reports|].name == x;
      } else {
        assert x in Discovery.SwitchNames(reports);
        var i :| 0 <= i < |reports| && reports[i].name == x;
        assert more[i].name == x;
      }
    }
  }

  /** The switches of the inputs, in any order. */
  method ToReports(switches: map<string, set<string>>) returns (reports: seq<SwitchReport>)
    ensures ReportsAre(switches, reports)
  {
    reports := [];
    var todo := switches.Keys;
    while todo != {}
      invariant todo <= switches.Keys && Listed(switches, todo, reports)
      decreases todo
    {
      var k :| k in todo;
      var neighbors := ListNeighbors(k, switches[k]);
      ListOneMore(switches, todo, reports, k, neighbors);
      reports := reports + [SwitchReport(k, neighbors)];
      todo := todo - {k};
    }
    ListedNames(switches, reports);
  }

  lemma ListedNames(switches: map<string, set<string>>, reports: seq<SwitchReport>)
    requires Listed(switches, {}, reports)
    ensures Discovery.SwitchNames(reports) == switches.Keys
  {
    forall k | k in switches
      ensures k in Discovery.SwitchNames(reports)
    {
    }
  }

  // ---------------------------------------------------------------------- what is assumed

  /** The FabricNodes that are also Nodes of the cluster. */
  ghost function Eligible(c: Cluster, nodes: set<Inputs.FabricNode>): set<Inputs.FabricNode> {
    set n | n in nodes && n.name in c.nodes
  }

  lemma EligibleGrow(c: Cluster, nodes: set<Inputs.FabricNode>, n: Inputs.FabricNode)
    ensures Eligible(c, nodes + {n}) == Eligible(c, nodes) + if n.name in c.nodes then {n} else {}
  {
  }

  lemma AppendToSet<T>(s: seq<T>, x: T)
    ensures Inputs.ToSet(s + [x]) == Inputs.ToSet(s) + {x}
  {
    var longer := s + [x];
    Inputs.ToSetGrows(longer, |s|);
    assert longer[..|s|] == s && longer[..|s| + 1] == longer;
  }

  /** The filter in front of the inputs. */
  method EligibleNodes(c: Cluster, nodes: seq<Inputs.FabricNode>) returns (eligible: seq<Inputs.FabricNode>)
    ensures Inputs.ToSet(eligible) == Eligible(c, Inputs.ToSet(nodes))
  {
    eligible := [];
    for i := 0 to |nodes|
      invariant Inputs.ToSet(eligible) == Eligible(c, Inputs.ToSet(nodes[..i]))
    {
      Inputs.ToSetGrows(nodes, i);
      EligibleGrow(c, Inputs.ToSet(nodes[..i]), nodes[i]);
      if nodes[i].name in c.nodes {
        AppendToSet(eligible, nodes[i]);
        eligible := eligible + [nodes[i]];
      }
    }
    assert nodes[..|nodes|] == nodes;
  }

  /** The names that a switch of the role may get. */
  ghost function SwitchUniverse(norm: Inputs.Norm, nodes: set<Inputs.FabricNode>,
                                switches: set<Inputs.SwitchInput>): set<string> {
    Inputs.SwitchNames(switches) + set l | l in Inputs.LinksOf(nodes) :: norm(l.1)
  }

  ghost function Universe(norm: Inputs.Norm, nodes: set<Inputs.FabricNode>,
                          switches: set<Inputs.SwitchInput>): set<string> {
    Inputs.NodeNames(nodes) + SwitchUniverse(norm, nodes, switches)
  }

  /** The Switches of the role exist, and nothing of the role is labelled yet. */
  ghost predicate Ready(s: Syntax, role: string, switches: set<Inputs.SwitchInput>, c: Cluster) {
    Unlabelled(s, role, c) && Inputs.SwitchNames(switches) <= c.switches.Keys
  }

  lemma LinksNameNodes(nodes: set<Inputs.FabricNode>, l: Inputs.Link)
    requires l in Inputs.LinksOf(nodes)
    ensures l.0 in Inputs.NodeNames(nodes)
  {
    var n :| n in nodes && l in Inputs.LinksIn(n, |n.nics|);
  }

  /** The inputs name hosts and switches of the universe only. */
  lemma InputsStayInside(c: Inputs.Context, nodes: set<Inputs.FabricNode>, switches: set<Inputs.SwitchInput>)
    requires c.names == Inputs.SwitchNames(switches)
    ensures var i := Inputs.InputsOf(c, nodes, switches);
      && i.hosts <= Inputs.NodeNames(nodes)
      && i.switches.Keys == c.names + i.synthetic && i.switches.Keys <= SwitchUniverse(c.norm, nodes, switches)
  {
    var links := Inputs.LinksOf(nodes);
    forall h | h in Inputs.HostsOf(c, links)
      ensures h in Inputs.NodeNames(nodes)
    {
      var l :| l in links && Inputs.Canonical(c, l.1).Some? && l.0 == h;
      LinksNameNodes(nodes, l);
    }
  }

  /** Without Switches every switch of the inputs is known from a host. */
  lemma NodeOnlySeesHosts(c: Inputs.Context, nodes: set<Inputs.FabricNode>, k: string) returns (h: string)
    requires c.names == {} && "" !in Inputs.NodeNames(nodes) && k in Inputs.InputsOf(c, nodes, {}).switches
    ensures var i := Inputs.InputsOf(c, nodes, {}); h in i.hosts && h in i.switches[k] && h in Inputs.NodeNames(nodes)
  {
    var links := Inputs.LinksOf(nodes);
    assert k in Inputs.SyntheticOf(c, links);
    var l :| l in links && Inputs.IsSynthetic(c, l.1) && c.norm(l.1) == k;
    LinksNameNodes(nodes, l);
    h := l.0;
    assert Inputs.Canonical(c, l.1) == Some(k);
    assert h in Inputs.HostsOn(c, links, k);
  }

  /** Where no name is both a node's and a switch's, nothing but the inputs can fail. */
  lemma DisjointNamesRun(x: Inputs.Context, nodes: set<Inputs.FabricNode>, switches: set<Inputs.SwitchInput>,
                         reports: seq<SwitchReport>,
                         devices: Devices, adj: Graph.Adjacency, digest: set<string> -> string)
    requires x.names == Inputs.SwitchNames(switches) && "" !in Inputs.NodeNames(nodes)
    requires Inputs.NodeNames(nodes) !! SwitchUniverse(x.norm, nodes, switches)
    requires var i := Inputs.InputsOf(x, nodes, switches);
      ReportsAre(i.switches, reports) && DiscoveryGraph(i.hosts, reports, devices, adj)
    ensures Walkable(devices, adj, Inputs.InputsOf(x, nodes, switches).hosts)
    ensures switches == {} ==> OneTier(HostGroups(devices, adj, digest))
  {
    var i := Inputs.InputsOf(x, nodes, switches);
    InputsStayInside(x, nodes, switches);
    DisjointNamesAreWalkable(i.hosts, reports, devices, adj);
    if switches == {} {
      AllSwitchesSeeHosts(x, nodes, reports);
      AllSeeHostsGivesOneTier(i.hosts, reports, devices, adj, digest);
    }
  }

  lemma AllSwitchesSeeHosts(c: Inputs.Context, nodes: set<Inputs.FabricNode>, reports: seq<SwitchReport>)
    requires c.names == {} && "" !in Inputs.NodeNames(nodes)
      && Inputs.NodeNames(nodes) !! SwitchUniverse(c.norm, nodes, {})
    requires ReportsAre(Inputs.InputsOf(c, nodes, {}).switches, reports)
    ensures AllSeeHosts(Inputs.InputsOf(c, nodes, {}).hosts, reports)
  {
    var i := Inputs.InputsOf(c, nodes, {});
    InputsStayInside(c, nodes, {});
    forall k | k in Discovery.SwitchNames(reports)
      ensures exists x, y :: ShowsHost(i.hosts, reports, k, x, y)
    {
      var h := NodeOnlySeesHosts(c, nodes, k);
      assert Reports(reports, k, h);
      var x, y :|
        0 <= x < |reports| && 0 <= y < |reports[x].neighbors| && reports[x].name == k
          && reports[x].neighbors[y] == Neighbor(k, h);
      assert ShowsHost(i.hosts, reports, k, x, y);
    }
  }

  // ------------------------------------------------------------------------- discovery

  /** Whatever inputs are built and in whatever order their switches are reported, the digest
      tells the groups of the graph apart. */
  ghost predicate DigestFits(norm: Inputs.Norm, nodes: set<Inputs.FabricNode>, switches: seq<Inputs.SwitchInput>,
                             digest: set<string> -> string) {
    forall i, reports {:trigger Inputs.IsResult(norm, nodes, switches, Ok(i)), ReportsAre(i.switches, reports)} ::
      Inputs.IsResult(norm, nodes, switches, Ok(i)) && ReportsAre(i.switches, reports) ==>
      NamesTellApart(i.hosts, reports, digest)
  }

  /** What is asked of the inputs of one role. */
  ghost predicate Discoverable(norm: Inputs.Norm, nodes: set<Inputs.FabricNode>, switches: seq<Inputs.SwitchInput>,
                               digest: set<string> -> string) {
    && Inputs.Idempotent(norm) && DigestFits(norm, nodes, switches, digest)
    && |Universe(norm, nodes, Inputs.ToSet(switches))| <= MAX_INT32
  }

  /** The graph of the built inputs. */
  ghost predicate GraphOf(i: Inputs.Inputs, reports: seq<SwitchReport>, devices: Devices, adj: Graph.Adjacency) {
    ReportsAre(i.switches, reports) && DiscoveryGraph(i.hosts, reports, devices, adj)
  }

  /** The discovered topology of a role. */
  ghost function Found(role: string, i: Inputs.Inputs, devices: Devices, adj: Graph.Adjacency,
                       digest: set<string> -> string): RoleTopology {
    RoleTopology(role, HostGroups(devices, adj, digest), i.synthetic, i.nodeOnly)
  }

  lemma InputsFit(norm: Inputs.Norm, nodes: set<Inputs.FabricNode>, switches: seq<Inputs.SwitchInput>,
                  i: Inputs.Inputs, reports: seq<SwitchReport>)
    requires Inputs.IsResult(norm, nodes, switches, Ok(i)) && ReportsAre(i.switches, reports)
    ensures i.hosts <= Inputs.NodeNames(nodes)
    ensures Discovery.SwitchNames(reports) == Inputs.SwitchNames(Inputs.ToSet(switches)) + i.synthetic
    ensures |i.hosts + Discovery.SwitchNames(reports)| <= |Universe(norm, nodes, Inputs.ToSet(switches))|
  {
    var all := Inputs.ToSet(switches);
    var byKey :| Inputs.IndexesLast(norm, switches, byKey)
      && Inputs.ResultFor(Inputs.ContextOf(norm, all, byKey), nodes, all, Ok(i));
    InputsStayInside(Inputs.ContextOf(norm, all, byKey), nodes, all);
    SubsetSize(i.hosts + Discovery.SwitchNames(reports), Universe(norm, nodes, all));
  }

  /** Build the inputs of a role and discover its topology: fails exactly when the inputs cannot
      be built or a host has the name of a switch with something above it. */
  method DiscoverRole(norm: Inputs.Norm, role: string, nodes: seq<Inputs.FabricNode>,
                      switches: seq<Inputs.SwitchInput>, digest: set<string> -> string)
    returns (built: Result<Inputs.Inputs, Inputs.InputError>, r: Result<RoleTopology, string>,
             ghost reports: seq<SwitchReport>, ghost devices: Devices, ghost adj: Graph.Adjacency)
    requires Discoverable(norm, Inputs.ToSet(nodes), switches, digest)
    ensures Inputs.IsResult(norm, Inputs.ToSet(nodes), switches, built)
    ensures built.Ok? ==> GraphOf(built.value, reports, devices, adj)
    ensures r.Ok? <==> built.Ok? && Walkable(devices, adj, built.value.hosts)
    ensures r.Ok? ==> r.value == Found(role, built.value, devices, adj, digest) && Hierarchy(r.value.groups)
    ensures r.Ok? ==> Refer(r.value.groups, built.value.hosts, reports) && |r.value.groups| <= MAX_INT
  {
    reports, devices, adj := [], map[], map[];
    built := Inputs.BuildTopologyInputs(norm, nodes, switches);
    if built.Err? {
      return built, Err("inputs"), reports, devices, adj;
    }
    var i := built.value;
    var listed := ToReports(i.switches);
    reports := listed;
    InputsFit(norm, Inputs.ToSet(nodes), switches, i, listed);
    var discovered;
    discovered, devices, adj := DiscoverGroups(i.hosts, listed, digest);
    if discovered.Err? {
      return built, Err("groups"), reports, devices, adj;
    }
    GroupsNameTheirObjects(i.hosts, listed, devices, adj, digest);
    FewGroups(i.hosts, listed, devices, adj, digest);
    r := Ok(RoleTopology(role, discovered.value, i.synthetic, i.nodeOnly));
  }

  // ------------------------------------------------------------------------ one whole run

  lemma InputsAreFresh(norm: Inputs.Norm, s: Syntax, role: string, nodes: set<Inputs.FabricNode>,
                       switches: seq<Inputs.SwitchInput>, c: Cluster, i: Inputs.Inputs, reports: seq<SwitchReport>)
    requires Ready(s, role, Inputs.ToSet(switches), c) && Inputs.NodeNames(nodes) <= c.nodes.Keys
    requires Inputs.IsResult(norm, nodes, switches, Ok(i)) && ReportsAre(i.switches, reports)
    ensures FreshCluster(s, role, i.hosts, reports, i.synthetic, c)
  {
    InputsFit(norm, nodes, switches, i, reports);
  }

  /** The walk over the hosts succeeds and a plan can be built. */
  ghost predicate Passes(s: Syntax, role: string, i: Inputs.Inputs, devices: Devices, adj: Graph.Adjacency,
                         digest: set<string> -> string, c: Cluster) {
    Walkable(devices, adj, i.hosts) && Plannable(s, Found(role, i, devices, adj, digest), c)
  }

  /** Filter the nodes, build the inputs, discover, label and report. The run fails exactly
      when the inputs cannot be built, a host has the name of a switch with something above
      it, or no plan can be built for the groups. When no node has the name of a switch and no
      switch carries a name, only the first is left. Otherwise the status mirrors the groups. */
  method ReconcileRole(norm: Inputs.Norm, s: Syntax, w: NodeGroups.Numbering, role: string,
                       nodes: seq<Inputs.FabricNode>, switches: seq<Inputs.SwitchInput>,
                       digest: set<string> -> string, c: Cluster, previous: seq<NodeGroups.NodeGroup>)
    returns (built: Result<Inputs.Inputs, Inputs.InputError>, r: Result<TopologyStatus.Status, string>, names: Names,
             ghost reports: seq<SwitchReport>, ghost devices: Devices, ghost adj: Graph.Adjacency)
    requires Lawful(s) && Ready(s, role, Inputs.ToSet(switches), c)
    requires Discoverable(norm, Eligible(c, Inputs.ToSet(nodes)), switches, digest)
    ensures Inputs.IsResult(norm, Eligible(c, Inputs.ToSet(nodes)), switches, built)
    ensures built.Ok? ==> GraphOf(built.value, reports, devices, adj)
    ensures r.Ok? <==> built.Ok? && Passes(s, role, built.value, devices, adj, digest, c)
    ensures SharesNoName(norm, Eligible(c, Inputs.ToSet(nodes)), Inputs.ToSet(switches)) ==>
      NoneNamed(Discovery.SwitchNames(reports), c) ==> (r.Ok? <==> built.Ok?)
    ensures r.Ok? ==> Mirrors(Found(role, built.value, devices, adj, digest), c, names, r.value)
    ensures r.Ok? && |previous| + |r.value.groups| <= MAX_INT ==> NodeGroups.Follows(w, previous, r.value.groups)
  {
    names := map[];
    var eligible := EligibleNodes(c, nodes);
    var found;
    built, found, reports, devices, adj := DiscoverRole(norm, role, eligible, switches, digest);
    if built.Ok? {
      InputsAreFresh(norm, s, role, Eligible(c, Inputs.ToSet(nodes)), switches, c, built.value, reports);
      if SharesNoName(norm, Eligible(c, Inputs.ToSet(nodes)), Inputs.ToSet(switches)) {
        SharesNoNamePasses(norm, Eligible(c, Inputs.ToSet(nodes)), switches, built.value, reports, devices, adj,
          digest);
      }
    }
    if found.Err? {
      return built, Err(found.error), names, reports, devices, adj;
    }
    var d := found.value;
    FreshIsOwn(s, d, built.value.hosts, reports, c);
    if NoneNamed(Discovery.SwitchNames(reports), c) {
      FreshIsPlannable(s, d, built.value.hosts, reports, c);
    }
    r, names := LabelAndReport(s, w, d, c, previous);
  }

  /** No node has the name of a switch, or none at all. */
  ghost predicate SharesNoName(norm: Inputs.Norm, nodes: set<Inputs.FabricNode>, switches: set<Inputs.SwitchInput>) {
    "" !in Inputs.NodeNames(nodes) && Inputs.NodeNames(nodes) !! SwitchUniverse(norm, nodes, switches)
  }

  lemma SharesNoNamePasses(norm: Inputs.Norm, nodes: set<Inputs.FabricNode>, switches: seq<Inputs.SwitchInput>,
                           i: Inputs.Inputs, reports: seq<SwitchReport>, devices: Devices, adj: Graph.Adjacency,
                           digest: set<string> -> string)
    requires SharesNoName(norm, nodes, Inputs.ToSet(switches)) && Inputs.IsResult(norm, nodes, switches, Ok(i))
    requires GraphOf(i, reports, devices, adj)
    ensures Walkable(devices, adj, i.hosts) && (i.nodeOnly ==> OneTier(HostGroups(devices, adj, digest)))
  {
    var byKey :| Inputs.IndexesLast(norm, switches, byKey) &&
      Inputs.ResultFor(Inputs.ContextOf(norm, Inputs.ToSet(switches), byKey), nodes, Inputs.ToSet(switches), Ok(i));
    DisjointNamesRun(Inputs.ContextOf(norm, Inputs.ToSet(switches), byKey), nodes, Inputs.ToSet(switches), reports,
      devices, adj, digest);
  }

  // --------------------------------------------------------------- the configured syntax

  function RealNorm(): Inputs.Norm {
    s => ResourceName.Normalize(s)
  }

  /** The same run with the label template, the group numbering and the name normalization of
      the program. */
  method ReconcileConfiguredRole(t: LabelTemplate.Template, role: string, nodes: seq<Inputs.FabricNode>,
                                 switches: seq<Inputs.SwitchInput>,
                                 digest: set<string> -> string, c: Cluster, previous: seq<NodeGroups.NodeGroup>)
    returns (built: Result<Inputs.Inputs, Inputs.InputError>, r: Result<TopologyStatus.Status, string>, names: Names,
             ghost reports: seq<SwitchReport>, ghost devices: Devices, ghost adj: Graph.Adjacency)
    requires Ready(Real(t), role, Inputs.ToSet(switches), c)
    requires DigestFits(RealNorm(), Eligible(c, Inputs.ToSet(nodes)), switches, digest)
    requires |Universe(RealNorm(), Eligible(c, Inputs.ToSet(nodes)), Inputs.ToSet(switches))| <= MAX_INT32
    ensures Inputs.IsResult(RealNorm(), Eligible(c, Inputs.ToSet(nodes)), switches, built)
    ensures built.Ok? ==> GraphOf(built.value, reports, devices, adj)
    ensures r.Ok? <==> built.Ok? && Passes(Real(t), role, built.value, devices, adj, digest, c)
    ensures r.Ok? ==> Mirrors(Found(role, built.value, devices, adj, digest), c, names, r.value)
    ensures r.Ok? && |previous| + |r.value.groups| <= MAX_INT ==>
      NodeGroups.WellNamed(NodeGroups.RealNumbering(), previous) ==>
      NodeGroups.WellNamed(NodeGroups.RealNumbering(), r.value.groups)
  {
    RealIsLawful(t);
    Inputs.RealNormIsIdempotent();
    built, r, names, reports, devices, adj :=
      ReconcileRole(RealNorm(), Real(t), NodeGroups.RealNumbering(), role, nodes, switches, digest, c, previous);
    NodeGroups.RealNumberingIsLawful();
    if r.Ok? && NodeGroups.WellNamed(NodeGroups.RealNumbering(), previous) && |previous| + |r.value.groups| <= MAX_INT {
      NodeGroups.FollowerIsWellNamed(NodeGroups.RealNumbering(), previous, r.value.groups);
    }
  }

  // --------------------------------------------------- both roles, interrupted anywhere

  /** A role and what discovery reads for it. */
  datatype RoleInput = RoleInput(role: string, nodes: seq<Inputs.FabricNode>, switches: seq<Inputs.SwitchInput>)

  /** Discovery of the role ends with this topology. */
  ghost predicate Discovers(norm: Inputs.Norm, x: RoleInput, digest: set<string> -> string, c: Cluster,
                            d: RoleTopology) {
    exists i, reports, devices, adj :: DiscoversIn(norm, x, digest, c, d, i, reports, devices, adj)
  }

  ghost predicate DiscoversIn(norm: Inputs.Norm, x: RoleInput, digest: set<string> -> string, c: Cluster,
                              d: RoleTopology, i: Inputs.Inputs, reports: seq<SwitchReport>, devices: Devices,
                              adj: Graph.Adjacency) {
    && Inputs.IsResult(norm, Eligible(c, Inputs.ToSet(x.nodes)), x.switches, Ok(i))
    && GraphOf(i, reports, devices, adj) && Walkable(devices, adj, i.hosts)
    && d == Found(x.role, i, devices, adj, digest)
  }

  /** Discovery of the role fails: its inputs cannot be built, or a walk fails. */
  ghost predicate DiscoveryFails(norm: Inputs.Norm, x: RoleInput, c: Cluster) {
    exists built, reports, devices, adj :: FailsIn(norm, x, c, built, reports, devices, adj)
  }

  ghost predicate FailsIn(norm: Inputs.Norm, x: RoleInput, c: Cluster, built: Result<Inputs.Inputs, Inputs.InputError>,
                          reports: seq<SwitchReport>, devices: Devices, adj: Graph.Adjacency) {
    && Inputs.IsResult(norm, Eligible(c, Inputs.ToSet(x.nodes)), x.switches, built)
    && (built.Ok? ==> GraphOf(built.value, reports, devices, adj) && !Walkable(devices, adj, built.value.hosts))
  }

  ghost predicate InputReady(norm: Inputs.Norm, s: Syntax, x: RoleInput, digest: set<string> -> string, c: Cluster) {
    && Lawful(s) && Ready(s, x.role, Inputs.ToSet(x.switches), c)
    && Discoverable(norm, Eligible(c, Inputs.ToSet(x.nodes)), x.switches, digest)
  }

  method DiscoverFresh(norm: Inputs.Norm, s: Syntax, x: RoleInput, digest: set<string> -> string, c: Cluster)
    returns (r: Result<RoleTopology, string>)
    requires InputReady(norm, s, x, digest, c)
    ensures r.Ok? ==> Discovers(norm, x, digest, c, r.value) && Fresh(Managed(s, r.value), c)
    ensures r.Err? ==> DiscoveryFails(norm, x, c)
  {
    var eligible := EligibleNodes(c, x.nodes);
    var built;
    ghost var reports, devices, adj;
    built, r, reports, devices, adj := DiscoverRole(norm, x.role, eligible, x.switches, digest);
    if r.Ok? {
      InputsAreFresh(norm, s, x.role, Eligible(c, Inputs.ToSet(x.nodes)), x.switches, c, built.value, reports);
      FreshIsOwn(s, r.value, built.value.hosts, reports, c);
      assert DiscoversIn(norm, x, digest, c, r.value, built.value, reports, devices, adj);
    } else {
      assert FailsIn(norm, x, c, built, reports, devices, adj);
    }
  }

  /** The discovered topologies can be reconciled together. */
  ghost predicate GoTogether(norm: Inputs.Norm, s: Syntax, x: RoleInput, u: Syntax, y: RoleInput,
                             digest: set<string> -> string, c: Cluster) {
    forall d, e {:trigger Discovers(norm, x, digest, c, d), Discovers(norm, y, digest, c, e)} ::
      Discovers(norm, x, digest, c, d) && Discovers(norm, y, digest, c, e) ==>
      BothGoing(Managed(s, d), Managed(u, e), c)
  }

  /** Nothing of another role is mistaken for a switch of this one, and no node for a switch. */
  ghost predicate Clean(norm: Inputs.Norm, x: RoleInput, c: Cluster) {
    var nodes, switches := Eligible(c, Inputs.ToSet(x.nodes)), Inputs.ToSet(x.switches);
    && SharesNoName(norm, nodes, switches)
    && (forall w {:trigger c.switches[w]} :: w in SwitchUniverse(norm, nodes, switches) && w in c.switches ==>
          c.switches[w].role == x.role)
  }

  lemma FewEnough(n: nat)
    requires n <= MAX_INT32
    ensures FreshNumbers.Reach(n) <= MAX_INT
  {
    FreshNumbers.ReachGrows(n, MAX_INT32);
    FreshNumbers.ReachIsHalfSquare(MAX_INT32);
  }

  lemma ReportsStayInside(norm: Inputs.Norm, nodes: set<Inputs.FabricNode>, switches: seq<Inputs.SwitchInput>,
                          i: Inputs.Inputs, reports: seq<SwitchReport>)
    requires Inputs.IsResult(norm, nodes, switches, Ok(i)) && ReportsAre(i.switches, reports)
    ensures Discovery.SwitchNames(reports) <= SwitchUniverse(norm, nodes, Inputs.ToSet(switches))
  {
    var all := Inputs.ToSet(switches);
    var byKey :| Inputs.IndexesLast(norm, switches, byKey)
      && Inputs.ResultFor(Inputs.ContextOf(norm, all, byKey), nodes, all, Ok(i));
    InputsStayInside(Inputs.ContextOf(norm, all, byKey), nodes, all);
  }

  lemma FoundIsHierarchy(hosts: set<string>, reports: seq<SwitchReport>, devices: Devices, adj: Graph.Adjacency,
                         digest: set<string> -> string)
    requires NamesTellApart(hosts, reports, digest) && DiscoveryGraph(hosts, reports, devices, adj)
    requires |hosts + Discovery.SwitchNames(reports)| <= MAX_INT32
    ensures Hierarchy(HostGroups(devices, adj, digest)) && Refer(HostGroups(devices, adj, digest), hosts, reports)
    ensures FreshNumbers.Reach(|HostGroups(devices, adj, digest)|) <= MAX_INT
  {
    TiersFitDevices(devices, adj);
    HostGroupsFormHierarchy(devices, adj, digest);
    GroupsNameTheirObjects(hosts, reports, devices, adj, digest);
    FewGroups(hosts, reports, devices, adj, digest);
    FewEnough(|HostGroups(devices, adj, digest)|);
  }

  lemma ReferredAreOwn(s: Syntax, d: RoleTopology, hosts: set<string>, reports: seq<SwitchReport>, c: Cluster)
    requires Lawful(s) && Hierarchy(d.groups) && Refer(d.groups, hosts, reports) && (d.nodeOnly ==> OneTier(d.groups))
    requires FreshCluster(s, d.role, hosts, reports, d.synthetic, c)
    requires forall w {:trigger c.switches[w]} :: w in Discovery.SwitchNames(reports) && w in c.switches ==>
      c.switches[w].role == d.role
    ensures OwnObjects(Managed(s, d), c)
  {
  }

  lemma FoundIsOwn(norm: Inputs.Norm, s: Syntax, x: RoleInput, digest: set<string> -> string, c: Cluster,
                   d: RoleTopology, i: Inputs.Inputs, reports: seq<SwitchReport>, devices: Devices,
                   adj: Graph.Adjacency)
    requires InputReady(norm, s, x, digest, c) && Clean(norm, x, c)
    requires DiscoversIn(norm, x, digest, c, d, i, reports, devices, adj)
    ensures OwnObjects(Managed(s, d), c) && FreshNumbers.Reach(|d.groups|) <= MAX_INT
  {
    var nodes := Eligible(c, Inputs.ToSet(x.nodes));
    InputsFit(norm, nodes, x.switches, i, reports);
    ReportsStayInside(norm, nodes, x.switches, i, reports);
    SharesNoNamePasses(norm, nodes, x.switches, i, reports, devices, adj, digest);
    InputsAreFresh(norm, s, x.role, nodes, x.switches, c, i, reports);
    FoundIsHierarchy(i.hosts, reports, devices, adj, digest);
    ReferredAreOwn(s, d, i.hosts, reports, c);
  }

  /** Clean inputs of two roles whose templates share no key always go together. */
  lemma CleanRolesGoTogether(norm: Inputs.Norm, s: Syntax, x: RoleInput, u: Syntax, y: RoleInput,
                             digest: set<string> -> string, c: Cluster)
    requires InputReady(norm, s, x, digest, c) && Clean(norm, x, c)
    requires InputReady(norm, u, y, digest, c) && Clean(norm, y, c)
    requires x.role != y.role && PlanMerge.KeysApart(s, u) && SameNames(s, u)
    ensures GoTogether(norm, s, x, u, y, digest, c)
  {
    forall d, e | Discovers(norm, x, digest, c, d) && Discovers(norm, y, digest, c, e)
      ensures BothGoing(Managed(s, d), Managed(u, e), c)
    {
      var i, reports, devices, adj :| DiscoversIn(norm, x, digest, c, d, i, reports, devices, adj);
      FoundIsOwn(norm, s, x, digest, c, d, i, reports, devices, adj);
      var j, others, things, links :| DiscoversIn(norm, y, digest, c, e, j, others, things, links);
      FoundIsOwn(norm, u, y, digest, c, e, j, others, things, links);
      FreshRolesGo(Managed(s, d), Managed(u, e), c);
    }
  }

  /** From FabricNodes and Switches of two roles, through any number of interrupted reconciles and
      one complete one, to both statuses: only discovery can fail, and each status mirrors it. */
  method ReconcileBothRoles(norm: Inputs.Norm, s: Syntax, x: RoleInput, u: Syntax, y: RoleInput,
                            v: NodeGroups.Numbering, w: NodeGroups.Numbering, digest: set<string> -> string, c: Cluster,
                            stops: seq<nat>, xPrevious: seq<NodeGroups.NodeGroup>, yPrevious: seq<NodeGroups.NodeGroup>)
    returns (r: Result<(TopologyStatus.Status, TopologyStatus.Status), string>, d: RoleTopology, e: RoleTopology,
             ghost xNames: Names, ghost yNames: Names)
    requires InputReady(norm, s, x, digest, c) && InputReady(norm, u, y, digest, c)
    requires GoTogether(norm, s, x, u, y, digest, c)
    ensures r.Err? ==> DiscoveryFails(norm, x, c) || DiscoveryFails(norm, y, c)
    ensures r.Ok? ==> Discovers(norm, x, digest, c, d) && Discovers(norm, y, digest, c, e)
    ensures r.Ok? ==> Mirrors(d, c, xNames, r.value.0) && Mirrors(e, c, yNames, r.value.1)
  {
    d, e := RoleTopology(x.role, {}, {}, false), RoleTopology(y.role, {}, {}, false);
    xNames, yNames := map[], map[];
    var first := DiscoverFresh(norm, s, x, digest, c);
    if first.Err? {
      r := Err(first.error);
      return;
    }
    var second := DiscoverFresh(norm, u, y, digest, c);
    if second.Err? {
      r := Err(second.error);
      return;
    }
    d, e := first.value, second.value;
    var xStatus, yStatus;
    xStatus, yStatus, xNames, yNames :=
      ReconcileUntilDone(Managed(s, d), Managed(u, e), v, w, c, stops, xPrevious, yPrevious);
    r := Ok((xStatus, yStatus));
  }

  ghost predicate InputsFail(norm: Inputs.Norm, x: RoleInput, c: Cluster) {
    exists built {:trigger Inputs.IsResult(norm, Eligible(c, Inputs.ToSet(x.nodes)), x.switches, built)} ::
      Inputs.IsResult(norm, Eligible(c, Inputs.ToSet(x.nodes)), x.switches, built) && built.Err?
  }

  /** On clean inputs a walk never fails. */
  lemma OnlyInputsFail(norm: Inputs.Norm, x: RoleInput, digest: set<string> -> string, c: Cluster)
    requires Clean(norm, x, c) && DiscoveryFails(norm, x, c)
    ensures InputsFail(norm, x, c)
  {
    var built, reports, devices, adj :| FailsIn(norm, x, c, built, reports, devices, adj);
    if built.Ok? {
      SharesNoNamePasses(norm, Eligible(c, Inputs.ToSet(x.nodes)), x.switches, built.value, reports, devices, adj,
        digest);
    }
  }

  /** The same on clean inputs of two roles: nothing fails but the building of the inputs. */
  method ReconcileCleanRoles(norm: Inputs.Norm, s: Syntax, x: RoleInput, u: Syntax, y: RoleInput,
                             v: NodeGroups.Numbering, w: NodeGroups.Numbering, digest: set<string> -> string,
                             c: Cluster, stops: seq<nat>, xPrevious: seq<NodeGroups.NodeGroup>,
                             yPrevious: seq<NodeGroups.NodeGroup>)
    returns (r: Result<(TopologyStatus.Status, TopologyStatus.Status), string>, d: RoleTopology, e: RoleTopology,
             ghost xNames: Names, ghost yNames: Names)
    requires InputReady(norm, s, x, digest, c) && Clean(norm, x, c)
    requires InputReady(norm, u, y, digest, c) && Clean(norm, y, c)
    requires x.role != y.role && PlanMerge.KeysApart(s, u) && SameNames(s, u)
    ensures r.Err? ==> InputsFail(norm, x, c) || InputsFail(norm, y, c)
    ensures r.Ok? ==> Discovers(norm, x, digest, c, d) && Discovers(norm, y, digest, c, e)
    ensures r.Ok? ==> Mirrors(d, c, xNames, r.value.0) && Mirrors(e, c, yNames, r.value.1)
  {
    CleanRolesGoTogether(norm, s, x, u, y, digest, c);
    r, d, e, xNames, yNames := ReconcileBothRoles(norm, s, x, u, y, v, w, digest, c, stops, xPrevious, yPrevious);
    if r.Err? {
      if DiscoveryFails(norm, x, c) {
        OnlyInputsFail(norm, x, digest, c);
      } else {
        OnlyInputsFail(norm, y, digest, c);
      }
    }
  }
}
