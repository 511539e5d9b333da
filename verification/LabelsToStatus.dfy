/** From discovery to status: once a plan has landed completely, the labels read back as
    exactly the hierarchy that was discovered. */
module LabelsToStatus {
  import opened Wrappers
  import opened Decimal
  import opened LabelSyntax
  import opened NormalizeGroups
  import opened AutoLabel
  import opened AutoLabelPlan
  import opened CrashSafety
  import opened GroupHierarchy
  import opened StatusPaths
  import opened StatusForest
  import opened NodeGroups
  import TopologyStatus

  type Names = map<DiscoveredGroup, string>

  /** Every host of a group is a Node, and tiers fit the status API. */
  ghost predicate Placed(d: RoleTopology, c: Cluster) {
    forall g :: g in d.groups ==> g.nodes <= c.nodes.Keys && g.tier <= MAX_INT32
  }

  /** Different names for different groups, each of the tier of its group. */
  ghost predicate GoodNames(s: Syntax, groups: set<DiscoveredGroup>, names: Names) {
    && names.Keys == groups
    && (forall g {:trigger names[g]} :: g in names ==> NamesTier(s, names[g], g.tier))
    && (forall g, h :: g in names && h in names && names[g] == names[h] ==> g == h)
  }

  ghost predicate NamedAt(groups: set<DiscoveredGroup>, names: Names, n: string, tier: int, v: string) {
    exists g :: GroupAt(groups, n, tier, g) && g in names && names[g] == v
  }

  ghost predicate NamedMember(groups: set<DiscoveredGroup>, names: Names, w: string, v: string) {
    exists g :: g in groups && w in g.members && g in names && names[g] == v
  }

  /** The label of a tier on a Node is the name of its group of that tier, and absent without one. */
  ghost predicate NodeReads(s: Syntax, groups: set<DiscoveredGroup>, names: Names, n: string, labels: Labels,
                            tier: int) {
    if HasGroupAt(groups, n, tier) then NamedAt(groups, names, n, tier, TierValue(s, labels, tier))
      else TierValue(s, labels, tier) == ""
  }

  ghost predicate SwitchReads(groups: set<DiscoveredGroup>, names: Names, w: string, domain: string) {
    if IsMember(groups, w) then NamedMember(groups, names, w, domain) else domain == ""
  }

  /** The domain labels of the Switches of a role. */
  ghost function RoleSwitches(role: string, c: Cluster): TopologyStatus.Switches {
    map w | w in c.switches && c.switches[w].role == role :: c.switches[w].domain
  }

  /** Writing labels changes no role. */
  lemma LandKeepsRoles(role: string, c: Cluster, p: Plan, nodes: set<string>, switches: set<string>)
    ensures RoleSwitches(role, Land(c, p, nodes, switches)).Keys == RoleSwitches(role, c).Keys
  {
  }

  lemma KeptRoles(role: string, a: Cluster, b: Cluster)
    requires LabelsKept(a, b)
    ensures RoleSwitches(role, a).Keys == RoleSwitches(role, b).Keys
  {
    assert forall w :: w in RoleSwitches(role, a) <==> w in RoleSwitches(role, b);
  }

  /** The labels in the cluster are exactly those of the hierarchy, under these names. */
  ghost predicate Written(s: Syntax, d: RoleTopology, c: Cluster, names: Names) {
    && Lawful(s) && Hierarchy(d.groups) && Placed(d, c) && GoodNames(s, d.groups, names)
    && (forall n, t {:trigger NodeReads(s, d.groups, names, n, c.nodes[n], t)} ::
          n in c.nodes && 1 <= t <= MAX_INT ==> NodeReads(s, d.groups, names, n, c.nodes[n], t))
    && (forall w {:trigger c.switches[w]} :: w in c.switches && c.switches[w].role == d.role ==>
          SwitchReads(d.groups, names, w, c.switches[w].domain))
  }

  // --------------------------------------------------------------- a plan that has landed

  /** The cluster once every patch of the plan has landed. */
  ghost function Landed(c: Cluster, p: Plan): Cluster {
    Land(c, p, p.nodes.Keys, p.switches.Keys)
  }

  /** A plan for a cluster that carries no labels but those of the groups. */
  ghost predicate Labelling(s: Syntax, d: RoleTopology, c: Cluster, names: Names, p: Plan) {
    && Lawful(s) && Hierarchy(d.groups) && Placed(d, c)
    && OwnLabels(s, d, c) && PlanFor(s, d, c, names, p)
  }

  lemma PlannedNames(s: Syntax, d: RoleTopology, c: Cluster, names: Names)
    requires SoundNames(s, d, c, names)
    ensures GoodNames(s, d.groups, names)
  {
    forall g | g in names
      ensures NamesTier(s, names[g], g.tier)
    {
      assert NameFits(s, d, c, g, names[g]);
    }
  }

  lemma GroupLabels(s: Syntax, d: RoleTopology, c: Cluster, names: Names, p: Plan, n: string, g: DiscoveredGroup)
    requires PlanFor(s, d, c, names, p) && n in c.nodes && GroupAt(d.groups, n, g.tier, g)
    ensures TierValue(s, Landed(c, p).nodes[n], g.tier) == names[g]
  {
    var k := s.render(g.tier);
    assert NameFits(s, d, c, g, names[g]);
    if k in c.nodes[n] {
      PlanForFits(s, d, c, names, p);
      LandKeepsLabels(c, p, p.nodes.Keys, p.switches.Keys);
      assert c.nodes[n][k] in Locked(s, c, g);
    } else {
      assert LacksKey(s, c, g, n);
      assert NodeEntry(p, n, k) == Some(names[g]);
    }
  }

  lemma OwnLabelHasGroup(s: Syntax, d: RoleTopology, c: Cluster, n: string, k: string)
    requires OwnLabels(s, d, c) && n in c.nodes && k in c.nodes[n] && s.matchTier(k).Some?
    ensures HasGroupAt(d.groups, n, s.matchTier(k).value)
  {
    var v := c.nodes[n][k];
  }

  lemma NoOtherLabels(s: Syntax, d: RoleTopology, c: Cluster, names: Names, p: Plan, n: string, tier: int)
    requires Labelling(s, d, c, names, p) && n in c.nodes && 1 <= tier <= MAX_INT && !HasGroupAt(d.groups, n, tier)
    ensures TierValue(s, Landed(c, p).nodes[n], tier) == ""
  {
    var k := s.render(tier);
    assert s.matchTier(k) == Some(tier);
    if k in c.nodes[n] {
      OwnLabelHasGroup(s, d, c, n, k);
    } else if NodeEntry(p, n, k).Some? {
      var g := LandedOnNode(s, d, c, names, p, n, k);
      assert s.matchTier(s.render(g.tier)) == Some(g.tier);
      assert GroupAt(d.groups, n, tier, g);
    }
  }

  lemma LandedNodeReads(s: Syntax, d: RoleTopology, c: Cluster, names: Names, p: Plan, n: string, tier: int)
    requires Labelling(s, d, c, names, p) && n in c.nodes && 1 <= tier <= MAX_INT
    ensures NodeReads(s, d.groups, names, n, Landed(c, p).nodes[n], tier)
  {
    if HasGroupAt(d.groups, n, tier) {
      var g :| GroupAt(d.groups, n, tier, g);
      GroupLabels(s, d, c, names, p, n, g);
    } else {
      NoOtherLabels(s, d, c, names, p, n, tier);
    }
  }

  lemma MemberLabels(s: Syntax, d: RoleTopology, c: Cluster, names: Names, p: Plan, w: string, g: DiscoveredGroup)
    requires PlanFor(s, d, c, names, p) && g in d.groups && w in g.members && w in c.switches
    ensures Landed(c, p).switches[w].domain == names[g]
  {
    assert NameFits(s, d, c, g, names[g]);
    if c.switches[w].domain != "" {
      PlanForFits(s, d, c, names, p);
      LandKeepsLabels(c, p, p.nodes.Keys, p.switches.Keys);
      assert c.switches[w].domain in Locked(s, c, g);
    } else {
      assert LacksDomain(c, g, w);
      assert SwitchEntry(p, w) == Some(names[g]);
    }
  }

  lemma LandedSwitchReads(s: Syntax, d: RoleTopology, c: Cluster, names: Names, p: Plan, w: string)
    requires PlanFor(s, d, c, names, p) && OwnLabels(s, d, c) && w in c.switches && c.switches[w].role == d.role
    ensures SwitchReads(d.groups, names, w, Landed(c, p).switches[w].domain)
  {
    if IsMember(d.groups, w) {
      var g :| g in d.groups && w in g.members;
      MemberLabels(s, d, c, names, p, w, g);
    } else if SwitchEntry(p, w).Some? {
      var g := LandedOnSwitch(s, d, c, names, p, w);
    }
  }

  /** Whatever labels of the groups were there before, a landed plan completes them. */
  lemma LandedIsWritten(s: Syntax, d: RoleTopology, c: Cluster, names: Names, p: Plan)
    requires Labelling(s, d, c, names, p)
    ensures Written(s, d, Landed(c, p), names)
  {
    var after := Landed(c, p);
    PlannedNames(s, d, c, names);
    forall n, t | n in after.nodes && 1 <= t <= MAX_INT
      ensures NodeReads(s, d.groups, names, n, after.nodes[n], t)
    {
      LandedNodeReads(s, d, c, names, p, n, t);
    }
    forall w | w in after.switches && after.switches[w].role == d.role
      ensures SwitchReads(d.groups, names, w, after.switches[w].domain)
    {
      LandedSwitchReads(s, d, c, names, p, w);
    }
  }

  // ------------------------------------------------------------------ one Node's path

  /** A Node in a group lies in a group of every lower tier. */
  lemma {:induction false} ColumnHasNoGap(groups: set<DiscoveredGroup>, n: string, tier: int, low: int)
    requires Hierarchy(groups) && HasGroupAt(groups, n, tier) && 1 <= low <= tier
    ensures HasGroupAt(groups, n, low)
    decreases tier - low
  {
    if low < tier {
      ColumnHasNoGap(groups, n, tier, low + 1);
      var g :| GroupAt(groups, n, low + 1, g);
      assert HasGroupBelow(groups, g, n);
    }
  }

  lemma {:induction false} PathReaches(s: Syntax, labels: Labels, tier: int, top: int)
    requires 1 <= tier <= top <= MAX_INT
    requires forall t {:trigger TierValue(s, labels, t)} :: tier <= t <= top ==> TierValue(s, labels, t) != ""
    ensures |PathFrom(s, labels, tier)| >= top - tier + 1
    decreases top - tier
  {
    assert TierValue(s, labels, tier) != "";
    if tier < top {
      PathReaches(s, labels, tier + 1, top);
    }
  }

  lemma PathHolds(s: Syntax, labels: Labels, tier: int)
    requires 1 <= tier <= MAX_INT
    requires forall t {:trigger TierValue(s, labels, t)} :: 1 <= t <= tier ==> TierValue(s, labels, t) != ""
    ensures At(PathOf(s, labels), tier - 1, TierValue(s, labels, tier))
  {
    PathReaches(s, labels, 1, tier);
    PathFromIs(s, labels, 1, tier - 1);
  }

  ghost predicate OnPath(names: Names, path: seq<string>, g: DiscoveredGroup) {
    g in names && At(path, g.tier - 1, names[g])
  }

  /** The path of `n` names, tier by tier, the groups `n` lies in. */
  ghost predicate Column(groups: set<DiscoveredGroup>, names: Names, n: string, path: seq<string>) {
    && (forall i, v {:trigger At(path, i, v)} :: At(path, i, v) ==> NamedAt(groups, names, n, i + 1, v))
    && (forall g {:trigger OnPath(names, path, g)} :: g in groups && n in g.nodes ==> OnPath(names, path, g))
  }

  /** A Node reads back exactly one group per tier. */
  lemma GroupIsRead(s: Syntax, d: RoleTopology, c: Cluster, names: Names, n: string, g: DiscoveredGroup)
    requires Written(s, d, c, names) && n in c.nodes && GroupAt(d.groups, n, g.tier, g)
    ensures 1 <= g.tier <= MAX_INT && TierValue(s, c.nodes[n], g.tier) == names[g] && names[g] != ""
  {
    assert HasGroupAt(d.groups, n, g.tier);
    assert NodeReads(s, d.groups, names, n, c.nodes[n], g.tier);
    var h :| GroupAt(d.groups, n, g.tier, h) && h in names && names[h] == TierValue(s, c.nodes[n], g.tier);
    assert h == g;
    assert s.parse(names[g]).Some?;
  }

  lemma ColumnIsLabelled(s: Syntax, d: RoleTopology, c: Cluster, names: Names, n: string, g: DiscoveredGroup)
    requires Written(s, d, c, names) && n in c.nodes && GroupAt(d.groups, n, g.tier, g)
    ensures forall t {:trigger TierValue(s, c.nodes[n], t)} :: 1 <= t <= g.tier ==> TierValue(s, c.nodes[n], t) != ""
  {
    forall t | 1 <= t <= g.tier
      ensures TierValue(s, c.nodes[n], t) != ""
    {
      ColumnHasNoGap(d.groups, n, g.tier, t);
      var h :| GroupAt(d.groups, n, t, h);
      GroupIsRead(s, d, c, names, n, h);
    }
  }

  lemma GroupOnPath(s: Syntax, d: RoleTopology, c: Cluster, names: Names, n: string, g: DiscoveredGroup)
    requires Written(s, d, c, names) && n in c.nodes && GroupAt(d.groups, n, g.tier, g)
    ensures OnPath(names, PathOf(s, c.nodes[n]), g)
  {
    GroupIsRead(s, d, c, names, n, g);
    ColumnIsLabelled(s, d, c, names, n, g);
    PathHolds(s, c.nodes[n], g.tier);
  }

  lemma PathHasGroup(s: Syntax, d: RoleTopology, c: Cluster, names: Names, n: string, tier: int)
    requires Written(s, d, c, names) && n in c.nodes && 1 <= tier <= MAX_INT && TierValue(s, c.nodes[n], tier) != ""
    ensures NamedAt(d.groups, names, n, tier, TierValue(s, c.nodes[n], tier)) && tier <= |PathOf(s, c.nodes[n])|
  {
    assert NodeReads(s, d.groups, names, n, c.nodes[n], tier);
    var g :| GroupAt(d.groups, n, tier, g) && g in names && names[g] == TierValue(s, c.nodes[n], tier);
    GroupOnPath(s, d, c, names, n, g);
  }

  lemma EntryHasGroup(s: Syntax, d: RoleTopology, c: Cluster, names: Names, n: string, i: int, v: string)
    requires Written(s, d, c, names) && n in c.nodes && At(PathOf(s, c.nodes[n]), i, v)
    ensures NamedAt(d.groups, names, n, i + 1, v)
  {
    EntryIsLabel(s, c.nodes[n], i, v);
    PathHasGroup(s, d, c, names, n, i + 1);
  }

  lemma EntryIsLabel(s: Syntax, labels: Labels, i: int, v: string)
    requires At(PathOf(s, labels), i, v)
    ensures i + 1 <= MAX_INT && v != "" && TierValue(s, labels, i + 1) == v
  {
    PathFromIs(s, labels, 1, i);
  }

  /** The labels of a Node read back as its column of groups, without gap. */
  lemma PathIsColumn(s: Syntax, d: RoleTopology, c: Cluster, names: Names, n: string)
    requires Written(s, d, c, names) && n in c.nodes
    ensures Column(d.groups, names, n, PathOf(s, c.nodes[n])) && Contiguous(s, c.nodes[n])
  {
    var path := PathOf(s, c.nodes[n]);
    forall i, v | At(path, i, v)
      ensures NamedAt(d.groups, names, n, i + 1, v)
    {
      EntryHasGroup(s, d, c, names, n, i, v);
    }
    forall g | g in d.groups && n in g.nodes
      ensures OnPath(names, path, g)
    {
      GroupOnPath(s, d, c, names, n, g);
    }
    forall t | 1 <= t <= MAX_INT && TierValue(s, c.nodes[n], t) != ""
      ensures t <= |path|
    {
      PathHasGroup(s, d, c, names, n, t);
    }
  }

  // ------------------------------------------------------------- columns form a forest

  /** Every path is the column of its Node, and every host of a group has one. */
  ghost predicate Columns(groups: set<DiscoveredGroup>, names: Names, paths: Paths) {
    && names.Keys == groups && (forall g, h :: g in names && h in names && names[g] == names[h] ==> g == h)
    && (forall n {:trigger paths[n]} :: n in paths ==> Column(groups, names, n, paths[n]))
    && (forall g, n :: g in groups && n in g.nodes ==> n in paths)
  }

  lemma GroupOfName(groups: set<DiscoveredGroup>, names: Names, paths: Paths, n: string, i: int, v: string)
    returns (g: DiscoveredGroup)
    requires Columns(groups, names, paths) && n in paths && At(paths[n], i, v)
    ensures GroupAt(groups, n, i + 1, g) && names[g] == v
  {
    assert NamedAt(groups, names, n, i + 1, v);
    g :| GroupAt(groups, n, i + 1, g) && g in names && names[g] == v;
  }

  lemma ColumnsHaveOneTier(groups: set<DiscoveredGroup>, names: Names, paths: Paths)
    requires Columns(groups, names, paths)
    ensures OneTier(paths)
  {
    forall n, m, i, j, v | n in paths && m in paths && At(paths[n], i, v) && At(paths[m], j, v)
      ensures i == j
    {
      var g := GroupOfName(groups, names, paths, n, i, v);
      var h := GroupOfName(groups, names, paths, m, j, v);
    }
  }

  /** The parent of a group's domain is the domain of the group above it. */
  lemma ParentIsAbove(groups: set<DiscoveredGroup>, names: Names, paths: Paths, v: string, p: string)
    returns (g: DiscoveredGroup, h: DiscoveredGroup)
    requires Hierarchy(groups) && Columns(groups, names, paths) && ParentOf(paths, v, p)
    ensures g in groups && h in groups && names[g] == v && names[h] == p && h.tier == g.tier + 1 && g.nodes <= h.nodes
  {
    var n :| n in paths && Links(paths[n], v, p);
    var i :| LinkAt(paths[n], i, v, p);
    g := GroupOfName(groups, names, paths, n, i, v);
    h := GroupOfName(groups, names, paths, n, i + 1, p);
  }

  lemma AboveIsParent(groups: set<DiscoveredGroup>, names: Names, paths: Paths, g: DiscoveredGroup, h: DiscoveredGroup)
    requires Hierarchy(groups) && Columns(groups, names, paths)
    requires g in groups && h in groups && h.tier == g.tier + 1 && g.nodes <= h.nodes
    ensures ParentOf(paths, names[g], names[h])
  {
    var n :| n in g.nodes;
    assert n in h.nodes && Column(groups, names, n, paths[n]);
    assert OnPath(names, paths[n], g) && OnPath(names, paths[n], h);
    LinkOnPath(names, paths[n], g, h);
  }

  lemma LinkOnPath(names: Names, path: seq<string>, g: DiscoveredGroup, h: DiscoveredGroup)
    requires OnPath(names, path, g) && OnPath(names, path, h) && h.tier == g.tier + 1
    ensures Links(path, names[g], names[h])
  {
    assert LinkAt(path, g.tier - 1, names[g], names[h]);
  }

  lemma ColumnsHaveOneParent(groups: set<DiscoveredGroup>, names: Names, paths: Paths)
    requires Hierarchy(groups) && Columns(groups, names, paths)
    ensures OneParent(paths)
  {
    forall v, p, q | ParentOf(paths, v, p) && ParentOf(paths, v, q)
      ensures p == q
    {
      var g, h := ParentIsAbove(groups, names, paths, v, p);
      var g', h' := ParentIsAbove(groups, names, paths, v, q);
      OneGroupAbove(groups, g, h, h');
    }
  }

  lemma OneGroupAbove(groups: set<DiscoveredGroup>, g: DiscoveredGroup, h: DiscoveredGroup, k: DiscoveredGroup)
    requires Hierarchy(groups) && g in groups && h in groups && k in groups
    requires h.tier == k.tier && g.nodes <= h.nodes && g.nodes <= k.nodes
    ensures h == k
  {
    var n :| n in g.nodes;
    assert n in h.nodes && n in k.nodes;
  }

  lemma NamedIsUsed(groups: set<DiscoveredGroup>, names: Names, paths: Paths, g: DiscoveredGroup) returns (n: string)
    requires Hierarchy(groups) && Columns(groups, names, paths) && g in groups
    ensures n in paths && At(paths[n], g.tier - 1, names[g]) && Used(paths, names[g])
  {
    n :| n in g.nodes;
    assert Column(groups, names, n, paths[n]);
    assert OnPath(names, paths[n], g);
  }

  lemma PathWithin(groups: set<DiscoveredGroup>, names: Names, paths: Paths, n: string, m: string, i: int)
    requires Columns(groups, names, paths) && n in paths && m in paths && 0 <= i < |paths[n]|
    requires forall g :: g in groups && n in g.nodes ==> m in g.nodes
    ensures At(paths[m], i, paths[n][i])
  {
    assert At(paths[n], i, paths[n][i]);
    var g := GroupOfName(groups, names, paths, n, i, paths[n][i]);
    assert OnPath(names, paths[m], g);
  }

  ghost predicate ShareGroups(groups: set<DiscoveredGroup>, n: string, m: string) {
    forall g :: g in groups ==> (n in g.nodes <==> m in g.nodes)
  }

  lemma SameGroupsSamePath(groups: set<DiscoveredGroup>, names: Names, paths: Paths, n: string, m: string)
    requires Columns(groups, names, paths) && n in paths && m in paths && ShareGroups(groups, n, m)
    ensures paths[n] == paths[m]
  {
    forall i | 0 <= i < |paths[n]|
      ensures At(paths[m], i, paths[n][i])
    {
      PathWithin(groups, names, paths, n, m, i);
    }
    if |paths[m]| > |paths[n]| {
      PathWithin(groups, names, paths, m, n, |paths[n]|);
    } else if |paths[n]| > |paths[m]| {
      PathWithin(groups, names, paths, n, m, |paths[m]|);
    }
  }

  /** Two Nodes share a Node group exactly when they share all discovered groups. */
  lemma SamePathMeansSameGroups(groups: set<DiscoveredGroup>, names: Names, paths: Paths, n: string, m: string)
    requires Columns(groups, names, paths) && n in paths && m in paths
    ensures paths[n] == paths[m] <==> ShareGroups(groups, n, m)
  {
    if ShareGroups(groups, n, m) {
      SameGroupsSamePath(groups, names, paths, n, m);
    }
    forall g | paths[n] == paths[m] && g in groups
      ensures n in g.nodes <==> m in g.nodes
    {
      if n in g.nodes {
        GroupFollowsPath(groups, names, paths, n, m, g);
      } else if m in g.nodes {
        GroupFollowsPath(groups, names, paths, m, n, g);
      }
    }
  }

  lemma GroupFollowsPath(groups: set<DiscoveredGroup>, names: Names, paths: Paths, n: string, m: string,
                         g: DiscoveredGroup)
    requires Columns(groups, names, paths) && n in paths && m in paths && paths[n] == paths[m] && g in groups
      && n in g.nodes
    ensures m in g.nodes
  {
    assert OnPath(names, paths[n], g);
    var h := GroupOfName(groups, names, paths, m, g.tier - 1, names[g]);
  }

  // ---------------------------------------------------------------------- the status

  /** Hosts of groups have a path; all other Nodes have none. */
  lemma PathsAreColumns(s: Syntax, d: RoleTopology, c: Cluster, names: Names)
    requires Written(s, d, c, names)
    ensures Columns(d.groups, names, TopologyStatus.PathsOf(s, c.nodes))
    ensures forall n :: n in c.nodes ==> Contiguous(s, c.nodes[n])
  {
    var paths := TopologyStatus.PathsOf(s, c.nodes);
    forall n | n in c.nodes
      ensures Column(d.groups, names, n, PathOf(s, c.nodes[n])) && Contiguous(s, c.nodes[n])
    {
      PathIsColumn(s, d, c, names, n);
    }
    forall g, n | g in d.groups && n in g.nodes
      ensures n in paths
    {
      GroupOnPath(s, d, c, names, n, g);
    }
  }

  lemma ColumnIsValid(s: Syntax, d: RoleTopology, c: Cluster, names: Names, paths: Paths, n: string, i: int)
    requires Written(s, d, c, names) && Columns(d.groups, names, paths) && n in paths && 0 <= i < |paths[n]|
    ensures s.valid(paths[n][i]) && i < MAX_INT32
  {
    var v := paths[n][i];
    assert At(paths[n], i, v);
    var g := GroupOfName(d.groups, names, paths, n, i, v);
    assert NamesTier(s, names[g], g.tier);
    assert s.parse(v).Some?;
  }

  lemma PathsAreValid(s: Syntax, d: RoleTopology, c: Cluster, names: Names, paths: Paths)
    requires Written(s, d, c, names) && Columns(d.groups, names, paths)
    ensures TopologyStatus.ValidPaths(s, paths)
  {
    forall n | n in paths
      ensures TopologyStatus.ValidPath(s, paths[n])
    {
      forall i | 0 <= i < |paths[n]|
        ensures s.valid(paths[n][i]) && i < MAX_INT32
      {
        ColumnIsValid(s, d, c, names, paths, n, i);
      }
      if |paths[n]| > MAX_INT32 {
        ColumnIsValid(s, d, c, names, paths, n, MAX_INT32);
      }
    }
  }

  /** A Switch of the role carries the name of the group it is a member of, or nothing. */
  lemma SwitchLabels(s: Syntax, d: RoleTopology, c: Cluster, names: Names, w: string, g: DiscoveredGroup)
    requires Written(s, d, c, names) && w in c.switches && c.switches[w].role == d.role && g in d.groups
    ensures c.switches[w].domain == names[g] <==> w in g.members
  {
    assert SwitchReads(d.groups, names, w, c.switches[w].domain);
    assert NamesTier(s, names[g], g.tier);
    assert s.parse(names[g]).Some?;
    if IsMember(d.groups, w) {
      var h :| h in d.groups && w in h.members && h in names && names[h] == c.switches[w].domain;
    }
  }

  lemma MembersAreMembers(s: Syntax, d: RoleTopology, c: Cluster, names: Names, g: DiscoveredGroup)
    requires Written(s, d, c, names) && g in d.groups
    ensures TopologyStatus.MembersOf(RoleSwitches(d.role, c), names[g]) == g.members * RoleSwitches(d.role, c).Keys
  {
    var switches := RoleSwitches(d.role, c);
    forall w | w in switches
      ensures switches[w] == names[g] <==> w in g.members
    {
      SwitchLabels(s, d, c, names, w, g);
    }
  }

  lemma NoOrphans(s: Syntax, d: RoleTopology, c: Cluster, names: Names, paths: Paths)
    requires Written(s, d, c, names) && Columns(d.groups, names, paths)
    ensures TopologyStatus.Orphans(paths, RoleSwitches(d.role, c)) == {}
    ensures TopologyStatus.ValidSwitches(s, RoleSwitches(d.role, c))
  {
    var switches := RoleSwitches(d.role, c);
    forall w | w in switches && switches[w] != ""
      ensures Used(paths, switches[w]) && s.valid(switches[w])
    {
      assert SwitchReads(d.groups, names, w, c.switches[w].domain);
      var g :| g in d.groups && w in g.members && g in names && names[g] == switches[w];
      var n := NamedIsUsed(d.groups, names, paths, g);
      assert NamesTier(s, names[g], g.tier);
      assert s.parse(names[g]).Some?;
    }
  }

  /** The labels of a discovered topology always build a status. */
  lemma DiscoveryIsAcceptable(s: Syntax, d: RoleTopology, c: Cluster, names: Names)
    requires Written(s, d, c, names)
    ensures TopologyStatus.Acceptable(s, c.nodes, RoleSwitches(d.role, c))
  {
    var paths := TopologyStatus.PathsOf(s, c.nodes);
    PathsAreColumns(s, d, c, names);
    PathsAreValid(s, d, c, names, paths);
    ColumnsHaveOneTier(d.groups, names, paths);
    ColumnsHaveOneParent(d.groups, names, paths);
    NoOrphans(s, d, c, names, paths);
  }

  /** `h` is the group directly above `g`. */
  ghost predicate Above(groups: set<DiscoveredGroup>, g: DiscoveredGroup, h: DiscoveredGroup) {
    g in groups && h in groups && h.tier == g.tier + 1 && g.nodes <= h.nodes
  }

  /** The status domain of a group has its tier, its Switches of the role and the group above as
      parent. */
  ghost predicate MirrorsGroup(d: RoleTopology, c: Cluster, names: Names, domains: map<string, TopologyStatus.Domain>,
                               g: DiscoveredGroup) {
    && g in names && names[g] in domains
    && domains[names[g]].tier == g.tier && domains[names[g]].members == g.members * RoleSwitches(d.role, c).Keys
    && (forall h {:trigger Above(d.groups, g, h)} :: Above(d.groups, g, h) ==>
          h in names && domains[names[g]].parent == Some(names[h]))
    && (domains[names[g]].parent.Some? ==> exists h :: Above(d.groups, g, h))
  }

  ghost predicate ListedAt(groups: seq<NodeGroup>, i: int, n: string) {
    0 <= i < |groups| && n in groups[i].nodes
  }

  ghost predicate IsListed(groups: seq<NodeGroup>, n: string) {
    exists i :: ListedAt(groups, i, n)
  }

  ghost predicate HasGroup(groups: set<DiscoveredGroup>, n: string) {
    exists g :: g in groups && n in g.nodes
  }

  ghost predicate PlacedOn(names: Names, path: seq<string>, g: DiscoveredGroup) {
    g in names && 1 <= g.tier <= |path| && path[|path| - g.tier] == names[g]
  }

  /** Read from the top tier down, the path names exactly the groups of `n`. */
  ghost predicate ColumnDown(groups: set<DiscoveredGroup>, names: Names, n: string, path: seq<string>) {
    && (forall k {:trigger path[k]} :: 0 <= k < |path| ==> NamedAt(groups, names, n, |path| - k, path[k]))
    && (forall g {:trigger PlacedOn(names, path, g)} :: g in groups && n in g.nodes ==> PlacedOn(names, path, g))
  }

  /** The Node groups of the status: exactly the hosts of groups are listed, each once, under
      the path of its groups, and two of them together if and only if they share all groups. */
  ghost predicate MirrorsNodes(groups: set<DiscoveredGroup>, names: Names, listed: seq<NodeGroup>) {
    && (forall n {:trigger IsListed(listed, n)} {:trigger HasGroup(groups, n)} :: IsListed(listed, n) <==>
          HasGroup(groups, n))
    && (forall i, n {:trigger ListedAt(listed, i, n)} :: ListedAt(listed, i, n) ==>
          ColumnDown(groups, names, n, listed[i].path))
    && (forall i, j, n, m {:trigger ListedAt(listed, i, n), ListedAt(listed, j, m)} ::
          ListedAt(listed, i, n) && ListedAt(listed, j, m) ==> (i == j <==> ShareGroups(groups, n, m)))
  }

  /** The status mirrors the discovery: one domain per group, no orphan Switch, and the hosts
      grouped by the groups they lie in. */
  ghost predicate Mirrors(d: RoleTopology, c: Cluster, names: Names, status: TopologyStatus.Status) {
    && status.pending == {} && names.Keys == d.groups
    && (forall g, h :: g in names && h in names && names[g] == names[h] ==> g == h)
    && (forall v {:trigger status.domains[v]} :: v in status.domains ==> exists g :: g in names && names[g] == v)
    && (forall g {:trigger names[g]} :: g in d.groups ==> MirrorsGroup(d, c, names, status.domains, g))
    && MirrorsNodes(d.groups, names, status.groups)
  }

  lemma GroupIsMirrored(s: Syntax, d: RoleTopology, c: Cluster, names: Names, paths: Paths,
                        domains: map<string, TopologyStatus.Domain>, g: DiscoveredGroup)
    requires Written(s, d, c, names) && Columns(d.groups, names, paths) && g in d.groups
    requires TopologyStatus.DescribesDomains(paths, RoleSwitches(d.role, c), domains)
    ensures MirrorsGroup(d, c, names, domains, g)
  {
    var n := NamedIsUsed(d.groups, names, paths, g);
    MembersAreMembers(s, d, c, names, g);
    forall h | Above(d.groups, g, h)
      ensures domains[names[g]].parent == Some(names[h])
    {
      AboveIsParent(d.groups, names, paths, g, h);
    }
    var parent := domains[names[g]].parent;
    if parent.Some? {
      assert ParentOf(paths, names[g], parent.value);
      var g', h := ParentIsAbove(d.groups, names, paths, names[g], parent.value);
      assert Above(d.groups, g, h);
    }
  }

  // ----------------------------------------------------------------- Nodes of the status

  lemma ReversedColumn(groups: set<DiscoveredGroup>, names: Names, n: string, path: seq<string>)
    requires Column(groups, names, n, path)
    ensures ColumnDown(groups, names, n, TopologyStatus.Reverse(path))
  {
    var down := TopologyStatus.Reverse(path);
    TopologyStatus.ReverseLength(path);
    forall k | 0 <= k < |down|
      ensures NamedAt(groups, names, n, |down| - k, down[k])
    {
      TopologyStatus.ReverseIs(path, k);
      assert At(path, |path| - 1 - k, down[k]);
    }
    forall g | g in groups && n in g.nodes
      ensures PlacedOn(names, down, g)
    {
      assert OnPath(names, path, g);
      TopologyStatus.ReverseIs(path, |path| - g.tier);
    }
  }

  /** A Node is listed exactly when it has a path, and under that path. */
  lemma ListedUnderPath(paths: Paths, groups: seq<NodeGroup>, i: int, n: string)
    requires TopologyStatus.DescribesGroups(paths, groups) && ListedAt(groups, i, n)
    ensures n in paths && groups[i].path == TopologyStatus.Reverse(paths[n])
  {
    assert groups[i].nodes == TopologyStatus.NodesWith(paths, groups[i].path);
  }

  lemma PathMeansGroup(groups: set<DiscoveredGroup>, names: Names, paths: Paths, n: string)
    requires Columns(groups, names, paths) && n in paths && paths[n] != []
    ensures HasGroup(groups, n)
  {
    assert At(paths[n], 0, paths[n][0]);
    var g := GroupOfName(groups, names, paths, n, 0, paths[n][0]);
  }

  lemma ListedMeansGroup(groups: set<DiscoveredGroup>, names: Names, paths: Paths, listed: seq<NodeGroup>, n: string)
    requires Columns(groups, names, paths) && (forall m :: m in paths ==> paths[m] != [])
    requires TopologyStatus.DescribesGroups(paths, listed)
    ensures IsListed(listed, n) <==> HasGroup(groups, n)
  {
    if IsListed(listed, n) {
      var i :| ListedAt(listed, i, n);
      ListedUnderPath(paths, listed, i, n);
      PathMeansGroup(groups, names, paths, n);
    }
    if HasGroup(groups, n) {
      var i := TopologyStatus.NodeInOneGroup(paths, listed, n);
      assert ListedAt(listed, i, n);
    }
  }

  lemma TogetherMeansShared(groups: set<DiscoveredGroup>, names: Names, paths: Paths, listed: seq<NodeGroup>, i: int,
                            j: int, n: string, m: string)
    requires Columns(groups, names, paths) && TopologyStatus.DescribesGroups(paths, listed)
    requires ListedAt(listed, i, n) && ListedAt(listed, j, m)
    ensures i == j <==> ShareGroups(groups, n, m)
  {
    ListedUnderPath(paths, listed, i, n);
    ListedUnderPath(paths, listed, j, m);
    SamePathMeansSameGroups(groups, names, paths, n, m);
    if i == j {
      TopologyStatus.ReverseInjective(paths[n], paths[m]);
    } else {
      var a, b := PathKey(listed[i].path), PathKey(listed[j].path);
      assert a != b;
    }
  }

  lemma NodesAreMirrored(groups: set<DiscoveredGroup>, names: Names, paths: Paths, listed: seq<NodeGroup>)
    requires Columns(groups, names, paths) && (forall m :: m in paths ==> paths[m] != [])
    requires TopologyStatus.DescribesGroups(paths, listed)
    ensures MirrorsNodes(groups, names, listed)
  {
    forall n
      ensures IsListed(listed, n) <==> HasGroup(groups, n)
    {
      ListedMeansGroup(groups, names, paths, listed, n);
    }
    forall i, n | ListedAt(listed, i, n)
      ensures ColumnDown(groups, names, n, listed[i].path)
    {
      ListedUnderPath(paths, listed, i, n);
      ReversedColumn(groups, names, n, paths[n]);
    }
    forall i, j, n, m | ListedAt(listed, i, n) && ListedAt(listed, j, m)
      ensures i == j <==> ShareGroups(groups, n, m)
    {
      TogetherMeansShared(groups, names, paths, listed, i, j, n, m);
    }
  }

  /** The status built from the written labels mirrors the discovered groups. */
  lemma StatusMirrorsDiscovery(s: Syntax, w: Numbering, d: RoleTopology, c: Cluster, names: Names,
                               previous: seq<NodeGroup>, status: TopologyStatus.Status)
    requires Written(s, d, c, names)
    requires TopologyStatus.IsStatus(s, w, c.nodes, RoleSwitches(d.role, c), previous, status)
    ensures Mirrors(d, c, names, status)
  {
    var paths := TopologyStatus.PathsOf(s, c.nodes);
    PathsAreColumns(s, d, c, names);
    NoOrphans(s, d, c, names, paths);
    forall v | v in status.domains
      ensures exists g :: g in names && names[g] == v
    {
      assert Used(paths, v);
      var n, i :| n in paths && At(paths[n], i, v);
      var g := GroupOfName(d.groups, names, paths, n, i, v);
    }
    forall g | g in d.groups
      ensures MirrorsGroup(d, c, names, status.domains, g)
    {
      GroupIsMirrored(s, d, c, names, paths, status.domains, g);
    }
    var groups, numbers :|
      TopologyStatus.DescribesGroups(paths, groups) && Assigned(w, previous, groups, numbers, status.groups);
    TopologyStatus.NamesKeepGroups(w, paths, previous, groups, numbers, status.groups);
    NodesAreMirrored(d.groups, names, paths, status.groups);
  }

  // ------------------------------------------------------------- after interrupted runs

  /** Over any run of interrupted reconciles no label appears that no group wants. */
  lemma {:induction false} RunKeepsOwn(s: Syntax, d: RoleTopology, run: seq<Cluster>, i: nat)
    requires Lawful(s) && GroupsSeparate(d.groups) && IsRun(s, d, run) && i < |run| && OwnLabels(s, d, run[0])
    ensures OwnLabels(s, d, run[i])
    decreases i
  {
    if i > 0 {
      RunKeepsOwn(s, d, run, i - 1);
      assert Reconciles(s, d, run[i - 1], run[i - 1 + 1]);
      var names, p, nodes, switches :|
        PlanFor(s, d, run[i - 1], names, p) && run[i] == Land(run[i - 1], p, nodes, switches);
      LandKeepsOwn(s, d, run[i - 1], names, p, nodes, switches);
    }
  }

  /** From unlabelled objects, after any run of interrupted reconciles and one complete one,
      the status mirrors the discovery. */
  lemma RunThenStatusMirrors(s: Syntax, w: Numbering, d: RoleTopology, run: seq<Cluster>, names: Names, p: Plan,
                             previous: seq<NodeGroup>, status: TopologyStatus.Status)
    requires Lawful(s) && Hierarchy(d.groups) && IsRun(s, d, run)
    requires Unlabelled(s, d.role, run[0]) && Placed(d, run[0]) && Consistent(s, d, run[0])
    requires PlanFor(s, d, run[|run| - 1], names, p)
    requires var after := Landed(run[|run| - 1], p);
      TopologyStatus.IsStatus(s, w, after.nodes, RoleSwitches(d.role, after), previous, status)
    ensures Mirrors(d, run[|run| - 1], names, status)
  {
    var last := run[|run| - 1];
    UnlabelledIsOwn(s, d, run[0]);
    RunKeepsOwn(s, d, run, |run| - 1);
    RunKeepsLabels(s, d, run, |run| - 1);
    LandedIsWritten(s, d, last, names, p);
    StatusMirrorsDiscovery(s, w, d, Landed(last, p), names, previous, status);
    LandKeepsRoles(d.role, last, p, p.nodes.Keys, p.switches.Keys);
    SameMembers(d, last, Landed(last, p), names, status);
  }

  /** Mirroring only asks which Switches of the role exist. */
  lemma SameMembers(d: RoleTopology, a: Cluster, b: Cluster, names: Names, status: TopologyStatus.Status)
    requires RoleSwitches(d.role, a).Keys == RoleSwitches(d.role, b).Keys && Mirrors(d, b, names, status)
    ensures Mirrors(d, a, names, status)
  {
    forall g | g in d.groups
      ensures MirrorsGroup(d, a, names, status.domains, g)
    {
      assert MirrorsGroup(d, b, names, status.domains, g);
    }
  }
}
