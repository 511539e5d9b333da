/** Numbers of new names over interrupted reconciles. A member that is a Switch of another role
    may carry a name that the scans do not see. A landed part of a plan moves the highest number
    in use, and the numbers that follow it can then run into such a name. Here is exactly when. */
module FreshNumbers {
  import opened Wrappers
  import opened LabelSyntax
  import opened NormalizeGroups
  import opened AutoLabel
  import opened AutoLabelPlan
  import opened CrashSafety
  import opened Sets

  type GroupNames = map<DiscoveredGroup, string>

  /** Every group has a Node, as discovered groups do. */
  ghost predicate Inhabited(groups: set<DiscoveredGroup>) {
    forall g :: g in groups ==> g.nodes != {}
  }

  /** The number of groups of a tier that have no name yet. */
  ghost function Unnamed(s: Syntax, d: RoleTopology, c: Cluster, tier: int): nat {
    |FreshGroups(s, c, d.groups, tier)|
  }

  /** The group carries a name with this number. */
  ghost predicate Carries(s: Syntax, c: Cluster, g: DiscoveredGroup, x: int) {
    exists v :: v in Locked(s, c, g) && NamesTier(s, v, g.tier) && s.parse(v).value.group == x
  }

  /** The number is above all that the scans see. */
  ghost predicate Hidden(s: Syntax, d: RoleTopology, c: Cluster, g: DiscoveredGroup, x: int) {
    g in d.groups && Carries(s, c, g, x) && x > Top(s, d, c, g.tier)
  }

  lemma ClashIsHidden(s: Syntax, d: RoleTopology, c: Cluster)
    ensures FreshNamesClash(s, d, c) <==>
      exists g, x :: Hidden(s, d, c, g, x) && x <= Top(s, d, c, g.tier) + Unnamed(s, d, c, g.tier)
  {
    if FreshNamesClash(s, d, c) {
      var g, v :| ClashesAt(s, d, c, g, v);
      assert Hidden(s, d, c, g, s.parse(v).value.group);
    }
    if g, x :| Hidden(s, d, c, g, x) && x <= Top(s, d, c, g.tier) + Unnamed(s, d, c, g.tier) {
      var v :| v in Locked(s, c, g) && NamesTier(s, v, g.tier) && s.parse(v).value.group == x;
      assert ClashesAt(s, d, c, g, v);
    }
  }

  // ---------------------------------------------------------------- what a landing moves

  /** A plan as BuildAutoLabelPlan makes it. */
  ghost predicate Planned(s: Syntax, d: RoleTopology, c: Cluster, names: GroupNames, p: Plan) {
    && Lawful(s) && GroupsSeparate(d.groups) && Inhabited(d.groups) && Consistent(s, d, c)
    && PlanFor(s, d, c, names, p) && Numbered(s, d, c, names)
  }

  lemma HighestGrows(s: Syntax, used: set<string>, more: set<string>, tier: int)
    requires used <= more
    ensures Highest(s, used, tier) <= Highest(s, more, tier)
  {
    assert IsHighest(s, used, tier, Highest(s, used, tier)) && IsHighest(s, more, tier, Highest(s, more, tier));
  }

  lemma KeptStaysInUse(s: Syntax, role: string, before: Cluster, after: Cluster)
    requires LabelsKept(before, after)
    ensures InUse(s, role, before) <= InUse(s, role, after)
  {
    forall v | v in NodeNames(s, before.nodes)
      ensures v in NodeNames(s, after.nodes)
    {
      var n, k :| n in before.nodes && k in before.nodes[n] && s.matchTier(k).Some? && v == before.nodes[n][k];
      assert after.nodes[n][k] == v;
    }
    forall v | v in SwitchNames(role, before.switches)
      ensures v in SwitchNames(role, after.switches)
    {
      var w :| w in before.switches && before.switches[w].role == role && before.switches[w].domain != ""
        && v == before.switches[w].domain;
      assert after.switches[w].domain == v;
    }
  }

  lemma KeptStaysLocked(s: Syntax, before: Cluster, after: Cluster, g: DiscoveredGroup)
    requires LabelsKept(before, after)
    ensures Locked(s, before, g) <= Locked(s, after, g)
  {
    var k := s.render(g.tier);
    forall v | v in LockedOnNodes(s, before, g)
      ensures v in LockedOnNodes(s, after, g)
    {
      var n :| n in g.nodes && n in before.nodes && k in before.nodes[n] && v == before.nodes[n][k];
      assert after.nodes[n][k] == v;
    }
    forall v | v in LockedOnSwitches(before, g)
      ensures v in LockedOnSwitches(after, g)
    {
      var m :| m in g.members && m in before.switches && before.switches[m].domain != ""
        && v == before.switches[m].domain;
      assert after.switches[m].domain == v;
    }
  }

  /** Highest numbers only grow, and groups only gain names. */
  lemma LandGrows(s: Syntax, d: RoleTopology, c: Cluster, names: GroupNames, p: Plan, nodes: set<string>,
                  switches: set<string>, tier: int)
    requires PlanFor(s, d, c, names, p)
    ensures var after := Land(c, p, nodes, switches);
      && Top(s, d, c, tier) <= Top(s, d, after, tier)
      && FreshGroups(s, after, d.groups, tier) <= FreshGroups(s, c, d.groups, tier)
      && Unnamed(s, d, after, tier) <= Unnamed(s, d, c, tier)
  {
    var after := Land(c, p, nodes, switches);
    PlanForFits(s, d, c, names, p);
    LandKeepsLabels(c, p, nodes, switches);
    KeptStaysInUse(s, d.role, c, after);
    HighestGrows(s, InUse(s, d.role, c), InUse(s, d.role, after), tier);
    forall g | g in FreshGroups(s, after, d.groups, tier)
      ensures g in FreshGroups(s, c, d.groups, tier)
    {
      KeptStaysLocked(s, c, after, g);
    }
    SubsetSize(FreshGroups(s, after, d.groups, tier), FreshGroups(s, c, d.groups, tier));
  }

  lemma OldLabelInUse(s: Syntax, d: RoleTopology, c: Cluster, names: GroupNames, p: Plan, nodes: set<string>,
                      switches: set<string>, n: string, k: string)
    requires PlanFor(s, d, c, names, p) && n in c.nodes && k in c.nodes[n] && s.matchTier(k).Some?
    ensures Land(c, p, nodes, switches).nodes[n][k] in InUse(s, d.role, c)
  {
    PlanForFits(s, d, c, names, p);
    LandKeepsLabels(c, p, nodes, switches);
    assert Land(c, p, nodes, switches).nodes[n][k] == c.nodes[n][k];
    assert c.nodes[n][k] in NodeNames(s, c.nodes);
  }

  lemma OldDomainInUse(s: Syntax, d: RoleTopology, c: Cluster, names: GroupNames, p: Plan, nodes: set<string>,
                       switches: set<string>, w: string)
    requires PlanFor(s, d, c, names, p) && w in c.switches && c.switches[w].role == d.role && c.switches[w].domain != ""
    ensures Land(c, p, nodes, switches).switches[w].domain in InUse(s, d.role, c)
  {
    PlanForFits(s, d, c, names, p);
    LandKeepsLabels(c, p, nodes, switches);
    assert c.switches[w].domain in SwitchNames(d.role, c.switches);
  }

  /** A name that comes into use was chosen for a group that now carries it. */
  lemma NewNameHasGroup(s: Syntax, d: RoleTopology, c: Cluster, names: GroupNames, p: Plan, nodes: set<string>,
                        switches: set<string>, v: string) returns (h: DiscoveredGroup)
    requires PlanFor(s, d, c, names, p)
    requires v in InUse(s, d.role, Land(c, p, nodes, switches)) && v !in InUse(s, d.role, c)
    ensures h in d.groups && h in names && names[h] == v && v in Locked(s, Land(c, p, nodes, switches), h)
  {
    var after := Land(c, p, nodes, switches);
    if v in NodeNames(s, after.nodes) {
      var n, k :| n in after.nodes && k in after.nodes[n] && s.matchTier(k).Some? && v == after.nodes[n][k];
      h := NodeNameHasGroup(s, d, c, names, p, nodes, switches, n, k);
    } else {
      var w :| w in after.switches && after.switches[w].role == d.role && after.switches[w].domain != ""
        && v == after.switches[w].domain;
      if c.switches[w].domain != "" {
        OldDomainInUse(s, d, c, names, p, nodes, switches, w);
      }
      assert SwitchEntry(p, w).Some?;
      h := LandedOnSwitch(s, d, c, names, p, w);
      assert v in LockedOnSwitches(after, h);
    }
  }

  lemma NodeNameHasGroup(s: Syntax, d: RoleTopology, c: Cluster, names: GroupNames, p: Plan, nodes: set<string>,
                         switches: set<string>, n: string, k: string) returns (h: DiscoveredGroup)
    requires PlanFor(s, d, c, names, p)
    requires var after := Land(c, p, nodes, switches);
      && n in after.nodes && k in after.nodes[n] && s.matchTier(k).Some? && after.nodes[n][k] !in InUse(s, d.role, c)
    ensures var after := Land(c, p, nodes, switches);
      && n in nodes && h in d.groups && h in names && k == s.render(h.tier) && LacksKey(s, c, h, n)
      && names[h] == after.nodes[n][k] && names[h] in Locked(s, after, h)
  {
    var after := Land(c, p, nodes, switches);
    if k in c.nodes[n] {
      OldLabelInUse(s, d, c, names, p, nodes, switches, n, k);
    }
    assert NodeEntry(p, n, k).Some?;
    h := LandedOnNode(s, d, c, names, p, n, k);
    assert after.nodes[n][k] in LockedOnNodes(s, after, h);
  }

  /** How the highest number and the unnamed groups of a tier move: nothing new is highest, or a
      number of the plan is and one group fewer is unnamed, or a hidden number came into view. */
  ghost predicate Moved(s: Syntax, d: RoleTopology, c: Cluster, after: Cluster, tier: int) {
    var (top, count) := (Top(s, d, c, tier), Unnamed(s, d, c, tier));
    var (top', count') := (Top(s, d, after, tier), Unnamed(s, d, after, tier));
    && count' <= count
    && (|| top' == top
        || (top < top' <= top + count && count' + 1 <= count)
        || (exists h: DiscoveredGroup :: h.tier == tier && Hidden(s, d, c, h, top')))
  }

  lemma LandMoves(s: Syntax, d: RoleTopology, c: Cluster, names: GroupNames, p: Plan, nodes: set<string>,
                  switches: set<string>, tier: int)
    requires Planned(s, d, c, names, p)
    ensures Moved(s, d, c, Land(c, p, nodes, switches), tier)
  {
    var after := Land(c, p, nodes, switches);
    var top' := Top(s, d, after, tier);
    LandGrows(s, d, c, names, p, nodes, switches, tier);
    assert IsHighest(s, InUse(s, d.role, after), tier, top');
    assert IsHighest(s, InUse(s, d.role, c), tier, Top(s, d, c, tier));
    if top' > Top(s, d, c, tier) {
      assert Attains(s, InUse(s, d.role, after), tier, top');
      var v :| v in InUse(s, d.role, after) && NamesTier(s, v, tier) && s.parse(v).value.group == top';
      assert v !in InUse(s, d.role, c);
      var h := NewNameHasGroup(s, d, c, names, p, nodes, switches, v);
      assert NameFits(s, d, c, h, names[h]);
      if Locked(s, c, h) == {} {
        FewerUnnamed(s, d, c, names, p, nodes, switches, h);
      } else {
        assert v in Locked(s, c, h);
        assert Hidden(s, d, c, h, top');
      }
    }
  }

  lemma FewerUnnamed(s: Syntax, d: RoleTopology, c: Cluster, names: GroupNames, p: Plan, nodes: set<string>,
                     switches: set<string>, h: DiscoveredGroup)
    requires PlanFor(s, d, c, names, p) && h in d.groups && Locked(s, c, h) == {}
    requires Locked(s, Land(c, p, nodes, switches), h) != {}
    ensures Unnamed(s, d, Land(c, p, nodes, switches), h.tier) + 1 <= Unnamed(s, d, c, h.tier)
  {
    var after := Land(c, p, nodes, switches);
    LandGrows(s, d, c, names, p, nodes, switches, h.tier);
    ProperSubsetSize(FreshGroups(s, after, d.groups, h.tier), FreshGroups(s, c, d.groups, h.tier), h);
  }

  /** While only Nodes are written, what is hidden afterwards was hidden before. */
  lemma HiddenBefore(s: Syntax, d: RoleTopology, c: Cluster, names: GroupNames, p: Plan, nodes: set<string>,
                     switches: set<string>, g: DiscoveredGroup, x: int)
    requires Planned(s, d, c, names, p) && switches !! p.switches.Keys
    requires Hidden(s, d, Land(c, p, nodes, switches), g, x)
    ensures Hidden(s, d, c, g, x)
  {
    var after := Land(c, p, nodes, switches);
    LandGrows(s, d, c, names, p, nodes, switches, g.tier);
    var v :| v in Locked(s, after, g) && NamesTier(s, v, g.tier) && s.parse(v).value.group == x;
    if v in LockedOnNodes(s, after, g) {
      SeenOnNode(s, d, after, g, v);
    } else {
      UntouchedSwitch(s, c, p, nodes, switches, g, v);
    }
  }

  lemma UntouchedSwitch(s: Syntax, c: Cluster, p: Plan, nodes: set<string>, switches: set<string>, g: DiscoveredGroup,
                        v: string)
    requires switches !! p.switches.Keys && v in LockedOnSwitches(Land(c, p, nodes, switches), g)
    ensures v in Locked(s, c, g)
  {
    assert Land(c, p, nodes, switches).switches == c.switches;
    assert v in LockedOnSwitches(c, g);
  }

  lemma SeenOnNode(s: Syntax, d: RoleTopology, c: Cluster, g: DiscoveredGroup, v: string)
    requires Lawful(s) && GroupsSeparate(d.groups) && g in d.groups && v in LockedOnNodes(s, c, g)
    requires NamesTier(s, v, g.tier)
    ensures v in InUse(s, d.role, c) && s.parse(v).value.group <= Top(s, d, c, g.tier)
  {
    var k := s.render(g.tier);
    assert s.matchTier(k) == Some(g.tier);
    var n :| n in g.nodes && n in c.nodes && k in c.nodes[n] && v == c.nodes[n][k];
    assert v in NodeNames(s, c.nodes);
    assert IsHighest(s, InUse(s, d.role, c), g.tier, Top(s, d, c, g.tier));
  }

  /** Once all Nodes are written every group has its name. */
  lemma AllNamed(s: Syntax, d: RoleTopology, c: Cluster, names: GroupNames, p: Plan, nodes: set<string>,
                 switches: set<string>, tier: int)
    requires Planned(s, d, c, names, p) && p.nodes.Keys <= nodes
    ensures Unnamed(s, d, Land(c, p, nodes, switches), tier) == 0
  {
    var after := Land(c, p, nodes, switches);
    forall g | g in d.groups
      ensures Locked(s, after, g) != {}
    {
      NodeNamesGroup(s, d, c, names, p, nodes, switches, g);
    }
    assert FreshGroups(s, after, d.groups, tier) == {};
  }

  lemma NodeNamesGroup(s: Syntax, d: RoleTopology, c: Cluster, names: GroupNames, p: Plan, nodes: set<string>,
                       switches: set<string>, g: DiscoveredGroup)
    requires Planned(s, d, c, names, p) && p.nodes.Keys <= nodes && g in d.groups
    ensures Locked(s, Land(c, p, nodes, switches), g) != {}
  {
    var after, k := Land(c, p, nodes, switches), s.render(g.tier);
    assert GroupReadable(s, d, c, g);
    var n :| n in g.nodes;
    if k !in c.nodes[n] {
      assert LacksKey(s, c, g, n);
      assert NodeEntry(p, n, k) == Some(names[g]);
    }
    assert after.nodes[n][k] in LockedOnNodes(s, after, g);
  }

  // ------------------------------------------------------------------- over whole runs

  /** n + (n - 1) + ... + 1: how far n unnamed groups can push the highest number, one interrupted
      reconcile after the other. */
  ghost function Reach(n: nat): (r: nat)
    ensures r >= n
  {
    if n == 0 then 0 else n + Reach(n - 1)
  }

  lemma {:induction false} ReachIsHalfSquare(n: nat)
    ensures 2 * Reach(n) == n * (n + 1)
    decreases n
  {
    if n > 0 {
      ReachIsHalfSquare(n - 1);
    }
  }

  lemma {:induction false} ReachGrows(m: nat, n: nat)
    requires m <= n
    ensures Reach(m) <= Reach(n)
    decreases n
  {
    if m < n {
      ReachGrows(m, n - 1);
    }
  }

  /** Hidden numbers keep their distance from the highest number in use and from each other. */
  ghost predicate Spaced(s: Syntax, d: RoleTopology, c: Cluster) {
    && (forall g, x {:trigger Hidden(s, d, c, g, x)} :: Hidden(s, d, c, g, x) ==>
          x > Top(s, d, c, g.tier) + Reach(Unnamed(s, d, c, g.tier)))
    && (forall g, x, h, y {:trigger Hidden(s, d, c, g, x), Hidden(s, d, c, h, y)} ::
          Hidden(s, d, c, g, x) && Hidden(s, d, c, h, y) && g.tier == h.tier && y < x ==>
          x > y + Reach(Unnamed(s, d, c, g.tier)))
  }

  lemma SpacedNeverClashes(s: Syntax, d: RoleTopology, c: Cluster)
    requires Spaced(s, d, c)
    ensures !FreshNamesClash(s, d, c)
  {
    ClashIsHidden(s, d, c);
  }

  /** Members of the role hide nothing. */
  lemma OwnRoleIsSpaced(s: Syntax, d: RoleTopology, c: Cluster)
    requires Lawful(s) && GroupsSeparate(d.groups) && MembersHaveRole(d, c)
    ensures Spaced(s, d, c) && forall g, x :: !Hidden(s, d, c, g, x)
  {
    forall g, x
      ensures !Hidden(s, d, c, g, x)
    {
      if Hidden(s, d, c, g, x) {
        var v :| v in Locked(s, c, g) && NamesTier(s, v, g.tier) && s.parse(v).value.group == x;
        OwnNameIsSeen(s, d, c, g, v);
      }
    }
  }

  lemma OwnNameIsSeen(s: Syntax, d: RoleTopology, c: Cluster, g: DiscoveredGroup, v: string)
    requires Lawful(s) && GroupsSeparate(d.groups) && MembersHaveRole(d, c) && g in d.groups
    requires v in Locked(s, c, g) && NamesTier(s, v, g.tier)
    ensures s.parse(v).value.group <= Top(s, d, c, g.tier)
  {
    assert s.matchTier(s.render(g.tier)).Some?;
    assert v in InUse(s, d.role, c);
    assert IsHighest(s, InUse(s, d.role, c), g.tier, Top(s, d, c, g.tier));
  }

  lemma MovedKeepsDistance(s: Syntax, d: RoleTopology, c: Cluster, after: Cluster, g: DiscoveredGroup, x: int)
    requires Spaced(s, d, c) && Moved(s, d, c, after, g.tier) && Hidden(s, d, c, g, x) && x > Top(s, d, after, g.tier)
    ensures x > Top(s, d, after, g.tier) + Reach(Unnamed(s, d, after, g.tier))
  {
    var count, count' := Unnamed(s, d, c, g.tier), Unnamed(s, d, after, g.tier);
    ReachGrows(count', count);
    if count' + 1 <= count {
      ReachGrows(count', count - 1);
    }
  }

  lemma SpacedAfterNodes(s: Syntax, d: RoleTopology, c: Cluster, names: GroupNames, p: Plan, nodes: set<string>,
                         switches: set<string>)
    requires Planned(s, d, c, names, p) && Spaced(s, d, c) && switches !! p.switches.Keys
    ensures Spaced(s, d, Land(c, p, nodes, switches))
  {
    var after := Land(c, p, nodes, switches);
    forall g, x | Hidden(s, d, after, g, x)
      ensures Hidden(s, d, c, g, x)
      ensures x > Top(s, d, after, g.tier) + Reach(Unnamed(s, d, after, g.tier))
    {
      HiddenBefore(s, d, c, names, p, nodes, switches, g, x);
      LandMoves(s, d, c, names, p, nodes, switches, g.tier);
      MovedKeepsDistance(s, d, c, after, g, x);
    }
    forall g, x, h, y | Hidden(s, d, after, g, x) && Hidden(s, d, after, h, y) && g.tier == h.tier && y < x
      ensures x > y + Reach(Unnamed(s, d, after, g.tier))
    {
      assert Hidden(s, d, c, g, x) && Hidden(s, d, c, h, y);
      LandGrows(s, d, c, names, p, nodes, switches, g.tier);
      ReachGrows(Unnamed(s, d, after, g.tier), Unnamed(s, d, c, g.tier));
    }
  }

  /** Spacing outlives every interrupted reconcile, so the next plan succeeds too. */
  lemma LandKeepsSpaced(s: Syntax, d: RoleTopology, c: Cluster, names: GroupNames, p: Plan, nodes: set<string>,
                        switches: set<string>)
    requires Planned(s, d, c, names, p) && Spaced(s, d, c) && NodesFirst(p, nodes, switches)
    ensures Spaced(s, d, Land(c, p, nodes, switches)) && Consistent(s, d, Land(c, p, nodes, switches))
    ensures !FreshNamesClash(s, d, Land(c, p, nodes, switches))
  {
    var after := Land(c, p, nodes, switches);
    LandKeepsConsistent(s, d, c, names, p, nodes, switches);
    if switches !! p.switches.Keys {
      SpacedAfterNodes(s, d, c, names, p, nodes, switches);
    } else {
      forall tier
        ensures Unnamed(s, d, after, tier) == 0
      {
        AllNamed(s, d, c, names, p, nodes, switches, tier);
      }
    }
    SpacedNeverClashes(s, d, after);
  }

  // --------------------------------------------------------------- a single Node is written

  /** One Node that lacks the label of group `h`, and nothing else, is written. */
  ghost predicate OneNode(s: Syntax, d: RoleTopology, c: Cluster, names: GroupNames, p: Plan, h: DiscoveredGroup,
                          n: string, after: Cluster) {
    Planned(s, d, c, names, p) && h in d.groups && LacksKey(s, c, h, n) && after == Land(c, p, {n}, {})
  }

  lemma WrittenNode(s: Syntax, d: RoleTopology, c: Cluster, names: GroupNames, p: Plan, h: DiscoveredGroup, n: string,
                    after: Cluster)
    requires OneNode(s, d, c, names, p, h, n, after)
    ensures names[h] in Locked(s, after, h) && names[h] in InUse(s, d.role, after) && NamesTier(s, names[h], h.tier)
  {
    var k := s.render(h.tier);
    assert NodeEntry(p, n, k) == Some(names[h]);
    assert after.nodes[n][k] == names[h] && s.matchTier(k) == Some(h.tier);
    assert names[h] in LockedOnNodes(s, after, h) && names[h] in NodeNames(s, after.nodes);
    assert NameFits(s, d, c, h, names[h]);
  }

  lemma OneGroupPerTier(groups: set<DiscoveredGroup>, g: DiscoveredGroup, h: DiscoveredGroup, n: string)
    requires GroupsSeparate(groups) && g in groups && h in groups && g.tier == h.tier && n in g.nodes && n in h.nodes
    ensures g == h
  {
  }

  lemma NewNameOnNode(s: Syntax, d: RoleTopology, c: Cluster, names: GroupNames, p: Plan, n: string, v: string)
    returns (g: DiscoveredGroup)
    requires PlanFor(s, d, c, names, p)
    requires v in InUse(s, d.role, Land(c, p, {n}, {})) && v !in InUse(s, d.role, c)
    ensures g in d.groups && n in g.nodes && g in names && names[g] == v
  {
    var m, k := LabelOfNewName(s, d.role, c, p, n, v);
    g := NodeNameHasGroup(s, d, c, names, p, {n}, {}, m, k);
  }

  lemma LabelOfNewName(s: Syntax, role: string, c: Cluster, p: Plan, n: string, v: string)
    returns (m: string, k: string)
    requires v in InUse(s, role, Land(c, p, {n}, {})) && v !in InUse(s, role, c)
    ensures var after := Land(c, p, {n}, {});
      m in after.nodes && k in after.nodes[m] && s.matchTier(k).Some? && v == after.nodes[m][k]
  {
    var after := Land(c, p, {n}, {});
    assert after.switches == c.switches;
    assert v in NodeNames(s, after.nodes);
    m, k :| m in after.nodes && k in after.nodes[m] && s.matchTier(k).Some? && v == after.nodes[m][k];
  }

  lemma OnlyThatName(s: Syntax, d: RoleTopology, c: Cluster, names: GroupNames, p: Plan, h: DiscoveredGroup, n: string,
                     v: string)
    requires GroupsSeparate(d.groups) && PlanFor(s, d, c, names, p) && h in d.groups && n in h.nodes
    requires v in InUse(s, d.role, Land(c, p, {n}, {})) && v !in InUse(s, d.role, c) && NamesTier(s, v, h.tier)
    ensures v == names[h]
  {
    var g := NewNameOnNode(s, d, c, names, p, n, v);
    assert NameFits(s, d, c, g, names[g]);
    OneGroupPerTier(d.groups, g, h, n);
  }

  /** The highest number becomes that of the group, if it is higher. */
  lemma TopAfterNode(s: Syntax, d: RoleTopology, c: Cluster, names: GroupNames, p: Plan, h: DiscoveredGroup, n: string,
                     after: Cluster, z: int)
    requires OneNode(s, d, c, names, p, h, n, after) && s.parse(names[h]).Some? && s.parse(names[h]).value.group == z
    requires z > Top(s, d, c, h.tier)
    ensures Top(s, d, after, h.tier) == z
  {
    var used := InUse(s, d.role, after);
    WrittenNode(s, d, c, names, p, h, n, after);
    assert IsHighest(s, InUse(s, d.role, c), h.tier, Top(s, d, c, h.tier));
    forall v | v in used && NamesTier(s, v, h.tier)
      ensures s.parse(v).value.group <= z
    {
      if v !in InUse(s, d.role, c) {
        OnlyThatName(s, d, c, names, p, h, n, v);
      }
    }
    assert Attains(s, used, h.tier, z);
    HighestIsUnique(s, used, h.tier, z, Top(s, d, after, h.tier));
  }

  lemma OthersUntouched(s: Syntax, c: Cluster, p: Plan, n: string, g: DiscoveredGroup)
    requires n !in g.nodes
    ensures Locked(s, Land(c, p, {n}, {}), g) == Locked(s, c, g)
  {
    var after := Land(c, p, {n}, {});
    assert after.switches == c.switches;
    assert forall m :: m in g.nodes && m in c.nodes ==> after.nodes[m] == c.nodes[m];
    assert LockedOnNodes(s, after, g) == LockedOnNodes(s, c, g);
  }

  lemma FreshAfterNode(s: Syntax, groups: set<DiscoveredGroup>, c: Cluster, p: Plan, h: DiscoveredGroup, n: string)
    requires GroupsSeparate(groups) && h in groups && n in h.nodes && Locked(s, Land(c, p, {n}, {}), h) != {}
    ensures FreshGroups(s, Land(c, p, {n}, {}), groups, h.tier) == FreshGroups(s, c, groups, h.tier) - {h}
  {
    var after := Land(c, p, {n}, {});
    forall g | g in groups && g.tier == h.tier && g != h
      ensures Locked(s, after, g) == Locked(s, c, g)
    {
      OthersUntouched(s, c, p, n, g);
    }
  }

  /** The group has its name, all others of its tier are as before. */
  lemma UnnamedAfterNode(s: Syntax, d: RoleTopology, c: Cluster, names: GroupNames, p: Plan, h: DiscoveredGroup,
                         n: string, after: Cluster)
    requires OneNode(s, d, c, names, p, h, n, after)
    ensures Unnamed(s, d, after, h.tier) + (if Locked(s, c, h) == {} then 1 else 0) == Unnamed(s, d, c, h.tier)
  {
    WrittenNode(s, d, c, names, p, h, n, after);
    FreshAfterNode(s, d.groups, c, p, h, n);
    SizeWithout(FreshGroups(s, c, d.groups, h.tier), h);
  }

  lemma StaysHidden(s: Syntax, d: RoleTopology, c: Cluster, names: GroupNames, p: Plan, nodes: set<string>,
                    switches: set<string>, g: DiscoveredGroup, x: int)
    requires PlanFor(s, d, c, names, p) && Hidden(s, d, c, g, x) && x > Top(s, d, Land(c, p, nodes, switches), g.tier)
    ensures Hidden(s, d, Land(c, p, nodes, switches), g, x)
  {
    PlanForFits(s, d, c, names, p);
    LandKeepsLabels(c, p, nodes, switches);
    KeptStaysLocked(s, c, Land(c, p, nodes, switches), g);
  }

  // ------------------------------------------------------------- the highest fresh number

  /** No more groups than numbers. */
  lemma {:induction false} NoMoreThanNumbers(groups: set<DiscoveredGroup>, number: map<DiscoveredGroup, int>, low: int,
                                             n: nat)
    requires groups <= number.Keys && forall g :: g in groups ==> low < number[g] <= low + n
    requires forall g, h :: g in groups && h in groups && number[g] == number[h] ==> g == h
    ensures |groups| <= n
    decreases n
  {
    if n == 0 {
      assert groups == {};
    } else if g :| g in groups && number[g] == low + n {
      NoMoreThanNumbers(groups - {g}, number, low, n - 1);
    } else {
      NoMoreThanNumbers(groups, number, low, n - 1);
    }
  }

  /** As many groups as numbers: the highest one is taken. */
  lemma HighestIsTaken(groups: set<DiscoveredGroup>, number: map<DiscoveredGroup, int>, low: int)
    returns (top: DiscoveredGroup)
    requires groups != {} && groups <= number.Keys && forall g :: g in groups ==> low < number[g] <= low + |groups|
    requires forall g, h :: g in groups && h in groups && number[g] == number[h] ==> g == h
    ensures top in groups && number[top] == low + |groups|
  {
    if forall g :: g in groups ==> number[g] != low + |groups| {
      NoMoreThanNumbers(groups, number, low, |groups| - 1);
    }
    top :| top in groups && number[top] == low + |groups|;
  }

  /** The group that the plan gives the highest new number. */
  lemma LastFresh(s: Syntax, d: RoleTopology, c: Cluster, names: GroupNames, p: Plan, tier: int)
    returns (h: DiscoveredGroup, n: string)
    requires Planned(s, d, c, names, p) && Unnamed(s, d, c, tier) > 0
    ensures h in d.groups && h.tier == tier && Locked(s, c, h) == {} && LacksKey(s, c, h, n)
    ensures NamesTier(s, names[h], tier)
    ensures s.parse(names[h]).value.group == Top(s, d, c, tier) + Unnamed(s, d, c, tier)
  {
    var groups := FreshGroups(s, c, d.groups, tier);
    var number := map g | g in groups :: NumberIn(s, names[g]);
    FreshNumbersDiffer(s, d, c, names, tier);
    h := HighestIsTaken(groups, number, Top(s, d, c, tier));
    assert NameFits(s, d, c, h, names[h]) && GroupReadable(s, d, c, h);
    n :| n in h.nodes;
    UnlockedLacksKey(s, c, h, n);
  }

  lemma UnlockedLacksKey(s: Syntax, c: Cluster, h: DiscoveredGroup, n: string)
    requires Locked(s, c, h) == {} && n in h.nodes && n in c.nodes
    ensures LacksKey(s, c, h, n)
  {
    if s.render(h.tier) in c.nodes[n] {
      LabelledIsLocked(s, c, h, n);
    }
  }

  lemma LabelledIsLocked(s: Syntax, c: Cluster, h: DiscoveredGroup, n: string)
    requires n in h.nodes && n in c.nodes && s.render(h.tier) in c.nodes[n]
    ensures c.nodes[n][s.render(h.tier)] in LockedOnNodes(s, c, h)
  {
  }

  ghost function NumberIn(s: Syntax, v: string): int {
    if s.parse(v).Some? then s.parse(v).value.group else 0
  }

  lemma FreshNumbersDiffer(s: Syntax, d: RoleTopology, c: Cluster, names: GroupNames, tier: int)
    requires Lawful(s) && SoundNames(s, d, c, names) && Numbered(s, d, c, names)
    ensures forall g :: g in FreshGroups(s, c, d.groups, tier) ==>
      Top(s, d, c, tier) < NumberIn(s, names[g]) <= Top(s, d, c, tier) + Unnamed(s, d, c, tier)
    ensures forall g, h :: g in FreshGroups(s, c, d.groups, tier) && h in FreshGroups(s, c, d.groups, tier) ==>
      NumberIn(s, names[g]) == NumberIn(s, names[h]) ==> g == h
  {
    var groups := FreshGroups(s, c, d.groups, tier);
    forall g | g in groups
      ensures NamesTier(s, names[g], tier) && s.name(tier, NumberIn(s, names[g])) == names[g]
      ensures Top(s, d, c, tier) < NumberIn(s, names[g]) <= Top(s, d, c, tier) + Unnamed(s, d, c, tier)
    {
      assert g in names && Locked(s, c, g) == {};
      assert s.parse(names[g]).Some?;
    }
  }

  // -------------------------------------------------------------- exactly: one reconcile

  /** The number is within reach of the plan after this one. */
  ghost predicate IsNear(s: Syntax, d: RoleTopology, c: Cluster, g: DiscoveredGroup, x: int) {
    Unnamed(s, d, c, g.tier) > 0 && x < Top(s, d, c, g.tier) + 2 * Unnamed(s, d, c, g.tier)
  }

  /** Room for one interrupted reconcile. */
  ghost predicate RoomForOne(s: Syntax, d: RoleTopology, c: Cluster) {
    && (forall g, x {:trigger Hidden(s, d, c, g, x)} :: Hidden(s, d, c, g, x) ==> !IsNear(s, d, c, g, x))
    && (forall g, x, h, y {:trigger Hidden(s, d, c, g, x), Hidden(s, d, c, h, y)} ::
          Hidden(s, d, c, g, x) && Hidden(s, d, c, h, y) && g.tier == h.tier && y < x ==>
          x > y + Unnamed(s, d, c, g.tier))
  }

  /** Whatever part of the plan lands, the next one can be built. */
  ghost predicate SurvivesLanding(s: Syntax, d: RoleTopology, c: Cluster, p: Plan) {
    forall nodes, switches {:trigger ClashesAfter(s, d, c, p, nodes, switches)} ::
      NodesFirst(p, nodes, switches) ==> !ClashesAfter(s, d, c, p, nodes, switches)
  }

  ghost predicate ClashesAfter(s: Syntax, d: RoleTopology, c: Cluster, p: Plan, nodes: set<string>,
                               switches: set<string>) {
    FreshNamesClash(s, d, Land(c, p, nodes, switches))
  }

  lemma RoomSurvives(s: Syntax, d: RoleTopology, c: Cluster, names: GroupNames, p: Plan, nodes: set<string>,
                     switches: set<string>)
    requires Planned(s, d, c, names, p) && RoomForOne(s, d, c) && NodesFirst(p, nodes, switches)
    ensures !FreshNamesClash(s, d, Land(c, p, nodes, switches))
  {
    var after := Land(c, p, nodes, switches);
    ClashIsHidden(s, d, after);
    if g, x :| Hidden(s, d, after, g, x) && x <= Top(s, d, after, g.tier) + Unnamed(s, d, after, g.tier) {
      if switches !! p.switches.Keys {
        HiddenBefore(s, d, c, names, p, nodes, switches, g, x);
        LandMoves(s, d, c, names, p, nodes, switches, g.tier);
        MovedLeavesRoom(s, d, c, after, g, x);
      } else {
        AllNamed(s, d, c, names, p, nodes, switches, g.tier);
      }
    }
  }

  lemma MovedLeavesRoom(s: Syntax, d: RoleTopology, c: Cluster, after: Cluster, g: DiscoveredGroup, x: int)
    requires RoomForOne(s, d, c) && Moved(s, d, c, after, g.tier) && Hidden(s, d, c, g, x)
    requires x > Top(s, d, after, g.tier)
    ensures x > Top(s, d, after, g.tier) + Unnamed(s, d, after, g.tier)
  {
  }

  /** Without that room the landing of a single Node can make the next plan fail. */
  lemma NoRoomClashes(s: Syntax, d: RoleTopology, c: Cluster, names: GroupNames, p: Plan) returns (n: string)
    requires Planned(s, d, c, names, p) && !FreshNamesClash(s, d, c) && !RoomForOne(s, d, c)
    ensures n in p.nodes && ClashesAfter(s, d, c, p, {n}, {})
  {
    ClashIsHidden(s, d, c);
    if g, x :| Hidden(s, d, c, g, x) && IsNear(s, d, c, g, x) {
      n := FirstNumberClashes(s, d, c, names, p, g, x);
    } else {
      var g, x, h, y :| Hidden(s, d, c, g, x) && Hidden(s, d, c, h, y) && g.tier == h.tier && y < x
        && x <= y + Unnamed(s, d, c, g.tier);
      n := NextNumberClashes(s, d, c, names, p, g, x, h, y);
    }
  }

  lemma FirstNumberClashes(s: Syntax, d: RoleTopology, c: Cluster, names: GroupNames, p: Plan, g: DiscoveredGroup,
                           x: int) returns (n: string)
    requires Planned(s, d, c, names, p) && !FreshNamesClash(s, d, c) && Hidden(s, d, c, g, x)
    requires IsNear(s, d, c, g, x)
    ensures n in p.nodes && ClashesAfter(s, d, c, p, {n}, {})
  {
    var h;
    h, n := LandLastFresh(s, d, c, names, p, g, x);
    ClashIsHidden(s, d, Land(c, p, {n}, {}));
  }

  /** Landing the highest new number: it is now the highest, and one group fewer is unnamed. */
  lemma LandLastFresh(s: Syntax, d: RoleTopology, c: Cluster, names: GroupNames, p: Plan, g: DiscoveredGroup, x: int)
    returns (h: DiscoveredGroup, n: string)
    requires Planned(s, d, c, names, p) && !FreshNamesClash(s, d, c) && Hidden(s, d, c, g, x)
    requires Unnamed(s, d, c, g.tier) > 0
    ensures var after := Land(c, p, {n}, {});
      && n in p.nodes && Hidden(s, d, after, g, x)
      && Top(s, d, after, g.tier) == Top(s, d, c, g.tier) + Unnamed(s, d, c, g.tier)
      && Unnamed(s, d, after, g.tier) == Unnamed(s, d, c, g.tier) - 1
  {
    h, n := LastFresh(s, d, c, names, p, g.tier);
    var after := Land(c, p, {n}, {});
    ClashIsHidden(s, d, c);
    assert NodeEntry(p, n, s.render(h.tier)).Some?;
    TopAfterNode(s, d, c, names, p, h, n, after, s.parse(names[h]).value.group);
    UnnamedAfterNode(s, d, c, names, p, h, n, after);
    StaysHidden(s, d, c, names, p, {n}, {}, g, x);
  }

  lemma NextNumberClashes(s: Syntax, d: RoleTopology, c: Cluster, names: GroupNames, p: Plan, g: DiscoveredGroup,
                          x: int, h: DiscoveredGroup, y: int) returns (n: string)
    requires Planned(s, d, c, names, p) && Hidden(s, d, c, g, x) && Hidden(s, d, c, h, y)
    requires g.tier == h.tier && y < x <= y + Unnamed(s, d, c, g.tier)
    ensures n in p.nodes && ClashesAfter(s, d, c, p, {n}, {})
  {
    n := LandHidden(s, d, c, names, p, g, x, h, y);
    ClashIsHidden(s, d, Land(c, p, {n}, {}));
  }

  /** Landing a hidden number: it is now the highest, and as many groups are unnamed. */
  lemma LandHidden(s: Syntax, d: RoleTopology, c: Cluster, names: GroupNames, p: Plan, g: DiscoveredGroup,
                   x: int, h: DiscoveredGroup, y: int) returns (n: string)
    requires Planned(s, d, c, names, p) && Hidden(s, d, c, g, x) && Hidden(s, d, c, h, y)
    requires g.tier == h.tier && y < x
    ensures var after := Land(c, p, {n}, {});
      && n in p.nodes && Hidden(s, d, after, g, x) && Top(s, d, after, g.tier) == y
      && Unnamed(s, d, after, g.tier) == Unnamed(s, d, c, g.tier)
  {
    n := HiddenGroupLacksKey(s, d, c, names, h, y);
    var after := Land(c, p, {n}, {});
    assert NodeEntry(p, n, s.render(h.tier)).Some?;
    TopAfterNode(s, d, c, names, p, h, n, after, y);
    UnnamedAfterNode(s, d, c, names, p, h, n, after);
    StaysHidden(s, d, c, names, p, {n}, {}, g, x);
  }

  /** No Node of a group with a hidden name carries it. */
  lemma HiddenGroupLacksKey(s: Syntax, d: RoleTopology, c: Cluster, names: GroupNames, h: DiscoveredGroup, y: int)
    returns (n: string)
    requires Lawful(s) && GroupsSeparate(d.groups) && Inhabited(d.groups) && Consistent(s, d, c)
    requires SoundNames(s, d, c, names) && Hidden(s, d, c, h, y)
    ensures LacksKey(s, c, h, n) && Locked(s, c, h) != {}
    ensures s.parse(names[h]).Some? && s.parse(names[h]).value.group == y
  {
    var v :| v in Locked(s, c, h) && NamesTier(s, v, h.tier) && s.parse(v).value.group == y;
    assert NameFits(s, d, c, h, names[h]) && GroupReadable(s, d, c, h);
    n :| n in h.nodes;
    if s.render(h.tier) in c.nodes[n] {
      assert c.nodes[n][s.render(h.tier)] in LockedOnNodes(s, c, h);
      SeenOnNode(s, d, c, h, v);
    }
  }

  lemma RoomSurvivesAll(s: Syntax, d: RoleTopology, c: Cluster, names: GroupNames, p: Plan)
    requires Planned(s, d, c, names, p) && RoomForOne(s, d, c)
    ensures SurvivesLanding(s, d, c, p)
  {
    forall nodes, switches | NodesFirst(p, nodes, switches)
      ensures !ClashesAfter(s, d, c, p, nodes, switches)
    {
      RoomSurvives(s, d, c, names, p, nodes, switches);
    }
  }

  lemma OneNodeFails(s: Syntax, d: RoleTopology, c: Cluster, p: Plan, n: string)
    requires ClashesAfter(s, d, c, p, {n}, {})
    ensures !SurvivesLanding(s, d, c, p)
  {
    assert NodesFirst(p, {n}, {});
  }

  lemma NoRoomFails(s: Syntax, d: RoleTopology, c: Cluster, names: GroupNames, p: Plan)
    requires Planned(s, d, c, names, p) && !FreshNamesClash(s, d, c) && !RoomForOne(s, d, c)
    ensures !SurvivesLanding(s, d, c, p)
  {
    var n := NoRoomClashes(s, d, c, names, p);
    OneNodeFails(s, d, c, p, n);
  }

  /** The next plan can be built whatever part of this one lands, if and only if there is room. */
  lemma SurvivesIffRoom(s: Syntax, d: RoleTopology, c: Cluster, names: GroupNames, p: Plan)
    requires Planned(s, d, c, names, p) && !FreshNamesClash(s, d, c)
    ensures SurvivesLanding(s, d, c, p) <==> RoomForOne(s, d, c)
  {
    if RoomForOne(s, d, c) {
      RoomSurvivesAll(s, d, c, names, p);
    } else {
      NoRoomFails(s, d, c, names, p);
    }
  }
}
