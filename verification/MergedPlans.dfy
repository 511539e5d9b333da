/** One reconcile writes the merged plan of all managed topologies. The groups of each end up as
    if its own plan had landed alone, so its labels keep fitting. Where no topology labels a
    Switch that another one reads, all that it sees is as if its plan had landed alone, so
    everything proved about one plan holds for the merged plan. */
module MergedPlans {
  import opened Wrappers
  import opened Decimal
  import opened LabelSyntax
  import opened NormalizeGroups
  import opened AutoLabel
  import opened AutoLabelPlan
  import opened CrashSafety
  import opened FreshNumbers
  import opened InterruptedRuns
  import opened PlanMerge
  import opened GroupHierarchy
  import opened LabelsToStatus
  import opened StatusPaths
  import opened Sets
  import LabelTemplate
  import NodeGroups
  import TopologyStatus

  /** A managed topology: its label syntax and what discovery found for its role. */
  datatype Managed = Managed(s: Syntax, d: RoleTopology)

  /** What discovery and the configuration guarantee for one topology. */
  ghost predicate Sound(x: Managed) {
    Lawful(x.s) && GroupsSeparate(x.d.groups)
  }

  /** The topology reads the domain of this Switch: it has the role, or is a member. */
  ghost predicate Sees(x: Managed, c: Cluster, w: string) {
    w in c.switches && (c.switches[w].role == x.d.role || IsMember(x.d.groups, w))
  }

  /** Templates that share no key, and no topology labels a Switch that the other one sees. */
  ghost predicate Apart(x: Managed, y: Managed, c: Cluster) {
    && KeysApart(x.s, y.s)
    && (forall w {:trigger Sees(x, c, w)} :: Sees(x, c, w) ==> !IsMember(y.d.groups, w))
    && (forall w {:trigger Sees(y, c, w)} :: Sees(y, c, w) ==> !IsMember(x.d.groups, w))
  }

  /** Different roles and members of the role only are one way to be apart. */
  lemma RolesAreApart(x: Managed, y: Managed, c: Cluster)
    requires KeysApart(x.s, y.s) && x.d.role != y.d.role && MembersHaveRole(x.d, c) && MembersHaveRole(y.d, c)
    ensures Apart(x, y, c)
  {
    forall w | w in c.switches
      ensures IsMember(x.d.groups, w) ==> c.switches[w].role == x.d.role
      ensures IsMember(y.d.groups, w) ==> c.switches[w].role == y.d.role
    {
    }
  }

  lemma KeysApartSwaps(s: Syntax, u: Syntax)
    requires KeysApart(s, u)
    ensures KeysApart(u, s)
  {
    forall k | u.matchTier(k).Some?
      ensures s.matchTier(k).None?
    {
      assert s.matchTier(k).Some? ==> u.matchTier(k).None?;
    }
  }

  lemma ApartIsSymmetric(x: Managed, y: Managed, c: Cluster)
    requires Apart(x, y, c)
    ensures Apart(y, x, c)
  {
    KeysApartSwaps(x.s, y.s);
  }

  /** What two topologies share does not depend on the labels. */
  lemma ApartIsKept(x: Managed, y: Managed, a: Cluster, b: Cluster)
    requires Apart(x, y, a) && LabelsKept(a, b)
    ensures Apart(x, y, b)
  {
    forall w
      ensures Sees(x, b, w) ==> Sees(x, a, w)
      ensures Sees(y, b, w) ==> Sees(y, a, w)
    {
    }
  }

  // --------------------------------------------------------------------------- the view

  function LabelOf(c: Cluster, n: string, k: string): Option<string> {
    if n in c.nodes && k in c.nodes[n] then Some(c.nodes[n][k]) else None
  }

  /** The topology sees the same in both clusters. */
  ghost predicate SameView(x: Managed, a: Cluster, b: Cluster) {
    && a.nodes.Keys == b.nodes.Keys && a.switches.Keys == b.switches.Keys
    && (forall n, k {:trigger LabelOf(a, n, k)} {:trigger LabelOf(b, n, k)} :: x.s.matchTier(k).Some? ==>
          LabelOf(a, n, k) == LabelOf(b, n, k))
    && (forall w {:trigger a.switches[w]} {:trigger b.switches[w]} :: w in a.switches ==>
          a.switches[w].role == b.switches[w].role
            && (Sees(x, a, w) ==> a.switches[w].domain == b.switches[w].domain))
  }

  /** The groups of the topology carry the same in both clusters. */
  ghost predicate SameOnGroups(x: Managed, a: Cluster, b: Cluster) {
    && a.nodes.Keys == b.nodes.Keys && a.switches.Keys == b.switches.Keys
    && (forall n, k {:trigger LabelOf(a, n, k)} {:trigger LabelOf(b, n, k)} :: x.s.matchTier(k).Some? ==>
          LabelOf(a, n, k) == LabelOf(b, n, k))
    && (forall w {:trigger a.switches[w]} {:trigger b.switches[w]} :: w in a.switches && IsMember(x.d.groups, w) ==>
          a.switches[w].domain == b.switches[w].domain)
  }

  lemma ViewIsSymmetric(x: Managed, a: Cluster, b: Cluster)
    requires SameView(x, a, b)
    ensures SameView(x, b, a)
  {
  }

  /** The key of a group's tier is the topology's own, so both clusters hold the same under it. */
  lemma ViewOfGroupKey(x: Managed, a: Cluster, b: Cluster, g: DiscoveredGroup, n: string)
    requires Sound(x) && SameOnGroups(x, a, b) && g in x.d.groups
    ensures LabelOf(a, n, x.s.render(g.tier)) == LabelOf(b, n, x.s.render(g.tier))
  {
    assert x.s.matchTier(x.s.render(g.tier)) == Some(g.tier);
  }

  lemma ViewLocked(x: Managed, a: Cluster, b: Cluster, g: DiscoveredGroup)
    requires Sound(x) && SameOnGroups(x, a, b) && g in x.d.groups
    ensures Locked(x.s, a, g) <= Locked(x.s, b, g)
  {
    forall v | v in LockedOnNodes(x.s, a, g)
      ensures v in LockedOnNodes(x.s, b, g)
    {
      var n :| n in g.nodes && n in a.nodes && x.s.render(g.tier) in a.nodes[n] && v == a.nodes[n][x.s.render(g.tier)];
      ViewOfGroupKey(x, a, b, g, n);
    }
    forall v | v in LockedOnSwitches(a, g)
      ensures v in LockedOnSwitches(b, g)
    {
      var m :| m in g.members && m in a.switches && a.switches[m].domain != "" && v == a.switches[m].domain;
      assert IsMember(x.d.groups, m);
    }
  }

  lemma ViewLockedSame(x: Managed, a: Cluster, b: Cluster, g: DiscoveredGroup)
    requires Sound(x) && SameOnGroups(x, a, b) && g in x.d.groups
    ensures Locked(x.s, a, g) == Locked(x.s, b, g)
  {
    ViewLocked(x, a, b, g);
    ViewLocked(x, b, a, g);
  }

  lemma ViewInUse(x: Managed, a: Cluster, b: Cluster)
    requires SameView(x, a, b)
    ensures InUse(x.s, x.d.role, a) <= InUse(x.s, x.d.role, b)
  {
    forall v | v in NodeNames(x.s, a.nodes)
      ensures v in NodeNames(x.s, b.nodes)
    {
      var n, k :| n in a.nodes && k in a.nodes[n] && x.s.matchTier(k).Some? && v == a.nodes[n][k];
      assert LabelOf(a, n, k) == LabelOf(b, n, k);
    }
    forall v | v in AutoLabel.SwitchNames(x.d.role, a.switches)
      ensures v in AutoLabel.SwitchNames(x.d.role, b.switches)
    {
      var w :| w in a.switches && a.switches[w].role == x.d.role && a.switches[w].domain != ""
        && v == a.switches[w].domain;
      assert Sees(x, a, w) && b.switches[w].domain == v;
    }
  }

  lemma ViewScanOk(x: Managed, a: Cluster, b: Cluster)
    requires SameView(x, a, b) && ScanOk(x.s, x.d.role, a)
    ensures ScanOk(x.s, x.d.role, b)
  {
    forall n | n in b.nodes
      ensures NodeLabelsOk(x.s, b.nodes[n])
    {
      forall k | k in b.nodes[n]
        ensures NodeLabelOk(x.s, k, b.nodes[n][k])
      {
        assert x.s.matchTier(k).Some? ==> LabelOf(a, n, k) == LabelOf(b, n, k);
        assert NodeLabelsOk(x.s, a.nodes[n]);
      }
    }
    ViewIsSymmetric(x, a, b);
    ViewInUseOfSwitches(x, b, a);
  }

  lemma ViewInUseOfSwitches(x: Managed, a: Cluster, b: Cluster)
    requires SameView(x, a, b)
    ensures AutoLabel.SwitchNames(x.d.role, a.switches) <= AutoLabel.SwitchNames(x.d.role, b.switches)
  {
    forall v | v in AutoLabel.SwitchNames(x.d.role, a.switches)
      ensures v in AutoLabel.SwitchNames(x.d.role, b.switches)
    {
      var w :| w in a.switches && a.switches[w].role == x.d.role && a.switches[w].domain != ""
        && v == a.switches[w].domain;
      assert Sees(x, a, w) && b.switches[w].domain == v;
    }
  }

  lemma ViewReadable(x: Managed, a: Cluster, b: Cluster, g: DiscoveredGroup)
    requires Sound(x) && SameOnGroups(x, a, b) && g in x.d.groups && GroupReadable(x.s, x.d, a, g)
    ensures GroupReadable(x.s, x.d, b, g)
  {
    ViewLockedSame(x, a, b, g);
  }

  /** Whether the labels fit the groups depends on the view only. */
  lemma ViewConsistent(x: Managed, a: Cluster, b: Cluster)
    requires Sound(x) && SameView(x, a, b) && Consistent(x.s, x.d, a)
    ensures Consistent(x.s, x.d, b)
  {
    ViewScanOk(x, a, b);
    forall g | g in x.d.groups
      ensures Locked(x.s, a, g) == Locked(x.s, b, g) && GroupReadable(x.s, x.d, b, g)
    {
      ViewLockedSame(x, a, b, g);
      ViewReadable(x, a, b, g);
    }
  }

  lemma ViewOwn(x: Managed, a: Cluster, b: Cluster)
    requires SameView(x, a, b) && OwnLabels(x.s, x.d, a)
    ensures OwnLabels(x.s, x.d, b)
  {
    forall n, k | n in b.nodes && k in b.nodes[n] && x.s.matchTier(k).Some?
      ensures HasGroupAt(x.d.groups, n, x.s.matchTier(k).value)
    {
      assert LabelOf(a, n, k) == LabelOf(b, n, k);
      var v := a.nodes[n][k];
    }
    forall w | w in b.switches && b.switches[w].role == x.d.role && b.switches[w].domain != ""
      ensures IsMember(x.d.groups, w)
    {
      assert Sees(x, a, w);
    }
  }

  lemma ViewTierValue(x: Managed, a: Cluster, b: Cluster, n: string, tier: int)
    requires Lawful(x.s) && SameView(x, a, b) && n in a.nodes && 1 <= tier <= MAX_INT
    ensures TierValue(x.s, a.nodes[n], tier) == TierValue(x.s, b.nodes[n], tier)
  {
    assert x.s.matchTier(x.s.render(tier)) == Some(tier);
    assert LabelOf(a, n, x.s.render(tier)) == LabelOf(b, n, x.s.render(tier));
  }

  lemma ViewWritten(x: Managed, a: Cluster, b: Cluster, names: Names)
    requires SameView(x, a, b) && Written(x.s, x.d, a, names)
    ensures Written(x.s, x.d, b, names)
  {
    forall n, t | n in b.nodes && 1 <= t <= MAX_INT
      ensures NodeReads(x.s, x.d.groups, names, n, b.nodes[n], t)
    {
      assert NodeReads(x.s, x.d.groups, names, n, a.nodes[n], t);
      ViewTierValue(x, a, b, n, t);
    }
    forall w | w in b.switches && b.switches[w].role == x.d.role
      ensures SwitchReads(x.d.groups, names, w, b.switches[w].domain)
    {
      assert Sees(x, a, w) && SwitchReads(x.d.groups, names, w, a.switches[w].domain);
    }
  }

  /** The highest numbers and the unnamed groups depend on the view only. */
  lemma ViewNumbers(x: Managed, a: Cluster, b: Cluster, tier: int)
    requires Sound(x) && SameView(x, a, b)
    ensures Top(x.s, x.d, a, tier) == Top(x.s, x.d, b, tier)
    ensures FreshGroups(x.s, a, x.d.groups, tier) == FreshGroups(x.s, b, x.d.groups, tier)
  {
    ViewInUse(x, a, b);
    ViewIsSymmetric(x, a, b);
    ViewInUse(x, b, a);
    assert InUse(x.s, x.d.role, a) == InUse(x.s, x.d.role, b);
    forall g | g in x.d.groups
      ensures Locked(x.s, a, g) == Locked(x.s, b, g)
    {
      ViewLockedSame(x, a, b, g);
    }
  }

  lemma ViewHidden(x: Managed, a: Cluster, b: Cluster, g: DiscoveredGroup, n: int)
    requires Sound(x) && SameView(x, a, b)
    ensures Hidden(x.s, x.d, a, g, n) <==> Hidden(x.s, x.d, b, g, n)
  {
    if g in x.d.groups {
      ViewLockedSame(x, a, b, g);
      ViewNumbers(x, a, b, g.tier);
    }
  }

  lemma ViewSpaced(x: Managed, a: Cluster, b: Cluster)
    requires Sound(x) && SameView(x, a, b) && Spaced(x.s, x.d, a)
    ensures Spaced(x.s, x.d, b)
  {
    forall g, n
      ensures Hidden(x.s, x.d, a, g, n) <==> Hidden(x.s, x.d, b, g, n)
      ensures Top(x.s, x.d, a, g.tier) == Top(x.s, x.d, b, g.tier)
      ensures Unnamed(x.s, x.d, a, g.tier) == Unnamed(x.s, x.d, b, g.tier)
    {
      ViewHidden(x, a, b, g, n);
      ViewNumbers(x, a, b, g.tier);
    }
  }

  // ------------------------------------------------------------------- the merged plan

  /** What is a name for one topology is a name for the other. */
  ghost predicate SameNames(s: Syntax, u: Syntax) {
    forall v {:trigger s.parse(v)} {:trigger u.parse(v)} :: s.parse(v).Some? <==> u.parse(v).Some?
  }

  /** Two topologies that the controller may manage together. */
  ghost predicate ManagedTogether(x: Managed, y: Managed) {
    Sound(x) && Sound(y) && KeysApart(x.s, y.s) && SameNames(x.s, y.s)
  }

  /** The real names are the same for all templates, and templates that do not overlap share no
      key. */
  lemma ConfiguredTogether(t: LabelTemplate.Template, u: LabelTemplate.Template)
    requires !LabelTemplate.Overlap(t, u)
    ensures KeysApart(Real(t), Real(u)) && SameNames(Real(t), Real(u))
  {
    forall k | Real(t).matchTier(k).Some?
      ensures Real(u).matchTier(k).None?
    {
      LabelTemplate.MatchesAtMostOne(t, u, k);
    }
  }

  /** Plans for two topologies, numbered as BuildAutoLabelPlan does, and their merge. */
  ghost predicate BothPlanned(x: Managed, y: Managed, c: Cluster, xNames: Names, p: Plan, yNames: Names, q: Plan,
                              r: Plan) {
    && ManagedTogether(x, y) && Agree(p, q) && Merged(p, q, r)
    && PlanFor(x.s, x.d, c, xNames, p) && Numbered(x.s, x.d, c, xNames)
    && PlanFor(y.s, y.d, c, yNames, q) && Numbered(y.s, y.d, c, yNames)
  }

  lemma BothPlannedSwaps(x: Managed, y: Managed, c: Cluster, xNames: Names, p: Plan, yNames: Names, q: Plan, r: Plan)
    requires BothPlanned(x, y, c, xNames, p, yNames, q, r)
    ensures BothPlanned(y, x, c, yNames, q, xNames, p, r)
  {
    KeysApartSwaps(x.s, y.s);
    MergedSwaps(x, y, c, xNames, p, yNames, q, r);
    forall n
      ensures AgreeOnNode(q, p, n)
    {
      assert AgreeOnNode(p, q, n);
    }
    forall w
      ensures AgreeOnSwitch(q, p, w)
    {
      assert AgreeOnSwitch(p, q, w);
    }
  }

  lemma MergedSwaps(x: Managed, y: Managed, c: Cluster, xNames: Names, p: Plan, yNames: Names, q: Plan, r: Plan)
    requires BothPlanned(x, y, c, xNames, p, yNames, q, r)
    ensures Merged(q, p, r)
  {
    forall n, k
      ensures NodeEntry(r, n, k) == Either(NodeEntry(q, n, k), NodeEntry(p, n, k))
    {
      OneRolePerKey(x.s, x.d, xNames, p, y.s, y.d, yNames, q, c, n, k);
    }
    forall w
      ensures SwitchEntry(r, w) == Either(SwitchEntry(q, w), SwitchEntry(p, w))
    {
      assert AgreeOnSwitch(p, q, w);
    }
  }

  lemma LandedLabel(c: Cluster, p: Plan, nodes: set<string>, switches: set<string>, n: string, k: string)
    ensures LabelOf(Land(c, p, nodes, switches), n, k) ==
      if n in c.nodes && n in nodes && NodeEntry(p, n, k).Some? then NodeEntry(p, n, k) else LabelOf(c, n, k)
  {
  }

  lemma OwnEntry(x: Managed, y: Managed, c: Cluster, xNames: Names, p: Plan, yNames: Names, q: Plan, r: Plan, n: string,
                 k: string)
    requires BothPlanned(x, y, c, xNames, p, yNames, q, r) && x.s.matchTier(k).Some?
    ensures NodeEntry(r, n, k) == NodeEntry(p, n, k)
  {
    if NodeEntry(q, n, k).Some? {
      PlanHasOwnKeys(y.s, y.d, c, yNames, q, n, k);
    }
  }

  lemma OwnSwitch(x: Managed, y: Managed, c: Cluster, xNames: Names, p: Plan, yNames: Names, q: Plan, r: Plan,
                  w: string)
    requires BothPlanned(x, y, c, xNames, p, yNames, q, r) && Apart(x, y, c) && Sees(x, c, w)
    ensures SwitchEntry(r, w) == SwitchEntry(p, w)
  {
    if SwitchEntry(q, w).Some? {
      PlanHasOwnSwitches(y.s, y.d, c, yNames, q, w);
    }
  }

  lemma MemberEntry(x: Managed, y: Managed, c: Cluster, xNames: Names, p: Plan, yNames: Names, q: Plan, r: Plan,
                    w: string)
    requires BothPlanned(x, y, c, xNames, p, yNames, q, r) && w in c.switches && IsMember(x.d.groups, w)
    ensures SwitchEntry(r, w) == SwitchEntry(p, w)
  {
    assert AgreeOnSwitch(p, q, w);
    if SwitchEntry(q, w).Some? {
      var h := LandedOnSwitch(y.s, y.d, c, yNames, q, w);
      var g :| g in x.d.groups && w in g.members;
      assert LacksDomain(c, g, w);
    }
  }

  lemma SameLandedLabel(x: Managed, y: Managed, c: Cluster, xNames: Names, p: Plan, yNames: Names, q: Plan, r: Plan,
                        nodes: set<string>, switches: set<string>, n: string, k: string)
    requires BothPlanned(x, y, c, xNames, p, yNames, q, r) && x.s.matchTier(k).Some?
    ensures LabelOf(Land(c, p, nodes, switches), n, k) == LabelOf(Land(c, r, nodes, switches), n, k)
  {
    OwnEntry(x, y, c, xNames, p, yNames, q, r, n, k);
    LandedLabel(c, p, nodes, switches, n, k);
    LandedLabel(c, r, nodes, switches, n, k);
  }

  lemma SameLandedDomain(c: Cluster, p: Plan, r: Plan, nodes: set<string>, switches: set<string>, w: string)
    requires w in c.switches && SwitchEntry(r, w) == SwitchEntry(p, w)
    ensures Land(c, p, nodes, switches).switches[w].domain == Land(c, r, nodes, switches).switches[w].domain
  {
  }

  /** Landing any part of the merged plan leaves the groups of each topology as if that part of
      its own plan had landed alone. */
  lemma LandOnGroups(x: Managed, y: Managed, c: Cluster, xNames: Names, p: Plan, yNames: Names, q: Plan, r: Plan,
                     nodes: set<string>, switches: set<string>)
    requires BothPlanned(x, y, c, xNames, p, yNames, q, r)
    ensures SameOnGroups(x, Land(c, p, nodes, switches), Land(c, r, nodes, switches))
  {
    var alone, merged := Land(c, p, nodes, switches), Land(c, r, nodes, switches);
    forall n, k | x.s.matchTier(k).Some?
      ensures LabelOf(alone, n, k) == LabelOf(merged, n, k)
    {
      SameLandedLabel(x, y, c, xNames, p, yNames, q, r, nodes, switches, n, k);
    }
    forall w | w in alone.switches && IsMember(x.d.groups, w)
      ensures alone.switches[w].domain == merged.switches[w].domain
    {
      MemberEntry(x, y, c, xNames, p, yNames, q, r, w);
      SameLandedDomain(c, p, r, nodes, switches, w);
    }
  }

  /** Where the other topology labels nothing that this one reads, landing any part of the merged
      plan looks to it like landing its own plan. */
  lemma LandView(x: Managed, y: Managed, c: Cluster, xNames: Names, p: Plan, yNames: Names, q: Plan, r: Plan,
                 nodes: set<string>, switches: set<string>)
    requires BothPlanned(x, y, c, xNames, p, yNames, q, r) && Apart(x, y, c)
    ensures SameView(x, Land(c, p, nodes, switches), Land(c, r, nodes, switches))
  {
    var alone, merged := Land(c, p, nodes, switches), Land(c, r, nodes, switches);
    LandOnGroups(x, y, c, xNames, p, yNames, q, r, nodes, switches);
    forall w | Sees(x, alone, w)
      ensures alone.switches[w].domain == merged.switches[w].domain
    {
      assert Sees(x, c, w);
      OwnSwitch(x, y, c, xNames, p, yNames, q, r, w);
      SameLandedDomain(c, p, r, nodes, switches, w);
    }
  }

  /** The merged plan can be applied: it names existing objects and labels they lack. */
  lemma MergedFits(x: Managed, y: Managed, c: Cluster, xNames: Names, p: Plan, yNames: Names, q: Plan, r: Plan)
    requires BothPlanned(x, y, c, xNames, p, yNames, q, r)
    ensures PlanFits(c, r)
  {
    PlanForFits(x.s, x.d, c, xNames, p);
    PlanForFits(y.s, y.d, c, yNames, q);
    forall n, k | NodeEntry(r, n, k).Some?
      ensures n in c.nodes && k !in c.nodes[n]
    {
      assert NodeEntry(p, n, k).Some? || NodeEntry(q, n, k).Some?;
    }
    forall w | SwitchEntry(r, w).Some?
      ensures w in c.switches && c.switches[w].domain == ""
    {
      assert SwitchEntry(p, w).Some? || SwitchEntry(q, w).Some?;
    }
  }

  // ------------------------------------------------------------------- crash safety

  lemma GroupsScanNodes(x: Managed, a: Cluster, b: Cluster, n: string)
    requires SameOnGroups(x, a, b) && ScanOk(x.s, x.d.role, a) && n in b.nodes
    ensures NodeLabelsOk(x.s, b.nodes[n])
  {
    forall k | k in b.nodes[n]
      ensures NodeLabelOk(x.s, k, b.nodes[n][k])
    {
      assert x.s.matchTier(k).Some? ==> LabelOf(a, n, k) == LabelOf(b, n, k);
      assert NodeLabelsOk(x.s, a.nodes[n]);
    }
  }

  /** A Switch of the role holds a name: its own, or one that the other topology wants. */
  lemma MergedDomainParses(x: Managed, y: Managed, c: Cluster, xNames: Names, p: Plan, yNames: Names, q: Plan, r: Plan,
                           nodes: set<string>, switches: set<string>, w: string)
    requires BothPlanned(x, y, c, xNames, p, yNames, q, r) && ScanOk(x.s, x.d.role, c) && w in c.switches
    requires var after := Land(c, r, nodes, switches);
      after.switches[w].role == x.d.role && after.switches[w].domain != ""
    ensures x.s.parse(Land(c, r, nodes, switches).switches[w].domain).Some?
  {
    if w in switches && SwitchEntry(r, w).Some? {
      if SwitchEntry(q, w).Some? {
        var h := LandedOnSwitch(y.s, y.d, c, yNames, q, w);
        assert NameFits(y.s, y.d, c, h, yNames[h]);
      } else {
        var g := LandedOnSwitch(x.s, x.d, c, xNames, p, w);
        assert NameFits(x.s, x.d, c, g, xNames[g]);
      }
    } else {
      assert c.switches[w].domain in AutoLabel.SwitchNames(x.d.role, c.switches);
    }
  }

  lemma MergedScanOk(x: Managed, y: Managed, c: Cluster, xNames: Names, p: Plan, yNames: Names, q: Plan, r: Plan,
                     nodes: set<string>, switches: set<string>)
    requires BothPlanned(x, y, c, xNames, p, yNames, q, r) && ScanOk(x.s, x.d.role, c)
    ensures ScanOk(x.s, x.d.role, Land(c, r, nodes, switches))
  {
    var alone, merged := Land(c, p, nodes, switches), Land(c, r, nodes, switches);
    LandedScanOk(x.s, x.d, c, xNames, p, nodes, switches);
    LandOnGroups(x, y, c, xNames, p, yNames, q, r, nodes, switches);
    forall n | n in merged.nodes
      ensures NodeLabelsOk(x.s, merged.nodes[n])
    {
      GroupsScanNodes(x, alone, merged, n);
    }
    forall v | v in AutoLabel.SwitchNames(x.d.role, merged.switches)
      ensures x.s.parse(v).Some?
    {
      var w :| w in merged.switches && merged.switches[w].role == x.d.role && merged.switches[w].domain != ""
        && v == merged.switches[w].domain;
      MergedDomainParses(x, y, c, xNames, p, yNames, q, r, nodes, switches, w);
    }
  }

  /** Whether the labels fit depends on the scan and on the groups only. */
  lemma GroupsConsistent(x: Managed, a: Cluster, b: Cluster)
    requires Sound(x) && SameOnGroups(x, a, b) && Consistent(x.s, x.d, a) && ScanOk(x.s, x.d.role, b)
    ensures Consistent(x.s, x.d, b)
  {
    forall g | g in x.d.groups
      ensures Locked(x.s, a, g) == Locked(x.s, b, g) && GroupReadable(x.s, x.d, b, g)
    {
      ViewLockedSame(x, a, b, g);
      ViewReadable(x, a, b, g);
    }
  }

  /** Whatever part of the merged plan lands, no value changes and the labels of the topology
      still fit its groups; with members of the role its next plan is built without conflict. */
  lemma MergedLandIsSafe(x: Managed, y: Managed, c: Cluster, xNames: Names, p: Plan, yNames: Names, q: Plan, r: Plan,
                         nodes: set<string>, switches: set<string>)
    requires BothPlanned(x, y, c, xNames, p, yNames, q, r) && Consistent(x.s, x.d, c)
    ensures LabelsKept(c, Land(c, r, nodes, switches)) && Consistent(x.s, x.d, Land(c, r, nodes, switches))
    ensures MembersHaveRole(x.d, c) ==> !FreshNamesClash(x.s, x.d, Land(c, r, nodes, switches))
  {
    MergedFits(x, y, c, xNames, p, yNames, q, r);
    LandKeepsLabels(c, r, nodes, switches);
    LandFits(x.s, x.d, c, xNames, p, nodes, switches);
    LandOnGroups(x, y, c, xNames, p, yNames, q, r, nodes, switches);
    MergedScanOk(x, y, c, xNames, p, yNames, q, r, nodes, switches);
    GroupsConsistent(x, Land(c, p, nodes, switches), Land(c, r, nodes, switches));
    if MembersHaveRole(x.d, c) {
      LandNeverClashes(x.s, x.d, c, r, nodes, switches);
    }
  }

  lemma NodesFirstForEach(p: Plan, q: Plan, r: Plan, nodes: set<string>, switches: set<string>)
    requires Merged(p, q, r) && NodesFirst(r, nodes, switches)
    requires forall n {:trigger p.nodes[n]} :: n in p.nodes ==> p.nodes[n] != map[]
    ensures NodesFirst(p, nodes, switches)
  {
    MergedHolds(p, q, r);
  }

  /** With hidden numbers that keep their distance the next plan is built without conflict too,
      whatever roles the members have. */
  lemma MergedLandStaysHealthy(x: Managed, y: Managed, c: Cluster, xNames: Names, p: Plan, yNames: Names, q: Plan,
                               r: Plan, nodes: set<string>, switches: set<string>)
    requires BothPlanned(x, y, c, xNames, p, yNames, q, r) && Apart(x, y, c) && Inhabited(x.d.groups)
      && Healthy(x.s, x.d, c)
    requires NodesFirst(r, nodes, switches)
    ensures Healthy(x.s, x.d, Land(c, r, nodes, switches))
    ensures !FreshNamesClash(x.s, x.d, Land(c, r, nodes, switches))
  {
    NodesFirstForEach(p, q, r, nodes, switches);
    LandKeepsSpaced(x.s, x.d, c, xNames, p, nodes, switches);
    LandView(x, y, c, xNames, p, yNames, q, r, nodes, switches);
    ViewConsistent(x, Land(c, p, nodes, switches), Land(c, r, nodes, switches));
    ViewSpaced(x, Land(c, p, nodes, switches), Land(c, r, nodes, switches));
    SpacedNeverClashes(x.s, x.d, Land(c, r, nodes, switches));
  }

  /** The next plan of the topology keeps every name of its that has landed. */
  lemma MergedNextPlanKeepsNames(x: Managed, y: Managed, c: Cluster, xNames: Names, p: Plan, yNames: Names, q: Plan,
                                 r: Plan,
                                 nodes: set<string>, switches: set<string>, later: Names, next: Plan,
                                 g: DiscoveredGroup)
    requires BothPlanned(x, y, c, xNames, p, yNames, q, r)
    requires PlanFor(x.s, x.d, Land(c, r, nodes, switches), later, next)
    requires g in x.d.groups && Locked(x.s, Land(c, r, nodes, switches), g) != {}
    ensures later[g] == xNames[g]
  {
    var alone, merged := Land(c, p, nodes, switches), Land(c, r, nodes, switches);
    LandOnGroups(x, y, c, xNames, p, yNames, q, r, nodes, switches);
    ViewLockedSame(x, alone, merged, g);
    LandedNames(x.s, x.d, c, xNames, p, nodes, switches, g);
    assert NameFits(x.s, x.d, merged, g, later[g]);
    var v :| v in Locked(x.s, merged, g);
  }

  lemma MergedHolds(p: Plan, q: Plan, r: Plan)
    requires Merged(p, q, r) && forall n {:trigger p.nodes[n]} :: n in p.nodes ==> p.nodes[n] != map[]
    ensures p.nodes.Keys <= r.nodes.Keys && p.switches.Keys <= r.switches.Keys
  {
    forall n | n in p.nodes
      ensures n in r.nodes
    {
      var k :| k in p.nodes[n];
      assert NodeEntry(p, n, k).Some? && NodeEntry(r, n, k).Some?;
    }
    forall w | w in p.switches
      ensures w in r.switches
    {
      assert SwitchEntry(p, w).Some? && SwitchEntry(r, w).Some?;
    }
  }

  lemma LandAll(c: Cluster, p: Plan, nodes: set<string>, switches: set<string>)
    requires p.nodes.Keys <= nodes && p.switches.Keys <= switches
    ensures Land(c, p, nodes, switches) == Landed(c, p)
  {
  }

  /** Landing all of the merged plan lands all of each plan. */
  lemma LandAllView(x: Managed, y: Managed, c: Cluster, xNames: Names, p: Plan, yNames: Names, q: Plan, r: Plan)
    requires BothPlanned(x, y, c, xNames, p, yNames, q, r) && Apart(x, y, c)
    ensures SameView(x, Landed(c, p), Landed(c, r))
  {
    MergedHolds(p, q, r);
    LandAll(c, p, r.nodes.Keys, r.switches.Keys);
    LandView(x, y, c, xNames, p, yNames, q, r, r.nodes.Keys, r.switches.Keys);
  }

  lemma LandAllOnGroups(x: Managed, y: Managed, c: Cluster, xNames: Names, p: Plan, yNames: Names, q: Plan, r: Plan)
    requires BothPlanned(x, y, c, xNames, p, yNames, q, r)
    ensures SameOnGroups(x, Landed(c, p), Landed(c, r))
  {
    MergedHolds(p, q, r);
    LandAll(c, p, r.nodes.Keys, r.switches.Keys);
    LandOnGroups(x, y, c, xNames, p, yNames, q, r, r.nodes.Keys, r.switches.Keys);
  }

  /** After the merged plan has landed completely, the next plan of the topology is empty. */
  lemma MergedFullyAppliedIsQuiet(x: Managed, y: Managed, c: Cluster, xNames: Names, p: Plan, yNames: Names, q: Plan,
                                  r: Plan, later: Names, next: Plan)
    requires BothPlanned(x, y, c, xNames, p, yNames, q, r) && PlanFor(x.s, x.d, Landed(c, r), later, next)
    ensures next.nodes == map[] && next.switches == map[]
  {
    var alone, merged := Landed(c, p), Landed(c, r);
    LandAllOnGroups(x, y, c, xNames, p, yNames, q, r);
    forall n | n in next.nodes
      ensures false
    {
      var k :| k in next.nodes[n];
      assert NodeEntry(next, n, k).Some?;
      var g := LandedOnNode(x.s, x.d, merged, later, next, n, k);
      NoKeyLacking(x.s, x.d, c, xNames, p, g, n);
      ViewOfGroupKey(x, alone, merged, g, n);
    }
    forall w | w in next.switches
      ensures false
    {
      assert SwitchEntry(next, w).Some?;
      var g := LandedOnSwitch(x.s, x.d, merged, later, next, w);
      NoDomainLacking(x.s, x.d, c, xNames, p, g, w);
      assert IsMember(x.d.groups, w);
    }
  }

  /** Once the merged plan has landed completely, the labels are exactly those of the groups. */
  lemma MergedLandedIsWritten(x: Managed, y: Managed, c: Cluster, xNames: Names, p: Plan, yNames: Names, q: Plan,
                              r: Plan)
    requires BothPlanned(x, y, c, xNames, p, yNames, q, r) && Apart(x, y, c) && Hierarchy(x.d.groups) && Placed(x.d, c)
      && OwnLabels(x.s, x.d, c)
    ensures Written(x.s, x.d, Landed(c, r), xNames)
  {
    LandedIsWritten(x.s, x.d, c, xNames, p);
    LandAllView(x, y, c, xNames, p, yNames, q, r);
    ViewWritten(x, Landed(c, p), Landed(c, r), xNames);
  }

  // ------------------------------------------------------------------------- whole runs

  /** One reconcile of both topologies, cut short anywhere. */
  ghost predicate ReconcilesBoth(x: Managed, y: Managed, before: Cluster, after: Cluster) {
    exists xNames, p, yNames, q, r, nodes, switches ::
      MergedLands(x, y, before, xNames, p, yNames, q, r, nodes, switches, after)
  }

  /** Part of the merged plan lands, Nodes first. */
  ghost predicate MergedLands(x: Managed, y: Managed, before: Cluster, xNames: Names, p: Plan, yNames: Names, q: Plan,
                              r: Plan, nodes: set<string>, switches: set<string>, after: Cluster) {
    && BothPlanned(x, y, before, xNames, p, yNames, q, r) && NodesFirst(r, nodes, switches)
    && after == Land(before, r, nodes, switches)
  }

  ghost predicate IsMergedRun(x: Managed, y: Managed, run: seq<Cluster>) {
    |run| > 0 && forall i :: 0 <= i < |run| - 1 ==> ReconcilesBoth(x, y, run[i], run[i + 1])
  }

  lemma StepIsSafe(x: Managed, y: Managed, before: Cluster, after: Cluster)
    requires ReconcilesBoth(x, y, before, after) && Consistent(x.s, x.d, before)
    ensures LabelsKept(before, after) && Consistent(x.s, x.d, after)
    ensures MembersHaveRole(x.d, before) ==> !FreshNamesClash(x.s, x.d, after)
  {
    var xNames, p, yNames, q, r, nodes, switches :|
      MergedLands(x, y, before, xNames, p, yNames, q, r, nodes, switches, after);
    MergedLandIsSafe(x, y, before, xNames, p, yNames, q, r, nodes, switches);
  }

  lemma StepKeepsOwn(x: Managed, y: Managed, before: Cluster, after: Cluster)
    requires ReconcilesBoth(x, y, before, after) && Apart(x, y, before) && OwnLabels(x.s, x.d, before)
    ensures OwnLabels(x.s, x.d, after)
  {
    var xNames, p, yNames, q, r, nodes, switches :|
      MergedLands(x, y, before, xNames, p, yNames, q, r, nodes, switches, after);
    LandKeepsOwn(x.s, x.d, before, xNames, p, nodes, switches);
    LandView(x, y, before, xNames, p, yNames, q, r, nodes, switches);
    ViewOwn(x, Land(before, p, nodes, switches), after);
  }

  lemma StepKeepsHealth(x: Managed, y: Managed, before: Cluster, after: Cluster)
    requires ReconcilesBoth(x, y, before, after) && Apart(x, y, before)
    requires Inhabited(x.d.groups) && Healthy(x.s, x.d, before)
    ensures Healthy(x.s, x.d, after)
  {
    var xNames, p, yNames, q, r, nodes, switches :|
      MergedLands(x, y, before, xNames, p, yNames, q, r, nodes, switches, after);
    MergedLandStaysHealthy(x, y, before, xNames, p, yNames, q, r, nodes, switches);
  }

  lemma StepSwaps(x: Managed, y: Managed, before: Cluster, after: Cluster)
    requires ReconcilesBoth(x, y, before, after)
    ensures ReconcilesBoth(y, x, before, after)
  {
    var xNames, p, yNames, q, r, nodes, switches :|
      MergedLands(x, y, before, xNames, p, yNames, q, r, nodes, switches, after);
    BothPlannedSwaps(x, y, before, xNames, p, yNames, q, r);
    assert MergedLands(y, x, before, yNames, q, xNames, p, r, nodes, switches, after);
  }

  /** Over any run of reconciles that crash anywhere, no label value ever changes and the
      labels of both topologies keep fitting their groups. */
  lemma {:induction false} MergedRunIsSafe(x: Managed, y: Managed, run: seq<Cluster>, i: nat)
    requires IsMergedRun(x, y, run) && i < |run|
    requires Consistent(x.s, x.d, run[0]) && Consistent(y.s, y.d, run[0])
    ensures LabelsKept(run[0], run[i]) && Consistent(x.s, x.d, run[i]) && Consistent(y.s, y.d, run[i])
    decreases i
  {
    if i > 0 {
      MergedRunIsSafe(x, y, run, i - 1);
      assert ReconcilesBoth(x, y, run[i - 1], run[i - 1 + 1]);
      StepIsSafe(x, y, run[i - 1], run[i]);
      StepSwaps(x, y, run[i - 1], run[i]);
      StepIsSafe(y, x, run[i - 1], run[i]);
      LabelsKeptTrans(run[0], run[i - 1], run[i]);
    }
  }

  ghost predicate ApartAndFit(x: Managed, y: Managed, c: Cluster) {
    Apart(x, y, c) && Consistent(x.s, x.d, c) && Consistent(y.s, y.d, c)
  }

  lemma StepKeepsApart(x: Managed, y: Managed, before: Cluster, after: Cluster)
    requires ReconcilesBoth(x, y, before, after) && ApartAndFit(x, y, before)
    ensures ApartAndFit(x, y, after)
  {
    StepIsSafe(x, y, before, after);
    StepSwaps(x, y, before, after);
    StepIsSafe(y, x, before, after);
    ApartIsKept(x, y, before, after);
  }

  /** Apart, and nothing labelled with the names of the topology but what its groups want. */
  ghost predicate OwnAndFit(x: Managed, y: Managed, c: Cluster) {
    ApartAndFit(x, y, c) && OwnLabels(x.s, x.d, c)
  }

  lemma StepKeepsOwnAndFit(x: Managed, y: Managed, before: Cluster, after: Cluster)
    requires ReconcilesBoth(x, y, before, after) && OwnAndFit(x, y, before)
    ensures OwnAndFit(x, y, after)
  {
    StepKeepsApart(x, y, before, after);
    StepKeepsOwn(x, y, before, after);
  }

  /** What every step keeps holds throughout. */
  lemma {:induction false} RunKeeps(x: Managed, y: Managed, run: seq<Cluster>, i: nat, holds: Cluster -> bool)
    requires IsMergedRun(x, y, run) && i < |run| && holds(run[0])
    requires forall a, b :: ReconcilesBoth(x, y, a, b) && holds(a) ==> holds(b)
    ensures holds(run[i])
    decreases i
  {
    if i > 0 {
      RunKeeps(x, y, run, i - 1, holds);
      assert ReconcilesBoth(x, y, run[i - 1], run[i - 1 + 1]);
    }
  }

  /** Topologies that are apart never label each other's objects. */
  lemma MergedRunKeepsOwn(x: Managed, y: Managed, run: seq<Cluster>, i: nat)
    requires IsMergedRun(x, y, run) && i < |run| && OwnAndFit(x, y, run[0])
    ensures OwnAndFit(x, y, run[i])
  {
    forall a, b | ReconcilesBoth(x, y, a, b) && OwnAndFit(x, y, a)
      ensures OwnAndFit(x, y, b)
    {
      StepKeepsOwnAndFit(x, y, a, b);
    }
    RunKeeps(x, y, run, i, c => OwnAndFit(x, y, c));
  }

  ghost predicate BothHealthy(x: Managed, y: Managed, c: Cluster) {
    && Apart(x, y, c) && Inhabited(x.d.groups) && Inhabited(y.d.groups)
    && Healthy(x.s, x.d, c) && Healthy(y.s, y.d, c)
  }

  lemma StepKeepsBothHealthy(x: Managed, y: Managed, before: Cluster, after: Cluster)
    requires ReconcilesBoth(x, y, before, after) && BothHealthy(x, y, before)
    ensures BothHealthy(x, y, after)
  {
    StepKeepsApart(x, y, before, after);
    StepKeepsHealth(x, y, before, after);
    StepSwaps(x, y, before, after);
    ApartIsSymmetric(x, y, before);
    StepKeepsHealth(y, x, before, after);
  }

  /** And it never gets stuck: from healthy labels both topologies can be planned in every state. */
  lemma MergedRunGoesOn(x: Managed, y: Managed, run: seq<Cluster>, i: nat)
    requires IsMergedRun(x, y, run) && i < |run| && BothHealthy(x, y, run[0])
    ensures BothHealthy(x, y, run[i])
    ensures !FreshNamesClash(x.s, x.d, run[i]) && !FreshNamesClash(y.s, y.d, run[i])
  {
    forall a, b | ReconcilesBoth(x, y, a, b) && BothHealthy(x, y, a)
      ensures BothHealthy(x, y, b)
    {
      StepKeepsBothHealthy(x, y, a, b);
    }
    RunKeeps(x, y, run, i, c => BothHealthy(x, y, c));
    SpacedNeverClashes(x.s, x.d, run[i]);
    SpacedNeverClashes(y.s, y.d, run[i]);
  }

  lemma MergedStatusMirrors(x: Managed, y: Managed, c: Cluster, xNames: Names, p: Plan, yNames: Names, q: Plan, r: Plan,
                            w: NodeGroups.Numbering, previous: seq<NodeGroups.NodeGroup>, status: TopologyStatus.Status)
    requires BothPlanned(x, y, c, xNames, p, yNames, q, r) && Apart(x, y, c) && Hierarchy(x.d.groups) && Placed(x.d, c)
      && OwnLabels(x.s, x.d, c)
    requires TopologyStatus.IsStatus(x.s, w, Landed(c, r).nodes, RoleSwitches(x.d.role, Landed(c, r)), previous, status)
    ensures Mirrors(x.d, c, xNames, status)
  {
    MergedLandedIsWritten(x, y, c, xNames, p, yNames, q, r);
    StatusMirrorsDiscovery(x.s, w, x.d, Landed(c, r), xNames, previous, status);
    LandKeepsRoles(x.d.role, c, r, r.nodes.Keys, r.switches.Keys);
    SameMembers(x.d, c, Landed(c, r), xNames, status);
  }

  /** From unlabelled objects, after any run of interrupted reconciles of both topologies and
      one complete one, the status of each mirrors its discovery. */
  lemma MergedRunThenStatusMirrors(x: Managed, y: Managed, run: seq<Cluster>, xNames: Names, p: Plan, yNames: Names,
                                   q: Plan, r: Plan,
                                   w: NodeGroups.Numbering, previous: seq<NodeGroups.NodeGroup>,
                                   status: TopologyStatus.Status)
    requires IsMergedRun(x, y, run) && Consistent(x.s, x.d, run[0]) && Consistent(y.s, y.d, run[0])
    requires Apart(x, y, run[0]) && Unlabelled(x.s, x.d.role, run[0]) && Hierarchy(x.d.groups) && Placed(x.d, run[0])
    requires BothPlanned(x, y, run[|run| - 1], xNames, p, yNames, q, r)
    requires var after := Landed(run[|run| - 1], r);
      TopologyStatus.IsStatus(x.s, w, after.nodes, RoleSwitches(x.d.role, after), previous, status)
    ensures Mirrors(x.d, run[0], xNames, status)
  {
    var last := run[|run| - 1];
    UnlabelledIsOwn(x.s, x.d, run[0]);
    MergedRunIsSafe(x, y, run, |run| - 1);
    MergedRunKeepsOwn(x, y, run, |run| - 1);
    MergedStatusMirrors(x, y, last, xNames, p, yNames, q, r, w, previous, status);
    KeptRoles(x.d.role, run[0], last);
    SameMembers(x.d, run[0], last, xNames, status);
  }

  // ----------------------------------------------------------------------- the reconcile

  lemma ApartMembers(x: Managed, y: Managed, c: Cluster)
    requires Apart(x, y, c)
    ensures MembersApart(x.d, y.d, c)
  {
    forall w | w in c.switches && IsMember(x.d.groups, w)
      ensures !IsMember(y.d.groups, w)
    {
      assert Sees(x, c, w);
    }
  }

  /** The plan of one reconcile. It fails when the labels of one topology do not allow a plan, or
      the two plans want different names for one Switch; never the latter when they are apart. */
  method PlanBoth(x: Managed, y: Managed, c: Cluster)
    returns (r: Result<Plan, PlanError>, ghost xNames: Names, ghost p: Plan, ghost yNames: Names, ghost q: Plan)
    requires ManagedTogether(x, y)
    requires NextFit(x.s, x.d, c) && NextFit(y.s, y.d, c)
    ensures Apart(x, y, c) ==> (r.Ok? <==> Plannable(x.s, x.d, c) && Plannable(y.s, y.d, c))
    ensures r.Ok? <==> Plannable(x.s, x.d, c) && Plannable(y.s, y.d, c) && WantTheSame(x.d, xNames, y.d, yNames, c)
    ensures Plannable(x.s, x.d, c) && Plannable(y.s, y.d, c) ==>
      PlanFor(x.s, x.d, c, xNames, p) && PlanFor(y.s, y.d, c, yNames, q)
    ensures r.Ok? ==> BothPlanned(x, y, c, xNames, p, yNames, q, r.value)
  {
    xNames, p, yNames, q := map[], Plan(map[], map[]), map[], Plan(map[], map[]);
    var first, second, chosen;
    first, chosen := BuildAutoLabelPlan(x.s, x.d, c);
    if first.Err? {
      r := Err(first.error);
      return;
    }
    xNames, p := chosen, first.value;
    second, chosen := BuildAutoLabelPlan(y.s, y.d, c);
    if second.Err? {
      r := Err(second.error);
      return;
    }
    yNames, q := chosen, second.value;
    RolePlansAgree(x.s, x.d, xNames, p, y.s, y.d, yNames, q, c);
    if Apart(x, y, c) {
      ApartMembers(x, y, c);
      ApartPlansAgree(x.s, x.d, xNames, p, y.s, y.d, yNames, q, c);
    }
    r := MergePlans(first.value, second.value);
  }

  /** Plan both topologies and write until the plan is done or `patches` writes have landed. */
  method ReconcileBoth(x: Managed, y: Managed, c: Cluster, patches: nat)
    returns (r: Result<Cluster, PlanError>)
    requires ManagedTogether(x, y)
    requires NextFit(x.s, x.d, c) && NextFit(y.s, y.d, c)
    ensures r.Ok? ==> Plannable(x.s, x.d, c) && Plannable(y.s, y.d, c) && ReconcilesBoth(x, y, c, r.value)
    ensures Apart(x, y, c) ==> (r.Ok? <==> Plannable(x.s, x.d, c) && Plannable(y.s, y.d, c))
  {
    var planned;
    ghost var xNames, p, yNames, q;
    planned, xNames, p, yNames, q := PlanBoth(x, y, c);
    if planned.Err? {
      return Err(planned.error);
    }
    MergedFits(x, y, c, xNames, p, yNames, q, planned.value);
    var after, nodes, switches := ApplyPlan(c, planned.value, patches);
    assert MergedLands(x, y, c, xNames, p, yNames, q, planned.value, nodes, switches, after);
    r := Ok(after);
  }

  // ------------------------------------------------------ until both statuses are written

  lemma ViewFits(x: Managed, a: Cluster, b: Cluster)
    requires Sound(x) && SameView(x, a, b) && FitsInt64(x.s, x.d, a)
    ensures FitsInt64(x.s, x.d, b)
  {
    forall tier
      ensures Top(x.s, x.d, b, tier) == Top(x.s, x.d, a, tier)
      ensures Unnamed(x.s, x.d, b, tier) == Unnamed(x.s, x.d, a, tier)
    {
      ViewNumbers(x, a, b, tier);
    }
    forall tier
      ensures Top(x.s, x.d, b, tier) + Reach(Unnamed(x.s, x.d, b, tier)) <= MAX_INT
    {
      FitsTier(x.s, x.d, a, tier);
    }
    forall g, n | Hidden(x.s, x.d, b, g, n)
      ensures n + Reach(Unnamed(x.s, x.d, b, g.tier)) <= MAX_INT
    {
      ViewHidden(x, a, b, g, n);
      FitsHidden(x.s, x.d, a, g, n);
    }
  }

  /** The topology can be planned now and after every interruption. */
  ghost predicate Going(x: Managed, c: Cluster) {
    Sound(x) && Inhabited(x.d.groups) && Healthy(x.s, x.d, c) && FitsInt64(x.s, x.d, c)
  }

  lemma GoingIsPlannable(x: Managed, c: Cluster)
    requires Going(x, c)
    ensures Plannable(x.s, x.d, c) && NextFit(x.s, x.d, c)
  {
    SpacedNeverClashes(x.s, x.d, c);
    FitsNow(x.s, x.d, c);
  }

  lemma MergedLandGoesOn(x: Managed, y: Managed, c: Cluster, xNames: Names, p: Plan, yNames: Names, q: Plan, r: Plan,
                         nodes: set<string>, switches: set<string>)
    requires BothPlanned(x, y, c, xNames, p, yNames, q, r) && Apart(x, y, c) && Going(x, c)
      && NodesFirst(r, nodes, switches)
    ensures Going(x, Land(c, r, nodes, switches))
  {
    MergedLandStaysHealthy(x, y, c, xNames, p, yNames, q, r, nodes, switches);
    NodesFirstForEach(p, q, r, nodes, switches);
    LandKeepsFit(x.s, x.d, c, xNames, p, nodes, switches);
    LandView(x, y, c, xNames, p, yNames, q, r, nodes, switches);
    ViewFits(x, Land(c, p, nodes, switches), Land(c, r, nodes, switches));
  }

  lemma StepGoesOn(x: Managed, y: Managed, before: Cluster, after: Cluster)
    requires ReconcilesBoth(x, y, before, after) && Apart(x, y, before) && Going(x, before)
    ensures Going(x, after) && LabelsKept(before, after)
  {
    var xNames, p, yNames, q, r, nodes, switches :|
      MergedLands(x, y, before, xNames, p, yNames, q, r, nodes, switches, after);
    MergedLandGoesOn(x, y, before, xNames, p, yNames, q, r, nodes, switches);
    StepIsSafe(x, y, before, after);
  }

  ghost predicate BothGoing(x: Managed, y: Managed, c: Cluster) {
    Going(x, c) && Going(y, c) && Apart(x, y, c) && SameNames(x.s, y.s)
  }

  /** A discovered topology of existing objects, with members of the role only. */
  ghost predicate OwnObjects(x: Managed, c: Cluster) {
    && Sound(x) && Inhabited(x.d.groups) && MembersHaveRole(x.d, c)
    && (forall g :: g in x.d.groups ==>
          g.nodes <= c.nodes.Keys && (forall m :: m in g.members ==> m in c.switches || m in x.d.synthetic))
    && (forall g :: g in x.d.groups && x.d.nodeOnly ==> g.tier == 1)
  }

  lemma FreshRoleGoes(x: Managed, c: Cluster)
    requires OwnObjects(x, c) && Unlabelled(x.s, x.d.role, c) && Reach(|x.d.groups|) <= MAX_INT
    ensures Going(x, c)
  {
    UnlabelledIsConsistent(x.s, x.d, c);
    OwnRoleIsSpaced(x.s, x.d, c);
    forall tier
      ensures Top(x.s, x.d, c, tier) + Reach(Unnamed(x.s, x.d, c, tier)) <= MAX_INT
    {
      SubsetSize(FreshGroups(x.s, c, x.d.groups, tier), x.d.groups);
      ReachGrows(Unnamed(x.s, x.d, c, tier), |x.d.groups|);
    }
  }

  /** Unlabelled topologies of two roles can be reconciled together. */
  lemma FreshRolesGo(x: Managed, y: Managed, c: Cluster)
    requires OwnObjects(x, c) && Unlabelled(x.s, x.d.role, c) && Reach(|x.d.groups|) <= MAX_INT
    requires OwnObjects(y, c) && Unlabelled(y.s, y.d.role, c) && Reach(|y.d.groups|) <= MAX_INT
    requires KeysApart(x.s, y.s) && SameNames(x.s, y.s) && x.d.role != y.d.role
    ensures BothGoing(x, y, c)
  {
    FreshRoleGoes(x, c);
    FreshRoleGoes(y, c);
    RolesAreApart(x, y, c);
  }

  lemma BothGoOn(x: Managed, y: Managed, before: Cluster, after: Cluster)
    requires ReconcilesBoth(x, y, before, after) && BothGoing(x, y, before)
    ensures BothGoing(x, y, after)
  {
    StepGoesOn(x, y, before, after);
    StepSwaps(x, y, before, after);
    ApartIsSymmetric(x, y, before);
    StepGoesOn(y, x, before, after);
    ApartIsKept(x, y, before, after);
  }

  lemma RunExtends(x: Managed, y: Managed, run: seq<Cluster>, after: Cluster)
    requires IsMergedRun(x, y, run) && ReconcilesBoth(x, y, run[|run| - 1], after)
    ensures IsMergedRun(x, y, run + [after])
  {
    var longer := run + [after];
    forall i | 0 <= i < |longer| - 1
      ensures ReconcilesBoth(x, y, longer[i], longer[i + 1])
    {
      if i < |run| - 1 {
        assert ReconcilesBoth(x, y, run[i], run[i + 1]);
      }
    }
  }

  /** Reconciles that stop after the given numbers of writes, one after the other: all succeed. */
  method Interrupt(x: Managed, y: Managed, c: Cluster, stops: seq<nat>)
    returns (after: Cluster, ghost run: seq<Cluster>)
    requires BothGoing(x, y, c)
    ensures IsMergedRun(x, y, run) && run[0] == c && run[|run| - 1] == after && |run| == |stops| + 1
    ensures BothGoing(x, y, after)
  {
    after, run := c, [c];
    for i := 0 to |stops|
      invariant |run| == i + 1 && IsMergedRun(x, y, run) && run[0] == c && run[i] == after && BothGoing(x, y, after)
    {
      GoingIsPlannable(x, after);
      GoingIsPlannable(y, after);
      var next := ReconcileBoth(x, y, after, stops[i]);
      BothGoOn(x, y, after, next.value);
      RunExtends(x, y, run, next.value);
      run := run + [next.value];
      after := next.value;
    }
  }

  /** A reconcile that is not interrupted. */
  method Complete(x: Managed, y: Managed, c: Cluster)
    returns (after: Cluster, ghost xNames: Names, ghost p: Plan, ghost yNames: Names, ghost q: Plan, ghost r: Plan)
    requires BothGoing(x, y, c)
    ensures BothPlanned(x, y, c, xNames, p, yNames, q, r) && after == Landed(c, r)
  {
    GoingIsPlannable(x, c);
    GoingIsPlannable(y, c);
    var planned;
    planned, xNames, p, yNames, q := PlanBoth(x, y, c);
    var plan := planned.value;
    r := plan;
    MergedFits(x, y, c, xNames, p, yNames, q, plan);
    var nodes, switches;
    after, nodes, switches := ApplyPlan(c, plan, |plan.nodes.Keys| + |plan.switches.Keys|);
    if |nodes| + |switches| == |plan.nodes.Keys| + |plan.switches.Keys| {
      AllOfBoth(nodes, plan.nodes.Keys, switches, plan.switches.Keys);
    }
  }

  /** The status of one topology, from the labels. */
  method Report(x: Managed, w: NodeGroups.Numbering, c: Cluster, ghost names: Names,
                previous: seq<NodeGroups.NodeGroup>) returns (status: TopologyStatus.Status)
    requires Written(x.s, x.d, c, names)
    ensures TopologyStatus.IsStatus(x.s, w, c.nodes, RoleSwitches(x.d.role, c), previous, status)
  {
    DiscoveryIsAcceptable(x.s, x.d, c, names);
    var labelled := map v | v in c.switches && c.switches[v].role == x.d.role :: c.switches[v].domain;
    assert labelled == RoleSwitches(x.d.role, c);
    var r := TopologyStatus.BuildTopologyStatus(x.s, w, c.nodes, labelled, previous);
    status := r.value;
  }

  /** What a topology needs to be mirrored in the end. */
  ghost predicate Fresh(x: Managed, c: Cluster) {
    Hierarchy(x.d.groups) && Placed(x.d, c) && Unlabelled(x.s, x.d.role, c)
  }

  lemma WrittenInTheEnd(x: Managed, y: Managed, run: seq<Cluster>, xNames: Names, p: Plan, yNames: Names, q: Plan,
                        r: Plan)
    requires IsMergedRun(x, y, run) && BothGoing(x, y, run[0]) && Fresh(x, run[0])
    requires BothPlanned(x, y, run[|run| - 1], xNames, p, yNames, q, r)
    ensures Written(x.s, x.d, Landed(run[|run| - 1], r), xNames)
  {
    UnlabelledIsOwn(x.s, x.d, run[0]);
    MergedRunIsSafe(x, y, run, |run| - 1);
    MergedRunKeepsOwn(x, y, run, |run| - 1);
    MergedLandedIsWritten(x, y, run[|run| - 1], xNames, p, yNames, q, r);
  }

  lemma RunSwaps(x: Managed, y: Managed, run: seq<Cluster>)
    requires IsMergedRun(x, y, run)
    ensures IsMergedRun(y, x, run)
  {
    forall i | 0 <= i < |run| - 1
      ensures ReconcilesBoth(y, x, run[i], run[i + 1])
    {
      StepSwaps(x, y, run[i], run[i + 1]);
    }
  }

  /** Any number of interrupted reconciles of both topologies, a complete one, and both statuses:
      nothing fails, and each status mirrors its discovery. */
  method ReconcileUntilDone(x: Managed, y: Managed, v: NodeGroups.Numbering, w: NodeGroups.Numbering, c: Cluster,
                            stops: seq<nat>, xPrevious: seq<NodeGroups.NodeGroup>, yPrevious: seq<NodeGroups.NodeGroup>)
    returns (xStatus: TopologyStatus.Status, yStatus: TopologyStatus.Status, ghost xNames: Names, ghost yNames: Names)
    requires BothGoing(x, y, c) && Fresh(x, c) && Fresh(y, c)
    ensures Mirrors(x.d, c, xNames, xStatus) && Mirrors(y.d, c, yNames, yStatus)
  {
    var last, after;
    ghost var run, p, q, r;
    last, run := Interrupt(x, y, c, stops);
    after, xNames, p, yNames, q, r := Complete(x, y, last);
    WrittenInTheEnd(x, y, run, xNames, p, yNames, q, r);
    RunSwaps(x, y, run);
    ApartIsSymmetric(x, y, c);
    BothPlannedSwaps(x, y, last, xNames, p, yNames, q, r);
    WrittenInTheEnd(y, x, run, yNames, q, xNames, p, r);
    xStatus := Report(x, v, after, xNames, xPrevious);
    yStatus := Report(y, w, after, yNames, yPrevious);
    MergedRunThenStatusMirrors(x, y, run, xNames, p, yNames, q, r, v, xPrevious, xStatus);
    MergedRunThenStatusMirrors(y, x, run, yNames, q, xNames, p, r, w, yPrevious, yStatus);
  }
}
