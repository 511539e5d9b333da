/** Applying a plan, object by object, and stopping anywhere. Whatever subset of the patches
    lands, the next plan succeeds and keeps every name already written; a fully applied plan
    leaves nothing to do; and no label value is ever replaced. */
module CrashSafety {
  import opened Wrappers
  import opened LabelSyntax
  import opened NormalizeGroups
  import opened AutoLabel
  import opened AutoLabelPlan

  // ------------------------------------------------------------- reconcileLabelMap

  /** The labels left after removal, with the desired ones filled in where nothing is written. */
  ghost predicate Reconciled(existing: Labels, desired: Labels, remove: string -> bool, result: Labels) {
    forall k :: (k in result <==> (k in existing && !remove(k)) || k in desired) &&
      (k in result ==>
        result[k] == if k in existing && !remove(k) && (existing[k] != "" || k !in desired) then existing[k]
          else desired[k])
  }

  /** No desired label differs from a value that is already written. */
  ghost predicate Compatible(existing: Labels, desired: Labels, remove: string -> bool) {
    forall k :: k in desired && k in existing && !remove(k) && existing[k] != "" ==> existing[k] == desired[k]
  }

  /** reconcileLabelMap refuses to replace a written value. */
  method ReconcileLabelMap(existing: Labels, desired: Labels, remove: string -> bool)
    returns (r: Result<(Labels, bool), string>)
    ensures r.Ok? <==> Compatible(existing, desired, remove)
    ensures r.Ok? ==> Reconciled(existing, desired, remove, r.value.0)
    ensures r.Ok? && !r.value.1 ==> r.value.0 == existing
  {
    var result := map k | k in existing && !remove(k) :: existing[k];
    var kept := result;
    var changed := kept.Keys != existing.Keys;
    var todo := desired.Keys;
    while todo != {}
      invariant todo <= desired.Keys
      invariant forall k :: k in result <==> k in kept || (k in desired && k !in todo)
      invariant forall k :: k in result ==>
        result[k] == if k in kept && (kept[k] != "" || k !in desired || k in todo) then kept[k] else desired[k]
      invariant forall k :: k in desired && k !in todo && k in kept && kept[k] != "" ==> kept[k] == desired[k]
      invariant !changed ==> kept.Keys == existing.Keys && result == kept
      decreases todo
    {
      var k :| k in todo;
      todo := todo - {k};
      if k in result && result[k] != "" {
        if result[k] != desired[k] {
          return Err(k);
        }
      } else {
        result := result[k := desired[k]];
        changed := true;
      }
    }
    r := Ok((result, changed));
  }

  // ------------------------------------------------------------------ landing a plan

  /** The cluster after the patches of the Nodes in `nodes` and the Switches in `switches` landed. */
  ghost function Land(c: Cluster, p: Plan, nodes: set<string>, switches: set<string>): Cluster {
    Cluster(
      map n | n in c.nodes :: if n in nodes && n in p.nodes then c.nodes[n] + p.nodes[n] else c.nodes[n],
      map w | w in c.switches ::
        if w in switches && w in p.switches then c.switches[w].(domain := p.switches[w]) else c.switches[w])
  }

  /** Every label of `before` is still there with the same value. */
  ghost predicate LabelsKept(before: Cluster, after: Cluster) {
    && after.nodes.Keys == before.nodes.Keys && after.switches.Keys == before.switches.Keys
    && (forall n, k {:trigger after.nodes[n][k]} {:trigger before.nodes[n][k]} ::
          n in before.nodes && k in before.nodes[n] ==>
          k in after.nodes[n] && after.nodes[n][k] == before.nodes[n][k])
    && (forall w {:trigger after.switches[w]} :: w in before.switches ==>
          after.switches[w].role == before.switches[w].role
            && (before.switches[w].domain != "" ==> after.switches[w].domain == before.switches[w].domain))
  }

  lemma LandedOnNode(s: Syntax, d: RoleTopology, c: Cluster, names: map<DiscoveredGroup, string>, p: Plan, n: string,
                     k: string) returns (g: DiscoveredGroup)
    requires PlanFor(s, d, c, names, p) && NodeEntry(p, n, k).Some?
    ensures g in d.groups && LacksKey(s, c, g, n) && k == s.render(g.tier) && NodeEntry(p, n, k).value == names[g]
  {
    var v := NodeEntry(p, n, k).value;
    g :| g in names && LacksKey(s, c, g, n) && k == s.render(g.tier) && v == names[g];
  }

  lemma LandedOnSwitch(s: Syntax, d: RoleTopology, c: Cluster, names: map<DiscoveredGroup, string>, p: Plan, w: string)
    returns (g: DiscoveredGroup)
    requires PlanFor(s, d, c, names, p) && SwitchEntry(p, w).Some?
    ensures g in d.groups && LacksDomain(c, g, w) && SwitchEntry(p, w).value == names[g]
  {
    var v := SwitchEntry(p, w).value;
    g :| g in names && LacksDomain(c, g, w) && v == names[g];
  }

  /** The plan only names objects that exist, and only labels they lack. */
  ghost predicate PlanFits(c: Cluster, p: Plan) {
    && (forall n {:trigger n in p.nodes} :: n in p.nodes ==> n in c.nodes)
    && (forall n, k {:trigger NodeEntry(p, n, k)} :: NodeEntry(p, n, k).Some? ==> n in c.nodes && k !in c.nodes[n])
    && (forall w {:trigger SwitchEntry(p, w)} :: SwitchEntry(p, w).Some? ==>
          w in c.switches && c.switches[w].domain == "")
  }

  lemma PlanForFits(s: Syntax, d: RoleTopology, c: Cluster, names: map<DiscoveredGroup, string>, p: Plan)
    requires PlanFor(s, d, c, names, p)
    ensures PlanFits(c, p)
  {
    forall n, k | NodeEntry(p, n, k).Some?
      ensures n in c.nodes && k !in c.nodes[n]
    {
      var g := LandedOnNode(s, d, c, names, p, n, k);
    }
    forall n | n in p.nodes
      ensures n in c.nodes
    {
      var k :| k in p.nodes[n];
      assert NodeEntry(p, n, k).Some?;
    }
    forall w | SwitchEntry(p, w).Some?
      ensures w in c.switches && c.switches[w].domain == ""
    {
      var g := LandedOnSwitch(s, d, c, names, p, w);
    }
  }

  /** Landing only adds labels. */
  lemma LandKeepsLabels(c: Cluster, p: Plan, nodes: set<string>, switches: set<string>)
    requires PlanFits(c, p)
    ensures LabelsKept(c, Land(c, p, nodes, switches))
  {
    var after := Land(c, p, nodes, switches);
    forall n, k | n in c.nodes && k in c.nodes[n]
      ensures k in after.nodes[n] && after.nodes[n][k] == c.nodes[n][k]
    {
      assert NodeEntry(p, n, k).None?;
    }
    forall w | w in c.switches && c.switches[w].domain != ""
      ensures after.switches[w].domain == c.switches[w].domain
    {
      assert SwitchEntry(p, w).None?;
    }
  }

  /** After landing, a group carries no name but the one that was chosen for it. */
  lemma LandedNames(s: Syntax, d: RoleTopology, c: Cluster, names: map<DiscoveredGroup, string>, p: Plan,
                    nodes: set<string>, switches: set<string>,
                    g: DiscoveredGroup)
    requires Lawful(s) && GroupsSeparate(d.groups) && PlanFor(s, d, c, names, p) && g in d.groups
    ensures Locked(s, Land(c, p, nodes, switches), g) <= {names[g]}
  {
    var after := Land(c, p, nodes, switches);
    assert NameFits(s, d, c, g, names[g]);
    forall n | n in g.nodes && n in after.nodes && s.render(g.tier) in after.nodes[n]
      ensures after.nodes[n][s.render(g.tier)] == names[g]
    {
      LandedNodeName(s, d, c, names, p, nodes, switches, g, n);
    }
    forall m | m in g.members && m in after.switches && after.switches[m].domain != ""
      ensures after.switches[m].domain == names[g]
    {
      LandedSwitchName(s, d, c, names, p, nodes, switches, g, m);
    }
  }

  lemma LandedNodeName(s: Syntax, d: RoleTopology, c: Cluster, names: map<DiscoveredGroup, string>, p: Plan,
                       nodes: set<string>, switches: set<string>,
                       g: DiscoveredGroup, n: string)
    requires Lawful(s) && GroupsSeparate(d.groups) && PlanFor(s, d, c, names, p) && g in d.groups && n in g.nodes
      && n in c.nodes
    requires s.render(g.tier) in Land(c, p, nodes, switches).nodes[n]
    ensures Land(c, p, nodes, switches).nodes[n][s.render(g.tier)] == names[g]
  {
    var k := s.render(g.tier);
    assert NameFits(s, d, c, g, names[g]);
    if k in c.nodes[n] {
      assert c.nodes[n][k] in Locked(s, c, g);
      PlanForFits(s, d, c, names, p);
      LandKeepsLabels(c, p, nodes, switches);
      assert Land(c, p, nodes, switches).nodes[n][k] == c.nodes[n][k];
    } else {
      assert NodeEntry(p, n, k).Some?;
      var h := LandedOnNode(s, d, c, names, p, n, k);
      KeysDiffer(s, g, h);
    }
  }

  lemma LandedSwitchName(s: Syntax, d: RoleTopology, c: Cluster, names: map<DiscoveredGroup, string>, p: Plan,
                         nodes: set<string>, switches: set<string>,
                         g: DiscoveredGroup, m: string)
    requires GroupsSeparate(d.groups) && PlanFor(s, d, c, names, p) && g in d.groups && m in g.members
      && m in c.switches
    requires Land(c, p, nodes, switches).switches[m].domain != ""
    ensures Land(c, p, nodes, switches).switches[m].domain == names[g]
  {
    assert NameFits(s, d, c, g, names[g]);
    if c.switches[m].domain != "" {
      assert c.switches[m].domain in Locked(s, c, g);
      PlanForFits(s, d, c, names, p);
      LandKeepsLabels(c, p, nodes, switches);
      assert Land(c, p, nodes, switches).switches[m].domain == c.switches[m].domain;
    } else {
      assert SwitchEntry(p, m).Some?;
      var h := LandedOnSwitch(s, d, c, names, p, m);
    }
  }

  lemma LandedScanOk(s: Syntax, d: RoleTopology, c: Cluster, names: map<DiscoveredGroup, string>, p: Plan,
                     nodes: set<string>, switches: set<string>)
    requires Lawful(s) && GroupsSeparate(d.groups) && ScanOk(s, d.role, c) && PlanFor(s, d, c, names, p)
    ensures ScanOk(s, d.role, Land(c, p, nodes, switches))
  {
    var after := Land(c, p, nodes, switches);
    forall n | n in after.nodes
      ensures NodeLabelsOk(s, after.nodes[n])
    {
      assert NodeLabelsOk(s, c.nodes[n]);
      forall k | k in after.nodes[n]
        ensures NodeLabelOk(s, k, after.nodes[n][k])
      {
        if n in nodes && NodeEntry(p, n, k).Some? {
          var g := LandedOnNode(s, d, c, names, p, n, k);
          assert NameFits(s, d, c, g, names[g]);
        } else {
          assert NodeLabelOk(s, k, c.nodes[n][k]);
        }
      }
    }
    forall w | w in after.switches && after.switches[w].role == d.role && after.switches[w].domain != ""
      ensures s.parse(after.switches[w].domain).Some?
    {
      if w in switches && SwitchEntry(p, w).Some? {
        var g := LandedOnSwitch(s, d, c, names, p, w);
        assert NameFits(s, d, c, g, names[g]);
      } else {
        assert c.switches[w].domain in SwitchNames(d.role, c.switches);
      }
    }
  }

  lemma LandFits(s: Syntax, d: RoleTopology, c: Cluster, names: map<DiscoveredGroup, string>, p: Plan,
                 nodes: set<string>, switches: set<string>)
    requires Lawful(s) && GroupsSeparate(d.groups) && Consistent(s, d, c) && PlanFor(s, d, c, names, p)
    ensures Consistent(s, d, Land(c, p, nodes, switches))
  {
    var after := Land(c, p, nodes, switches);
    LandedScanOk(s, d, c, names, p, nodes, switches);
    forall g | g in d.groups
      ensures Locked(s, after, g) <= {names[g]} && Readable(s, d, after, g)
    {
      LandedNames(s, d, c, names, p, nodes, switches, g);
      assert NameFits(s, d, c, g, names[g]) && GroupReadable(s, d, c, g);
      LandedReadable(s, d, c, names[g], after, g);
    }
    AgreementIsConsistent(s, d, after, names);
  }

  lemma LandNeverClashes(s: Syntax, d: RoleTopology, c: Cluster, p: Plan, nodes: set<string>, switches: set<string>)
    requires Lawful(s) && GroupsSeparate(d.groups) && MembersHaveRole(d, c)
    ensures !FreshNamesClash(s, d, Land(c, p, nodes, switches))
  {
    OwnRoleNeverClashes(s, d, Land(c, p, nodes, switches));
  }

  /** Crash safety: whatever subset of the patches lands, the labels still fit the groups. When
      the members are Switches of the role, this is all that BuildAutoLabelPlan needs to succeed
      again; FreshNumbers treats members of other roles. */
  lemma LandKeepsConsistent(s: Syntax, d: RoleTopology, c: Cluster, names: map<DiscoveredGroup, string>, p: Plan,
                            nodes: set<string>, switches: set<string>)
    requires Lawful(s) && GroupsSeparate(d.groups) && Consistent(s, d, c) && PlanFor(s, d, c, names, p)
    ensures Consistent(s, d, Land(c, p, nodes, switches))
    ensures MembersHaveRole(d, c) ==> !FreshNamesClash(s, d, Land(c, p, nodes, switches))
  {
    LandFits(s, d, c, names, p, nodes, switches);
    if MembersHaveRole(d, c) {
      LandNeverClashes(s, d, c, p, nodes, switches);
    }
  }

  lemma LandedReadable(s: Syntax, d: RoleTopology, c: Cluster, name: string, after: Cluster, g: DiscoveredGroup)
    requires GroupReadable(s, d, c, g) && NamesTier(s, name, g.tier)
    requires after.nodes.Keys == c.nodes.Keys && after.switches.Keys == c.switches.Keys && Locked(s, after, g) <= {name}
    ensures GroupReadable(s, d, after, g)
  {
    forall v | v in Locked(s, after, g)
      ensures NamesTier(s, v, g.tier)
    {
      assert v == name;
    }
  }

  /** Any later plan gives a group that has a name written somewhere exactly that name. */
  lemma NextPlanKeepsNames(s: Syntax, d: RoleTopology, c: Cluster, names: map<DiscoveredGroup, string>, p: Plan,
                           nodes: set<string>, switches: set<string>,
                           later: map<DiscoveredGroup, string>, q: Plan, g: DiscoveredGroup)
    requires Lawful(s) && GroupsSeparate(d.groups) && PlanFor(s, d, c, names, p)
    requires PlanFor(s, d, Land(c, p, nodes, switches), later, q)
    requires g in d.groups && Locked(s, Land(c, p, nodes, switches), g) != {}
    ensures later[g] == names[g]
  {
    var after := Land(c, p, nodes, switches);
    LandedNames(s, d, c, names, p, nodes, switches, g);
    assert NameFits(s, d, after, g, later[g]);
    var v :| v in Locked(s, after, g);
  }

  /** Once every patch of a plan has landed, the next plan is empty. */
  lemma FullyAppliedIsQuiet(s: Syntax, d: RoleTopology, c: Cluster, names: map<DiscoveredGroup, string>, p: Plan,
                            later: map<DiscoveredGroup, string>, q: Plan)
    requires Lawful(s) && PlanFor(s, d, c, names, p)
    requires PlanFor(s, d, Land(c, p, p.nodes.Keys, p.switches.Keys), later, q)
    ensures q.nodes == map[] && q.switches == map[]
  {
    var after := Land(c, p, p.nodes.Keys, p.switches.Keys);
    forall n | n in q.nodes
      ensures false
    {
      var k :| k in q.nodes[n];
      assert NodeEntry(q, n, k).Some?;
      var g := LandedOnNode(s, d, after, later, q, n, k);
      NoKeyLacking(s, d, c, names, p, g, n);
    }
    forall w | w in q.switches
      ensures false
    {
      assert SwitchEntry(q, w).Some?;
      var g := LandedOnSwitch(s, d, after, later, q, w);
      NoDomainLacking(s, d, c, names, p, g, w);
    }
  }

  lemma NoKeyLacking(s: Syntax, d: RoleTopology, c: Cluster, names: map<DiscoveredGroup, string>, p: Plan,
                     g: DiscoveredGroup, n: string)
    requires PlanFor(s, d, c, names, p) && g in d.groups
    ensures !LacksKey(s, Land(c, p, p.nodes.Keys, p.switches.Keys), g, n)
  {
    assert LacksKey(s, c, g, n) ==> NodeEntry(p, n, s.render(g.tier)).Some?;
  }

  lemma NoDomainLacking(s: Syntax, d: RoleTopology, c: Cluster, names: map<DiscoveredGroup, string>, p: Plan,
                        g: DiscoveredGroup, w: string)
    requires Lawful(s) && PlanFor(s, d, c, names, p) && g in d.groups
    ensures !LacksDomain(Land(c, p, p.nodes.Keys, p.switches.Keys), g, w)
  {
    assert LacksDomain(c, g, w) ==> SwitchEntry(p, w).Some?;
    if w in p.switches {
      assert SwitchEntry(p, w).Some?;
      var h := LandedOnSwitch(s, d, c, names, p, w);
      assert NameFits(s, d, c, h, names[h]);
    }
  }

  /** Neither Nodes nor Switches of the role carry labels of this topology. */
  ghost predicate Unlabelled(s: Syntax, role: string, c: Cluster) {
    && (forall n, k {:trigger c.nodes[n][k]} :: n in c.nodes && k in c.nodes[n] ==> s.matchTier(k).None?)
    && (forall w {:trigger c.switches[w]} :: w in c.switches && c.switches[w].role == role ==>
          c.switches[w].domain == "")
  }

  /** A cluster without automatic labels fits any groups whose objects exist. */
  lemma UnlabelledIsConsistent(s: Syntax, d: RoleTopology, c: Cluster)
    requires Lawful(s) && GroupsSeparate(d.groups) && MembersHaveRole(d, c) && Unlabelled(s, d.role, c)
    requires forall g :: g in d.groups ==>
      g.nodes <= c.nodes.Keys && (forall m :: m in g.members ==> m in c.switches || m in d.synthetic)
    requires forall g :: g in d.groups && d.nodeOnly ==> g.tier == 1
    ensures Consistent(s, d, c) && InUse(s, d.role, c) == {}
  {
    assert InUse(s, d.role, c) == {};
    forall g | g in d.groups
      ensures Locked(s, c, g) == {}
    {
      UnlabelledIsUnlocked(s, d, c, g);
    }
  }

  lemma UnlabelledIsUnlocked(s: Syntax, d: RoleTopology, c: Cluster, g: DiscoveredGroup)
    requires Lawful(s) && GroupsSeparate(d.groups) && MembersHaveRole(d, c) && Unlabelled(s, d.role, c) && g in d.groups
    ensures Locked(s, c, g) == {}
  {
    assert s.matchTier(s.render(g.tier)).Some?;
    assert LockedOnNodes(s, c, g) == {} && LockedOnSwitches(c, g) == {};
  }

  // -------------------------------------------------------------- labels of groups only

  /** Every label of the topology is one that some group wants on that object. */
  ghost predicate OwnLabels(s: Syntax, d: RoleTopology, c: Cluster) {
    && (forall n, k {:trigger c.nodes[n][k]} :: n in c.nodes && k in c.nodes[n] && s.matchTier(k).Some? ==>
          HasGroupAt(d.groups, n, s.matchTier(k).value))
    && (forall w {:trigger c.switches[w]} ::
          w in c.switches && c.switches[w].role == d.role && c.switches[w].domain != "" ==>
          IsMember(d.groups, w))
  }

  lemma UnlabelledIsOwn(s: Syntax, d: RoleTopology, c: Cluster)
    requires Unlabelled(s, d.role, c)
    ensures OwnLabels(s, d, c)
  {
  }

  /** Landing any part of a plan adds only labels that groups want. */
  lemma LandKeepsOwn(s: Syntax, d: RoleTopology, c: Cluster, names: map<DiscoveredGroup, string>, p: Plan,
                     nodes: set<string>, switches: set<string>)
    requires Lawful(s) && GroupsSeparate(d.groups) && OwnLabels(s, d, c) && PlanFor(s, d, c, names, p)
    ensures OwnLabels(s, d, Land(c, p, nodes, switches))
  {
    var after := Land(c, p, nodes, switches);
    forall n, k | n in after.nodes && k in after.nodes[n] && s.matchTier(k).Some?
      ensures HasGroupAt(d.groups, n, s.matchTier(k).value)
    {
      if k !in c.nodes[n] {
        assert NodeEntry(p, n, k).Some?;
        var g := LandedOnNode(s, d, c, names, p, n, k);
        assert s.matchTier(s.render(g.tier)) == Some(g.tier);
        assert GroupAt(d.groups, n, g.tier, g);
      } else {
        var kept := c.nodes[n][k];
      }
    }
    forall w | w in after.switches && after.switches[w].role == d.role && after.switches[w].domain != ""
      ensures IsMember(d.groups, w)
    {
      if c.switches[w].domain == "" {
        assert SwitchEntry(p, w).Some?;
        var g := LandedOnSwitch(s, d, c, names, p, w);
      }
    }
  }

  // ------------------------------------------------------------------- whole runs

  /** One reconcile on unchanged discovery inputs, cut short anywhere. */
  ghost predicate Reconciles(s: Syntax, d: RoleTopology, before: Cluster, after: Cluster) {
    exists names, p, nodes, switches :: PlanFor(s, d, before, names, p) && after == Land(before, p, nodes, switches)
  }

  ghost predicate IsRun(s: Syntax, d: RoleTopology, run: seq<Cluster>) {
    |run| > 0 && forall i :: 0 <= i < |run| - 1 ==> Reconciles(s, d, run[i], run[i + 1])
  }

  /** Over any run of reconciles that crash anywhere, no label value ever changes and the
      labels keep fitting the groups; with members of the role every next plan succeeds. */
  lemma {:induction false} RunKeepsLabels(s: Syntax, d: RoleTopology, run: seq<Cluster>, i: nat)
    requires Lawful(s) && GroupsSeparate(d.groups) && IsRun(s, d, run) && i < |run|
    requires Consistent(s, d, run[0])
    ensures Consistent(s, d, run[i]) && LabelsKept(run[0], run[i])
    ensures MembersHaveRole(d, run[0]) ==> !FreshNamesClash(s, d, run[i])
    decreases i
  {
    if MembersHaveRole(d, run[0]) {
      OwnRoleNeverClashes(s, d, run[0]);
    }
    if i > 0 {
      RunKeepsLabels(s, d, run, i - 1);
      assert Reconciles(s, d, run[i - 1], run[i - 1 + 1]);
      var names, p, nodes, switches :|
        PlanFor(s, d, run[i - 1], names, p) && run[i] == Land(run[i - 1], p, nodes, switches);
      LandKeepsConsistent(s, d, run[i - 1], names, p, nodes, switches);
      PlanForFits(s, d, run[i - 1], names, p);
      LandKeepsLabels(run[i - 1], p, nodes, switches);
      LabelsKeptTrans(run[0], run[i - 1], run[i]);
      if MembersHaveRole(d, run[0]) {
        OwnRoleNeverClashes(s, d, run[i]);
      }
    }
  }

  lemma LabelsKeptTrans(a: Cluster, b: Cluster, c: Cluster)
    requires LabelsKept(a, b) && LabelsKept(b, c)
    ensures LabelsKept(a, c)
  {
    forall n, k | n in a.nodes && k in a.nodes[n]
      ensures k in c.nodes[n] && c.nodes[n][k] == a.nodes[n][k]
    {
      assert b.nodes[n][k] == a.nodes[n][k];
    }
    forall w | w in a.switches
      ensures c.switches[w].role == a.switches[w].role
        && (a.switches[w].domain != "" ==> c.switches[w].domain == a.switches[w].domain)
    {
      assert b.switches[w].role == a.switches[w].role;
    }
  }

  // --------------------------------------------------------------------- applyPlan

  const NO_LABEL: string -> bool := k => false

  /** A planned Node patch never meets a written value, and adds exactly the planned labels. */
  lemma NodePatch(c: Cluster, p: Plan, n: string, result: Labels)
    requires PlanFits(c, p) && n in p.nodes
    ensures n in c.nodes && Compatible(c.nodes[n], p.nodes[n], NO_LABEL)
    ensures Reconciled(c.nodes[n], p.nodes[n], NO_LABEL, result) ==> result == c.nodes[n] + p.nodes[n]
  {
    forall k | k in p.nodes[n]
      ensures k !in c.nodes[n]
    {
      assert NodeEntry(p, n, k).Some?;
    }
  }

  /** All Nodes are written before the first Switch. */
  ghost predicate NodesFirst(p: Plan, nodes: set<string>, switches: set<string>) {
    switches !! p.switches.Keys || p.nodes.Keys <= nodes
  }

  /** applyPlan, stopped after `patches` writes: some Nodes and Switches carry their planned
      labels, all others are untouched. */
  method ApplyPlan(c: Cluster, p: Plan, patches: nat)
    returns (after: Cluster, nodes: set<string>, switches: set<string>)
    requires PlanFits(c, p)
    ensures nodes <= p.nodes.Keys && switches <= p.switches.Keys && after == Land(c, p, nodes, switches)
    ensures |nodes| + |switches| == patches || (nodes == p.nodes.Keys && switches == p.switches.Keys)
    ensures NodesFirst(p, nodes, switches)
  {
    after, nodes := ApplyNodes(c, p, patches);
    switches := {};
    if |nodes| < patches {
      after, switches := ApplySwitches(c, p, patches - |nodes|, after, nodes);
    }
  }

  method ApplyNodes(c: Cluster, p: Plan, patches: nat) returns (after: Cluster, nodes: set<string>)
    requires PlanFits(c, p)
    ensures nodes <= p.nodes.Keys && |nodes| <= patches && after == Land(c, p, nodes, {})
    ensures |nodes| == patches || nodes == p.nodes.Keys
  {
    after, nodes := c, {};
    LandNothing(c, p);
    while |nodes| < patches && nodes < p.nodes.Keys
      invariant nodes <= p.nodes.Keys && |nodes| <= patches
      invariant after == Land(c, p, nodes, {})
      decreases p.nodes.Keys - nodes
    {
      var n :| n in p.nodes && n !in nodes;
      after := PatchNode(c, p, n, after, nodes);
      nodes := nodes + {n};
    }
  }

  method PatchNode(c: Cluster, p: Plan, n: string, before: Cluster, ghost nodes: set<string>) returns (after: Cluster)
    requires PlanFits(c, p) && n in p.nodes && n !in nodes && before == Land(c, p, nodes, {})
    ensures after == Land(c, p, nodes + {n}, {})
  {
    NodePatch(c, p, n, map[]);
    LandNode(c, p, nodes, {}, n);
    var patched := ReconcileLabelMap(before.nodes[n], p.nodes[n], NO_LABEL);
    match patched
    case Ok(labels) =>
      NodePatch(c, p, n, labels.0);
      after := before.(nodes := before.nodes[n := labels.0]);
    case Err(_) =>
      assert false;
  }

  method ApplySwitches(c: Cluster, p: Plan, patches: nat, start: Cluster, ghost nodes: set<string>)
    returns (after: Cluster, switches: set<string>)
    requires PlanFits(c, p) && start == Land(c, p, nodes, {})
    ensures switches <= p.switches.Keys && after == Land(c, p, nodes, switches)
    ensures |switches| == patches || switches == p.switches.Keys
  {
    after, switches := start, {};
    while |switches| < patches && switches < p.switches.Keys
      invariant switches <= p.switches.Keys && |switches| <= patches
      invariant after == Land(c, p, nodes, switches)
      decreases p.switches.Keys - switches
    {
      var w :| w in p.switches && w !in switches;
      assert SwitchEntry(p, w).Some?;
      LandSwitch(c, p, nodes, switches, w);
      after := after.(switches := after.switches[w := after.switches[w].(domain := p.switches[w])]);
      switches := switches + {w};
    }
  }

  lemma LandNothing(c: Cluster, p: Plan)
    ensures Land(c, p, {}, {}) == c
  {
  }

  lemma LandNode(c: Cluster, p: Plan, nodes: set<string>, switches: set<string>, n: string)
    requires n in p.nodes && n in c.nodes && n !in nodes
    ensures Land(c, p, nodes, switches).nodes[n] == c.nodes[n]
    ensures var before := Land(c, p, nodes, switches);
      before.(nodes := before.nodes[n := c.nodes[n] + p.nodes[n]]) == Land(c, p, nodes + {n}, switches)
  {
  }

  lemma LandSwitch(c: Cluster, p: Plan, nodes: set<string>, switches: set<string>, w: string)
    requires w in p.switches && w in c.switches && w !in switches
    ensures Land(c, p, nodes, switches).switches[w] == c.switches[w]
    ensures var before := Land(c, p, nodes, switches);
      before.(switches := before.switches[w := c.switches[w].(domain := p.switches[w])]) ==
        Land(c, p, nodes, switches + {w})
  {
  }
}
