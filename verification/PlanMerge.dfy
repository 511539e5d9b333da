/** One reconcile handles several topologies. Their templates share no key, so their plans
    conflict only over a Switch that both want to label; else merge is their union. */
module PlanMerge {
  import opened Wrappers
  import opened LabelSyntax
  import opened NormalizeGroups
  import opened AutoLabel
  import opened AutoLabelPlan
  import LabelTemplate
  import Finalizer

  ghost function Either(a: Option<string>, b: Option<string>): Option<string> {
    if b.Some? then b else a
  }

  ghost predicate AgreeOnNode(p: Plan, q: Plan, n: string) {
    forall k {:trigger NodeEntry(q, n, k)} :: NodeEntry(p, n, k).Some? && NodeEntry(q, n, k).Some? ==>
      NodeEntry(p, n, k) == NodeEntry(q, n, k)
  }

  ghost predicate AgreeOnSwitch(p: Plan, q: Plan, w: string) {
    SwitchEntry(p, w).Some? && SwitchEntry(q, w).Some? ==> SwitchEntry(p, w) == SwitchEntry(q, w)
  }

  /** The two plans want different values for nothing. */
  ghost predicate Agree(p: Plan, q: Plan) {
    && (forall n {:trigger AgreeOnNode(p, q, n)} :: AgreeOnNode(p, q, n))
    && (forall w {:trigger AgreeOnSwitch(p, q, w)} :: AgreeOnSwitch(p, q, w))
  }

  /** `r` is `p` with the Node entries of `q` added, for the Nodes outside `todo`. */
  ghost predicate NodesMerged(p: Plan, q: Plan, todo: set<string>, r: Plan) {
    && r.switches == p.switches && r.nodes.Keys <= p.nodes.Keys + q.nodes.Keys
    && (forall n, k {:trigger NodeEntry(r, n, k)} ::
          NodeEntry(r, n, k) == if n in todo then NodeEntry(p, n, k)
            else Either(NodeEntry(p, n, k), NodeEntry(q, n, k)))
  }

  ghost predicate KeysMerged(before: Plan, n: string, labels: Labels, todo: set<string>, r: Plan) {
    && r.switches == before.switches && r.nodes.Keys <= before.nodes.Keys + {n}
    && (forall m, k {:trigger NodeEntry(r, m, k)} ::
          NodeEntry(r, m, k) == if m == n && k in labels && k !in todo then Some(labels[k])
            else NodeEntry(before, m, k))
  }

  lemma AddNodeEntry(p: Plan, n: string, k: string, v: string)
    requires AddNode(p, n, k, v).Ok?
    ensures forall m, j {:trigger NodeEntry(AddNode(p, n, k, v).value, m, j)} ::
      NodeEntry(AddNode(p, n, k, v).value, m, j) == if m == n && j == k then Some(v) else NodeEntry(p, m, j)
  {
  }

  /** The labels of one Node. */
  method MergeNode(before: Plan, n: string, labels: Labels) returns (r: Result<Plan, PlanError>)
    ensures r.Ok? <==> forall k :: k in labels && NodeEntry(before, n, k).Some? ==>
      NodeEntry(before, n, k).value == labels[k]
    ensures r.Ok? ==> KeysMerged(before, n, labels, {}, r.value)
  {
    var plan := before;
    var todo := labels.Keys;
    while todo != {}
      invariant todo <= labels.Keys && KeysMerged(before, n, labels, todo, plan)
      invariant forall k :: k in labels && k !in todo && NodeEntry(before, n, k).Some? ==>
        NodeEntry(before, n, k).value == labels[k]
      decreases todo
    {
      var k :| k in todo;
      assert NodeEntry(plan, n, k) == NodeEntry(before, n, k);
      match AddNode(plan, n, k, labels[k])
      case Err(e) =>
        return Err(e);
      case Ok(next) =>
        AddNodeEntry(plan, n, k, labels[k]);
        plan := next;
        todo := todo - {k};
    }
    r := Ok(plan);
  }

  lemma NodeMerged(p: Plan, q: Plan, todo: set<string>, plan: Plan, n: string, next: Plan)
    requires NodesMerged(p, q, todo, plan) && n in todo && n in q.nodes && KeysMerged(plan, n, q.nodes[n], {}, next)
    ensures NodesMerged(p, q, todo - {n}, next)
  {
    forall m, k
      ensures NodeEntry(next, m, k) == if m in todo - {n} then NodeEntry(p, m, k)
        else Either(NodeEntry(p, m, k), NodeEntry(q, m, k))
    {
      assert NodeEntry(plan, m, k) == if m in todo then NodeEntry(p, m, k)
        else Either(NodeEntry(p, m, k), NodeEntry(q, m, k));
    }
  }

  lemma NodeAgrees(p: Plan, q: Plan, todo: set<string>, plan: Plan, n: string)
    requires NodesMerged(p, q, todo, plan) && n in todo && n in q.nodes
    ensures AgreeOnNode(p, q, n) <==> forall k :: k in q.nodes[n] && NodeEntry(plan, n, k).Some? ==>
      NodeEntry(plan, n, k).value == q.nodes[n][k]
  {
    forall k
      ensures NodeEntry(plan, n, k) == NodeEntry(p, n, k)
      ensures NodeEntry(q, n, k) == if k in q.nodes[n] then Some(q.nodes[n][k]) else None
    {
    }
  }

  /** The first loop of merge. */
  method MergeNodes(p: Plan, q: Plan) returns (r: Result<Plan, PlanError>)
    ensures r.Ok? <==> forall n {:trigger AgreeOnNode(p, q, n)} :: AgreeOnNode(p, q, n)
    ensures r.Ok? ==> NodesMerged(p, q, {}, r.value)
  {
    var plan := p;
    var todo := q.nodes.Keys;
    while todo != {}
      invariant todo <= q.nodes.Keys && NodesMerged(p, q, todo, plan)
      invariant forall n {:trigger AgreeOnNode(p, q, n)} :: n !in todo ==> AgreeOnNode(p, q, n)
      decreases todo
    {
      var n :| n in todo;
      NodeAgrees(p, q, todo, plan, n);
      var merged := MergeNode(plan, n, q.nodes[n]);
      match merged
      case Err(e) =>
        return Err(e);
      case Ok(next) =>
        NodeMerged(p, q, todo, plan, n, next);
        plan := next;
        todo := todo - {n};
    }
    r := Ok(plan);
  }

  /** The plan holds what either plan holds. */
  ghost predicate Merged(p: Plan, q: Plan, r: Plan) {
    && r.nodes.Keys <= p.nodes.Keys + q.nodes.Keys
    && (forall n, k {:trigger NodeEntry(r, n, k)} ::
          NodeEntry(r, n, k) == Either(NodeEntry(p, n, k), NodeEntry(q, n, k)))
    && (forall w {:trigger SwitchEntry(r, w)} :: SwitchEntry(r, w) == Either(SwitchEntry(p, w), SwitchEntry(q, w)))
  }

  ghost predicate SwitchesMerged(p: Plan, q: Plan, base: Plan, todo: set<string>, r: Plan) {
    && r.nodes == base.nodes
    && (forall w {:trigger SwitchEntry(r, w)} ::
          SwitchEntry(r, w) == if w in todo then SwitchEntry(p, w) else Either(SwitchEntry(p, w), SwitchEntry(q, w)))
  }

  /** merge: it succeeds exactly on plans that agree, and yields their union. */
  method MergePlans(p: Plan, q: Plan) returns (r: Result<Plan, PlanError>)
    ensures r.Ok? <==> Agree(p, q)
    ensures r.Ok? ==> Merged(p, q, r.value)
  {
    var merged := MergeNodes(p, q);
    match merged
    case Err(e) =>
      return Err(e);
    case Ok(base) =>
      var plan := base;
      var todo := q.switches.Keys;
      while todo != {}
        invariant todo <= q.switches.Keys && SwitchesMerged(p, q, base, todo, plan)
        invariant forall w {:trigger AgreeOnSwitch(p, q, w)} :: w !in todo ==> AgreeOnSwitch(p, q, w)
        decreases todo
      {
        var w :| w in todo;
        assert SwitchEntry(plan, w) == SwitchEntry(p, w) && SwitchEntry(q, w) == Some(q.switches[w]);
        match AddSwitch(plan, w, q.switches[w])
        case Err(e) =>
          assert !AgreeOnSwitch(p, q, w);
          return Err(e);
        case Ok(next) =>
          SwitchMerged(p, q, base, todo, plan, w);
          plan := next;
          todo := todo - {w};
      }
      MergeDone(p, q, base, plan);
      r := Ok(plan);
  }

  lemma SwitchMerged(p: Plan, q: Plan, base: Plan, todo: set<string>, plan: Plan, w: string)
    requires SwitchesMerged(p, q, base, todo, plan) && w in todo && w in q.switches
      && AddSwitch(plan, w, q.switches[w]).Ok?
    ensures SwitchesMerged(p, q, base, todo - {w}, AddSwitch(plan, w, q.switches[w]).value)
  {
    var next := AddSwitch(plan, w, q.switches[w]).value;
    forall x
      ensures SwitchEntry(next, x) == if x == w then SwitchEntry(q, w) else SwitchEntry(plan, x)
    {
    }
  }

  lemma MergeDone(p: Plan, q: Plan, base: Plan, plan: Plan)
    requires NodesMerged(p, q, {}, base) && SwitchesMerged(p, q, base, {}, plan)
    ensures Merged(p, q, plan)
  {
    forall n, k
      ensures NodeEntry(plan, n, k) == Either(NodeEntry(p, n, k), NodeEntry(q, n, k))
    {
      assert NodeEntry(plan, n, k) == NodeEntry(base, n, k);
    }
  }

  // ---------------------------------------------------------------- plans of two roles

  /** A plan for a topology writes names under keys of its own template only. */
  lemma PlanHasOwnKeys(s: Syntax, d: RoleTopology, c: Cluster, names: map<DiscoveredGroup, string>, p: Plan, n: string,
                       k: string)
    requires Lawful(s) && GroupsSeparate(d.groups) && PlanFor(s, d, c, names, p) && NodeEntry(p, n, k).Some?
    ensures s.matchTier(k).Some? && NodeEntry(p, n, k).value != ""
  {
    var v := NodeEntry(p, n, k).value;
    assert WantedOnNode(s, c, names, n, k, v);
    var g :| g in names && LacksKey(s, c, g, n) && k == s.render(g.tier) && v == names[g];
    assert NameFits(s, d, c, g, names[g]);
    assert s.parse(v).Some?;
  }

  lemma PlanHasOwnSwitches(s: Syntax, d: RoleTopology, c: Cluster, names: map<DiscoveredGroup, string>, p: Plan,
                           w: string)
    requires PlanFor(s, d, c, names, p) && SwitchEntry(p, w).Some?
    ensures w in c.switches && IsMember(d.groups, w)
  {
    var v := SwitchEntry(p, w).value;
    assert WantedOnSwitch(c, names, w, v);
    var g :| g in names && LacksDomain(c, g, w) && v == names[g];
  }

  lemma OneRolePerKey(s: Syntax, d: RoleTopology, sNames: map<DiscoveredGroup, string>, p: Plan,
                      u: Syntax, e: RoleTopology, uNames: map<DiscoveredGroup, string>, q: Plan, c: Cluster, n: string,
                      k: string)
    requires Lawful(s) && GroupsSeparate(d.groups) && PlanFor(s, d, c, sNames, p)
    requires Lawful(u) && GroupsSeparate(e.groups) && PlanFor(u, e, c, uNames, q)
    requires s.matchTier(k).Some? ==> u.matchTier(k).None?
    ensures NodeEntry(p, n, k).None? || NodeEntry(q, n, k).None?
  {
    if NodeEntry(p, n, k).Some? && NodeEntry(q, n, k).Some? {
      PlanHasOwnKeys(s, d, c, sNames, p, n, k);
      PlanHasOwnKeys(u, e, c, uNames, q, n, k);
    }
  }

  /** No Switch is a member of groups of both topologies. */
  ghost predicate MembersApart(d: RoleTopology, e: RoleTopology, c: Cluster) {
    forall w {:trigger c.switches[w]} :: w in c.switches ==> !(IsMember(d.groups, w) && IsMember(e.groups, w))
  }

  /** What both topologies want for a Switch that carries nothing yet is the same. */
  ghost predicate WantTheSame(d: RoleTopology, sNames: map<DiscoveredGroup, string>, e: RoleTopology,
                              uNames: map<DiscoveredGroup, string>, c: Cluster) {
    forall g, h, w {:trigger LacksDomain(c, g, w), LacksDomain(c, h, w)} ::
      g in d.groups && g in sNames && h in e.groups && h in uNames && LacksDomain(c, g, w) && LacksDomain(c, h, w) ==>
      sNames[g] == uNames[h]
  }

  ghost predicate KeysApart(s: Syntax, u: Syntax) {
    forall k {:trigger s.matchTier(k)} :: s.matchTier(k).Some? ==> u.matchTier(k).None?
  }

  lemma NodesAgree(s: Syntax, d: RoleTopology, sNames: map<DiscoveredGroup, string>, p: Plan,
                   u: Syntax, e: RoleTopology, uNames: map<DiscoveredGroup, string>, q: Plan, c: Cluster, n: string)
    requires Lawful(s) && GroupsSeparate(d.groups) && PlanFor(s, d, c, sNames, p)
    requires Lawful(u) && GroupsSeparate(e.groups) && PlanFor(u, e, c, uNames, q) && KeysApart(s, u)
    ensures AgreeOnNode(p, q, n)
  {
    forall k
      ensures NodeEntry(p, n, k).None? || NodeEntry(q, n, k).None?
    {
      OneRolePerKey(s, d, sNames, p, u, e, uNames, q, c, n, k);
    }
  }

  lemma SwitchesAgree(s: Syntax, d: RoleTopology, sNames: map<DiscoveredGroup, string>, p: Plan,
                      u: Syntax, e: RoleTopology, uNames: map<DiscoveredGroup, string>, q: Plan, c: Cluster, w: string)
    requires PlanFor(s, d, c, sNames, p) && PlanFor(u, e, c, uNames, q) && WantTheSame(d, sNames, e, uNames, c)
    ensures AgreeOnSwitch(p, q, w)
  {
    if SwitchEntry(p, w).Some? && SwitchEntry(q, w).Some? {
      assert WantedOnSwitch(c, sNames, w, SwitchEntry(p, w).value);
      var g :| g in sNames && LacksDomain(c, g, w) && SwitchEntry(p, w).value == sNames[g];
      assert WantedOnSwitch(c, uNames, w, SwitchEntry(q, w).value);
      var h :| h in uNames && LacksDomain(c, h, w) && SwitchEntry(q, w).value == uNames[h];
    }
  }

  /** Plans under templates that share no key conflict if and only if they want different names
      for a Switch that is a member of groups of both and carries nothing yet. */
  lemma RolePlansAgree(s: Syntax, d: RoleTopology, sNames: map<DiscoveredGroup, string>, p: Plan,
                       u: Syntax, e: RoleTopology, uNames: map<DiscoveredGroup, string>, q: Plan, c: Cluster)
    requires Lawful(s) && GroupsSeparate(d.groups) && PlanFor(s, d, c, sNames, p)
    requires Lawful(u) && GroupsSeparate(e.groups) && PlanFor(u, e, c, uNames, q) && KeysApart(s, u)
    ensures Agree(p, q) <==> WantTheSame(d, sNames, e, uNames, c)
  {
    if WantTheSame(d, sNames, e, uNames, c) {
      forall n
        ensures AgreeOnNode(p, q, n)
      {
        NodesAgree(s, d, sNames, p, u, e, uNames, q, c, n);
      }
      forall w
        ensures AgreeOnSwitch(p, q, w)
      {
        SwitchesAgree(s, d, sNames, p, u, e, uNames, q, c, w);
      }
    }
    if Agree(p, q) {
      AgreementWantsTheSame(s, d, sNames, p, u, e, uNames, q, c);
    }
  }

  lemma AgreementWantsTheSame(s: Syntax, d: RoleTopology, sNames: map<DiscoveredGroup, string>, p: Plan,
                              u: Syntax, e: RoleTopology, uNames: map<DiscoveredGroup, string>, q: Plan, c: Cluster)
    requires PlansSwitches(c, sNames, p) && PlansSwitches(c, uNames, q) && Agree(p, q)
    ensures WantTheSame(d, sNames, e, uNames, c)
  {
    forall g, h, w | g in sNames && h in uNames && LacksDomain(c, g, w) && LacksDomain(c, h, w)
      ensures sNames[g] == uNames[h]
    {
      assert SwitchEntry(p, w) == Some(sNames[g]) && SwitchEntry(q, w) == Some(uNames[h]);
      assert AgreeOnSwitch(p, q, w);
    }
  }

  /** Without a common member plans always agree. */
  lemma ApartPlansAgree(s: Syntax, d: RoleTopology, sNames: map<DiscoveredGroup, string>, p: Plan,
                        u: Syntax, e: RoleTopology, uNames: map<DiscoveredGroup, string>, q: Plan, c: Cluster)
    requires Lawful(s) && GroupsSeparate(d.groups) && PlanFor(s, d, c, sNames, p)
    requires Lawful(u) && GroupsSeparate(e.groups) && PlanFor(u, e, c, uNames, q) && KeysApart(s, u)
    requires MembersApart(d, e, c)
    ensures Agree(p, q)
  {
    forall g, h, w
      ensures !(g in d.groups && h in e.groups && LacksDomain(c, g, w) && LacksDomain(c, h, w))
    {
      if g in d.groups && h in e.groups && LacksDomain(c, g, w) && LacksDomain(c, h, w) {
        CommonMember(d, e, c, g, h, w);
      }
    }
    RolePlansAgree(s, d, sNames, p, u, e, uNames, q, c);
  }

  lemma CommonMember(d: RoleTopology, e: RoleTopology, c: Cluster, g: DiscoveredGroup, h: DiscoveredGroup, w: string)
    requires g in d.groups && h in e.groups && LacksDomain(c, g, w) && LacksDomain(c, h, w)
    ensures !MembersApart(d, e, c)
  {
    assert IsMember(d.groups, w) && IsMember(e.groups, w);
  }

  // ----------------------------------------------------- templates of the state machine

  /** The templates that CompileSet accepts are separate, as the finalizer protocol asks. */
  lemma CompiledTemplatesAreSeparate(x: string, l: LabelTemplate.Template, y: string, r: LabelTemplate.Template)
    requires x != y && !LabelTemplate.Overlap(l, r)
    ensures Finalizer.Separate(map[x := (k: string) => LabelTemplate.MatchTier(l, k).Some?, y := (k: string) =>
      LabelTemplate.MatchTier(r, k).Some?])
  {
    forall k: string | LabelTemplate.MatchTier(l, k).Some?
      ensures LabelTemplate.MatchTier(r, k).None?
    {
      LabelTemplate.MatchesAtMostOne(l, r, k);
    }
  }

  /** A role plan is one of the plans that the state machine lets the controller make. */
  lemma RolePlanIsStep(s: Syntax, d: RoleTopology, c: Cluster, names: map<DiscoveredGroup, string>, p: Plan)
    requires Lawful(s) && GroupsSeparate(d.groups) && PlanFor(s, d, c, names, p)
    ensures Finalizer.KeysOf((k: string) => s.matchTier(k).Some?, p.nodes)
  {
    forall n, k | n in p.nodes && k in p.nodes[n]
      ensures s.matchTier(k).Some? && p.nodes[n][k] != ""
    {
      assert NodeEntry(p, n, k) == Some(p.nodes[n][k]);
      PlanHasOwnKeys(s, d, c, names, p, n, k);
    }
  }
}
