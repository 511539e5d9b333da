/** The second half of buildAutoLabelPlan: once a group has its name, plan the labels that
    are missing. The plan touches nothing that is already labelled. */
module AutoLabelPlan {
  import opened Wrappers
  import opened Decimal
  import opened LabelSyntax
  import opened NormalizeGroups
  import opened AutoLabel
  import opened Sets

  function NodeEntry(p: Plan, n: string, k: string): Option<string> {
    if n in p.nodes && k in p.nodes[n] then Some(p.nodes[n][k]) else None
  }

  function SwitchEntry(p: Plan, w: string): Option<string> {
    if w in p.switches then Some(p.switches[w]) else None
  }

  /** addNode. */
  function AddNode(p: Plan, n: string, k: string, v: string): Result<Plan, PlanError> {
    if NodeEntry(p, n, k).Some? && NodeEntry(p, n, k).value != v then Err(Conflicting(n))
    else Ok(p.(nodes := p.nodes[n := (if n in p.nodes then p.nodes[n] else map[])[k := v]]))
  }

  /** addSwitch. */
  function AddSwitch(p: Plan, w: string, v: string): Result<Plan, PlanError> {
    if SwitchEntry(p, w).Some? && SwitchEntry(p, w).value != v then Err(Conflicting(w))
    else Ok(p.(switches := p.switches[w := v]))
  }

  /** The Node `n` lacks the label that group `g` wants on it. */
  ghost predicate LacksKey(s: Syntax, c: Cluster, g: DiscoveredGroup, n: string) {
    n in g.nodes && n in c.nodes && s.render(g.tier) !in c.nodes[n]
  }

  /** The Switch `m` lacks the domain that group `g` wants on it. */
  ghost predicate LacksDomain(c: Cluster, g: DiscoveredGroup, m: string) {
    m in g.members && m in c.switches && c.switches[m].domain == ""
  }

  ghost predicate WantedOnNode(s: Syntax, c: Cluster, names: map<DiscoveredGroup, string>, n: string, k: string,
                               v: string) {
    exists g :: g in names && LacksKey(s, c, g, n) && k == s.render(g.tier) && v == names[g]
  }

  ghost predicate WantedOnSwitch(c: Cluster, names: map<DiscoveredGroup, string>, w: string, v: string) {
    exists g :: g in names && LacksDomain(c, g, w) && v == names[g]
  }

  /** The plan adds the missing labels of the named groups, and nothing else. */
  ghost predicate PlansNodes(s: Syntax, c: Cluster, names: map<DiscoveredGroup, string>, p: Plan) {
    && (forall g, n {:trigger LacksKey(s, c, g, n)} :: g in names && LacksKey(s, c, g, n) ==>
          NodeEntry(p, n, s.render(g.tier)) == Some(names[g]))
    && (forall n, k {:trigger NodeEntry(p, n, k)} :: NodeEntry(p, n, k).Some? ==>
          WantedOnNode(s, c, names, n, k, NodeEntry(p, n, k).value))
    && (forall n :: n in p.nodes ==> p.nodes[n] != map[])
  }

  ghost predicate PlansSwitches(c: Cluster, names: map<DiscoveredGroup, string>, p: Plan) {
    && (forall g, m {:trigger LacksDomain(c, g, m)} :: g in names && LacksDomain(c, g, m) ==>
          SwitchEntry(p, m) == Some(names[g]))
    && (forall w {:trigger SwitchEntry(p, w)} :: SwitchEntry(p, w).Some? ==>
          WantedOnSwitch(c, names, w, SwitchEntry(p, w).value))
  }

  /** A finished plan for the cluster: sound names and exactly the labels still missing. */
  ghost predicate PlanFor(s: Syntax, d: RoleTopology, c: Cluster, names: map<DiscoveredGroup, string>, p: Plan) {
    SoundNames(s, d, c, names) && PlansNodes(s, c, names, p) && PlansSwitches(c, names, p)
  }

  /** A group without a name gets one of the numbers that follow the highest in use, as many as
      there are such groups in its tier. */
  ghost predicate Numbered(s: Syntax, d: RoleTopology, c: Cluster, names: map<DiscoveredGroup, string>) {
    forall g {:trigger names[g]} :: g in d.groups && g in names && Locked(s, c, g) == {} ==>
      && NamesTier(s, names[g], g.tier)
      && Top(s, d, c, g.tier) < s.parse(names[g]).value.group
      && s.parse(names[g]).value.group <= Top(s, d, c, g.tier) + |FreshGroups(s, c, d.groups, g.tier)|
  }

  /** `after` is `before` with `name` filed for the nodes in `done` that lack the key. */
  ghost predicate NodesFiled(s: Syntax, c: Cluster, g: DiscoveredGroup, name: string, done: set<string>, before: Plan,
                             after: Plan) {
    && after.switches == before.switches
    && (forall n :: n in after.nodes ==> after.nodes[n] != map[] || (n in before.nodes && before.nodes[n] == map[]))
    && (forall n, k {:trigger NodeEntry(after, n, k)} :: NodeEntry(after, n, k) ==
          if n in done && LacksKey(s, c, g, n) && k == s.render(g.tier) then Some(name) else NodeEntry(before, n, k))
  }

  method PlanNodes(s: Syntax, c: Cluster, g: DiscoveredGroup, name: string, before: Plan)
    returns (r: Result<Plan, PlanError>)
    requires g.nodes <= c.nodes.Keys && LockedOnNodes(s, c, g) <= {name}
    requires forall n :: n in g.nodes ==> NodeEntry(before, n, s.render(g.tier)).None?
    ensures r.Ok? && NodesFiled(s, c, g, name, g.nodes, before, r.value)
  {
    var plan := before;
    var todo := g.nodes;
    while todo != {}
      invariant todo <= g.nodes && NodesFiled(s, c, g, name, g.nodes - todo, before, plan)
      decreases todo
    {
      var n :| n in todo;
      todo := todo - {n};
      if s.render(g.tier) in c.nodes[n] {
        assert c.nodes[n][s.render(g.tier)] in LockedOnNodes(s, c, g);
        if c.nodes[n][s.render(g.tier)] != name {
          return Err(Conflicting(n));
        }
      } else {
        assert NodeEntry(plan, n, s.render(g.tier)) == None;
        match AddNode(plan, n, s.render(g.tier), name)
        case Err(e) =>
          return Err(e);
        case Ok(next) =>
          FileNode(s, c, g, name, g.nodes - todo - {n}, before, plan, n);
          plan := next;
          assert g.nodes - todo - {n} + {n} == g.nodes - todo;
      }
    }
    assert g.nodes - todo == g.nodes;
    r := Ok(plan);
  }

  lemma FileNode(s: Syntax, c: Cluster, g: DiscoveredGroup, name: string, done: set<string>, before: Plan, plan: Plan,
                 n: string)
    requires NodesFiled(s, c, g, name, done, before, plan) && LacksKey(s, c, g, n)
      && NodeEntry(plan, n, s.render(g.tier)).None?
    ensures AddNode(plan, n, s.render(g.tier), name).Ok?
    ensures NodesFiled(s, c, g, name, done + {n}, before, AddNode(plan, n, s.render(g.tier), name).value)
  {
    var next := AddNode(plan, n, s.render(g.tier), name).value;
    assert s.render(g.tier) in next.nodes[n];
    forall x, k
      ensures NodeEntry(next, x, k) == if x == n && k == s.render(g.tier) then Some(name) else NodeEntry(plan, x, k)
    {
    }
  }

  ghost predicate SwitchesFiled(c: Cluster, g: DiscoveredGroup, name: string, done: set<string>, before: Plan,
                                after: Plan) {
    && after.nodes == before.nodes
    && (forall w {:trigger SwitchEntry(after, w)} :: SwitchEntry(after, w) ==
          if w in done && LacksDomain(c, g, w) then Some(name) else SwitchEntry(before, w))
  }

  method PlanSwitches(d: RoleTopology, c: Cluster, g: DiscoveredGroup, name: string, before: Plan)
    returns (r: Result<Plan, PlanError>)
    requires forall m :: m in g.members ==> m in c.switches || m in d.synthetic
    requires LockedOnSwitches(c, g) <= {name}
    requires forall m :: m in g.members ==> SwitchEntry(before, m).None?
    ensures r.Ok? && SwitchesFiled(c, g, name, g.members, before, r.value)
  {
    var plan := before;
    var todo := g.members;
    while todo != {}
      invariant todo <= g.members && SwitchesFiled(c, g, name, g.members - todo, before, plan)
      decreases todo
    {
      var m :| m in todo;
      todo := todo - {m};
      if m !in c.switches {
        if m !in d.synthetic {
          return Err(MissingSwitch(m));
        }
      } else if c.switches[m].domain != "" {
        assert c.switches[m].domain in LockedOnSwitches(c, g);
        if c.switches[m].domain != name {
          return Err(Conflicting(m));
        }
      } else {
        assert SwitchEntry(plan, m) == None;
        match AddSwitch(plan, m, name)
        case Err(e) =>
          return Err(e);
        case Ok(next) =>
          FileSwitch(c, g, name, g.members - todo - {m}, before, plan, m);
          plan := next;
          assert g.members - todo - {m} + {m} == g.members - todo;
      }
    }
    assert g.members - todo == g.members;
    r := Ok(plan);
  }

  lemma FileSwitch(c: Cluster, g: DiscoveredGroup, name: string, done: set<string>, before: Plan, plan: Plan, m: string)
    requires SwitchesFiled(c, g, name, done, before, plan) && LacksDomain(c, g, m) && SwitchEntry(plan, m).None?
    ensures AddSwitch(plan, m, name).Ok?
    ensures SwitchesFiled(c, g, name, done + {m}, before, AddSwitch(plan, m, name).value)
  {
    var next := AddSwitch(plan, m, name).value;
    forall w
      ensures SwitchEntry(next, w) == if w == m then Some(name) else SwitchEntry(plan, w)
    {
    }
  }

  // ------------------------------------------------------------------ one more group

  lemma KeysDiffer(s: Syntax, a: DiscoveredGroup, b: DiscoveredGroup)
    requires Lawful(s) && 1 <= a.tier <= MAX_INT && 1 <= b.tier <= MAX_INT && s.render(a.tier) == s.render(b.tier)
    ensures a.tier == b.tier
  {
    assert s.matchTier(s.render(a.tier)) == Some(a.tier);
    assert s.matchTier(s.render(b.tier)) == Some(b.tier);
  }

  /** Nothing is filed yet for a group that has not been named. */
  lemma NotYetFiled(s: Syntax, d: RoleTopology, c: Cluster, names: map<DiscoveredGroup, string>, p: Plan,
                    g: DiscoveredGroup)
    requires Lawful(s) && GroupsSeparate(d.groups) && names.Keys <= d.groups && g in d.groups && g !in names
    requires PlansNodes(s, c, names, p) && PlansSwitches(c, names, p)
    ensures forall n :: n in g.nodes ==> NodeEntry(p, n, s.render(g.tier)).None?
    ensures forall m :: m in g.members ==> SwitchEntry(p, m).None?
  {
    forall n | n in g.nodes
      ensures NodeEntry(p, n, s.render(g.tier)).None?
    {
      if NodeEntry(p, n, s.render(g.tier)).Some? {
        NodeEntryHasGroup(s, d, c, names, p, g, n);
      }
    }
  }

  lemma NodeEntryHasGroup(s: Syntax, d: RoleTopology, c: Cluster, names: map<DiscoveredGroup, string>, p: Plan,
                          g: DiscoveredGroup, n: string)
    requires Lawful(s) && GroupsSeparate(d.groups) && names.Keys <= d.groups && g in d.groups
    requires PlansNodes(s, c, names, p) && n in g.nodes && NodeEntry(p, n, s.render(g.tier)).Some?
    ensures g in names
  {
    var v := NodeEntry(p, n, s.render(g.tier)).value;
    var h :| h in names && LacksKey(s, c, h, n) && s.render(g.tier) == s.render(h.tier) && v == names[h];
    KeysDiffer(s, g, h);
  }

  lemma PlanOneMoreNodes(s: Syntax, c: Cluster, names: map<DiscoveredGroup, string>, g: DiscoveredGroup, name: string,
                         before: Plan, after: Plan)
    requires PlansNodes(s, c, names, before) && g !in names && NodesFiled(s, c, g, name, g.nodes, before, after)
    requires forall n :: n in g.nodes ==> NodeEntry(before, n, s.render(g.tier)).None?
    ensures PlansNodes(s, c, names[g := name], after)
  {
    var more := names[g := name];
    forall h, n | h in more && LacksKey(s, c, h, n)
      ensures NodeEntry(after, n, s.render(h.tier)) == Some(more[h])
    {
      if h != g {
        assert NodeEntry(before, n, s.render(h.tier)) == Some(names[h]);
      }
    }
    forall n, k | NodeEntry(after, n, k).Some?
      ensures WantedOnNode(s, c, more, n, k, NodeEntry(after, n, k).value)
    {
      if LacksKey(s, c, g, n) && k == s.render(g.tier) {
        assert more[g] == NodeEntry(after, n, k).value;
      } else {
        var v := NodeEntry(before, n, k).value;
        var h :| h in names && LacksKey(s, c, h, n) && k == s.render(h.tier) && v == names[h];
        assert more[h] == v;
      }
    }
  }

  lemma PlanOneMoreSwitches(c: Cluster, names: map<DiscoveredGroup, string>, g: DiscoveredGroup, name: string,
                            before: Plan, after: Plan)
    requires PlansSwitches(c, names, before) && g !in names && SwitchesFiled(c, g, name, g.members, before, after)
    requires forall m :: m in g.members ==> SwitchEntry(before, m).None?
    ensures PlansSwitches(c, names[g := name], after)
  {
    var more := names[g := name];
    forall h, m | h in more && LacksDomain(c, h, m)
      ensures SwitchEntry(after, m) == Some(more[h])
    {
      if h != g {
        assert SwitchEntry(before, m) == Some(names[h]);
      }
    }
    forall w | SwitchEntry(after, w).Some?
      ensures WantedOnSwitch(c, more, w, SwitchEntry(after, w).value)
    {
      if LacksDomain(c, g, w) {
        assert more[g] == SwitchEntry(after, w).value;
      } else {
        var v := SwitchEntry(before, w).value;
        var h :| h in names && LacksDomain(c, h, w) && v == names[h];
        assert more[h] == v;
      }
    }
  }

  /** Plan the labels of one group that has just been named. */
  method PlanGroup(s: Syntax, d: RoleTopology, c: Cluster, g: DiscoveredGroup, name: string, before: Plan,
                   ghost names: map<DiscoveredGroup, string>)
    returns (r: Result<Plan, PlanError>)
    requires Lawful(s) && GroupsSeparate(d.groups) && names.Keys <= d.groups && g in d.groups && g !in names
    requires GroupReadable(s, d, c, g) && Locked(s, c, g) <= {name}
    requires PlansNodes(s, c, names, before) && PlansSwitches(c, names, before)
    ensures r.Ok? && PlansNodes(s, c, names[g := name], r.value) && PlansSwitches(c, names[g := name], r.value)
  {
    NotYetFiled(s, d, c, names, before, g);
    var nodes := PlanNodes(s, c, g, name, before);
    match nodes
    case Err(e) =>
      return Err(e);
    case Ok(middle) =>
      PlanOneMoreNodes(s, c, names, g, name, before, middle);
      SwitchPlanUnchanged(c, names, before, middle);
      r := PlanSwitches(d, c, g, name, middle);
      PlanOneMoreSwitches(c, names, g, name, middle, r.value);
      NodePlanUnchanged(s, c, names[g := name], middle, r.value);
  }

  lemma SwitchPlanUnchanged(c: Cluster, names: map<DiscoveredGroup, string>, p: Plan, q: Plan)
    requires p.switches == q.switches
    ensures PlansSwitches(c, names, p) <==> PlansSwitches(c, names, q)
    ensures forall m {:trigger SwitchEntry(q, m)} :: SwitchEntry(p, m) == SwitchEntry(q, m)
  {
    assert forall m :: SwitchEntry(p, m) == SwitchEntry(q, m);
  }

  lemma NodePlanUnchanged(s: Syntax, c: Cluster, names: map<DiscoveredGroup, string>, p: Plan, q: Plan)
    requires p.nodes == q.nodes
    ensures PlansNodes(s, c, names, p) <==> PlansNodes(s, c, names, q)
  {
    assert forall n, k :: NodeEntry(p, n, k) == NodeEntry(q, n, k);
  }

  // ---------------------------------------------------------------- the whole plan

  /** What the loop over the groups keeps true. */
  ghost predicate Planning(s: Syntax, d: RoleTopology, c: Cluster, p: Progress, plan: Plan) {
    && Allocating(s, d, c, p)
    && PlansNodes(s, c, p.names, plan) && PlansSwitches(c, p.names, plan)
    && AllReadable(s, d, c, p.names.Keys)
  }

  ghost predicate Readable(s: Syntax, d: RoleTopology, c: Cluster, g: DiscoveredGroup) {
    GroupReadable(s, d, c, g) && (d.nodeOnly ==> g.tier == 1)
  }

  ghost predicate AllReadable(s: Syntax, d: RoleTopology, c: Cluster, groups: set<DiscoveredGroup>) {
    forall g {:trigger Readable(s, d, c, g)} :: g in groups ==> Readable(s, d, c, g)
  }

  /** buildAutoLabelPlan succeeds exactly when the existing labels fit the discovered groups and
      no fresh number runs into a name that the scans do not see, which takes a member that is
      a Switch of another role. Then it has chosen sound names and planned exactly the labels
      that are missing. */
  method BuildAutoLabelPlan(s: Syntax, d: RoleTopology, c: Cluster)
    returns (r: Result<Plan, PlanError>, names: map<DiscoveredGroup, string>)
    requires Lawful(s) && GroupsSeparate(d.groups) && NextFit(s, d, c)
    ensures r.Ok? <==> Plannable(s, d, c)
    ensures MembersHaveRole(d, c) ==> (r.Ok? <==> Consistent(s, d, c))
    ensures r.Ok? ==> PlanFor(s, d, c, names, r.value) && Numbered(s, d, c, names)
  {
    names := map[];
    if MembersHaveRole(d, c) {
      OwnRoleNeverClashes(s, d, c);
    }
    var scanned := Scan(s, d.role, c);
    match scanned
    case Err(e) =>
      return Err(e), names;
    case Ok(maxByTier) =>
      var p := Progress(maxByTier, map[], map[]);
      var plan := Plan(map[], map[]);
      PlanningStarts(s, d, c, maxByTier);
      while p.names.Keys < d.groups
        invariant Planning(s, d, c, p, plan)
        decreases d.groups - p.names.Keys
      {
        var g :| g in d.groups && g !in p.names;
        var stepped := NameAndPlan(s, d, c, g, p, plan);
        match stepped
        case Err(e) =>
          return Err(e), names;
        case Ok(next) =>
          OneLeft(d.groups, p.names.Keys, next.0.names.Keys, g);
          p, plan := next.0, next.1;
      }
      names := p.names;
      PlanningDone(s, d, c, p, plan);
      r := Ok(plan);
  }

  lemma PlanningStarts(s: Syntax, d: RoleTopology, c: Cluster, maxByTier: map<int, int>)
    requires NonNegative(maxByTier) && HoldsHighest(s, InUse(s, d.role, c), maxByTier)
    ensures Planning(s, d, c, Progress(maxByTier, map[], map[]), Plan(map[], map[]))
  {
  }

  lemma OneLeft<T>(all: set<T>, before: set<T>, after: set<T>, g: T)
    requires g in all && g !in before && after == before + {g}
    ensures all - after < all - before
  {
    assert g in all - before;
  }

  lemma FewerNames(groups: set<DiscoveredGroup>, names: map<DiscoveredGroup, string>, g: DiscoveredGroup)
    requires names.Keys <= groups && g in groups && g !in names
    ensures |names| < |groups|
  {
    assert |names.Keys + {g}| == |names| + 1;
    SubsetSize(names.Keys + {g}, groups);
  }

  /** One turn of the loop over the groups. */
  method NameAndPlan(s: Syntax, d: RoleTopology, c: Cluster, g: DiscoveredGroup, p: Progress,
                     before: Plan)
    returns (r: Result<(Progress, Plan), PlanError>)
    requires Lawful(s) && GroupsSeparate(d.groups) && NextFit(s, d, c)
    requires g in d.groups && g !in p.names && Planning(s, d, c, p, before)
    ensures r.Ok? ==> Planning(s, d, c, r.value.0, r.value.1) && r.value.0.names.Keys == p.names.Keys + {g}
    ensures r.Err? ==> !Consistent(s, d, c) || FreshNamesClash(s, d, c)
  {
    FewerNames(d.groups, p.names, g);
    var named := AssignName(s, d, c, g, p);
    match named
    case Err(e) =>
      return Err(e);
    case Ok(q) =>
      NewNameFits(s, d, c, q, g);
      ExtendsByOne(p.names, q.names, g);
      var planned := PlanGroup(s, d, c, g, q.names[g], before, p.names);
      match planned
      case Err(e) =>
        return Err(e);
      case Ok(plan) =>
        assert Readable(s, d, c, g);
        r := Ok((q, plan));
  }

  lemma NewNameFits(s: Syntax, d: RoleTopology, c: Cluster, q: Progress, g: DiscoveredGroup)
    requires Allocating(s, d, c, q) && g in q.names
    ensures NameFits(s, d, c, g, q.names[g])
  {
    assert NamedRight(s, d, c, q, g);
  }

  lemma ExtendsByOne(before: map<DiscoveredGroup, string>, after: map<DiscoveredGroup, string>, g: DiscoveredGroup)
    requires after.Keys == before.Keys + {g} && g !in before && KeepsNames(before, after)
    ensures after == before[g := after[g]]
  {
  }

  lemma PlanningDone(s: Syntax, d: RoleTopology, c: Cluster, p: Progress, plan: Plan)
    requires Lawful(s) && GroupsSeparate(d.groups) && ScanOk(s, d.role, c)
    requires Planning(s, d, c, p, plan) && !(p.names.Keys < d.groups)
    ensures Consistent(s, d, c) && !FreshNamesClash(s, d, c) && PlanFor(s, d, c, p.names, plan)
    ensures Numbered(s, d, c, p.names)
  {
    assert p.names.Keys == d.groups;
    NamesDiffer(s, d, c, p);
    forall g | g in p.names
      ensures NameFits(s, d, c, g, p.names[g])
    {
      NewNameFits(s, d, c, p, g);
    }
    AgreementIsConsistent(s, d, c, p.names);
    NumbersAreTaken(s, d, c, p);
    NamesAreNumbered(s, d, c, p);
  }

  lemma NamesAreNumbered(s: Syntax, d: RoleTopology, c: Cluster, p: Progress)
    requires Allocating(s, d, c, p) && p.names.Keys == d.groups
    ensures Numbered(s, d, c, p.names)
  {
    forall g | g in p.names && Locked(s, c, g) == {}
      ensures NamesTier(s, p.names[g], g.tier)
      ensures Top(s, d, c, g.tier) < s.parse(p.names[g]).value.group
      ensures s.parse(p.names[g]).value.group <= Top(s, d, c, g.tier) + |FreshGroups(s, c, d.groups, g.tier)|
    {
      assert NamedRight(s, d, c, p, g);
      assert MaxOf(p.maxByTier, g.tier) == Top(s, d, c, g.tier) + |FreshGroups(s, c, p.names.Keys, g.tier)|;
    }
  }

  /** The number of a clashing name went to a group without a name. */
  lemma ClashIsTaken(s: Syntax, d: RoleTopology, c: Cluster, p: Progress, g: DiscoveredGroup, v: string)
    returns (h: DiscoveredGroup)
    requires Lawful(s) && Allocating(s, d, c, p) && p.names.Keys == d.groups && ClashesAt(s, d, c, g, v)
    ensures h in p.names && h != g && g in p.names && p.names[h] == p.names[g]
  {
    var k := s.parse(v).value.group;
    assert MaxOf(p.maxByTier, g.tier) == Top(s, d, c, g.tier) + |FreshGroups(s, c, p.names.Keys, g.tier)|;
    assert Taken(s, c, p.names, g.tier, k);
    h :| h in p.names && Locked(s, c, h) == {} && p.names[h] == s.name(g.tier, k);
    assert NamedRight(s, d, c, p, g);
  }

  /** All fresh numbers are in use by the groups that got them, so no written name has one. */
  lemma NumbersAreTaken(s: Syntax, d: RoleTopology, c: Cluster, p: Progress)
    requires Lawful(s) && GroupsSeparate(d.groups) && Allocating(s, d, c, p) && p.names.Keys == d.groups
    ensures !FreshNamesClash(s, d, c)
  {
    if g, v :| ClashesAt(s, d, c, g, v) {
      var h := ClashIsTaken(s, d, c, p, g, v);
      NamesDiffer(s, d, c, p);
    }
  }

  lemma NamesDiffer(s: Syntax, d: RoleTopology, c: Cluster, p: Progress)
    requires GroupsSeparate(d.groups) && Allocating(s, d, c, p)
    ensures forall g, h :: g in p.names && h in p.names && p.names[g] == p.names[h] ==> g == h
  {
    forall g, h | g in p.names && h in p.names && p.names[g] == p.names[h]
      ensures g == h
    {
      assert NamedRight(s, d, c, p, g) && NamedRight(s, d, c, p, h);
    }
  }

  /** Distinct names, one per group, that cover whatever is written on it. */
  ghost predicate Agrees(s: Syntax, d: RoleTopology, c: Cluster, names: map<DiscoveredGroup, string>) {
    && names.Keys == d.groups
    && (forall g {:trigger names[g]} :: g in names ==> Locked(s, c, g) <= {names[g]})
    && (forall g, h :: g in names && h in names && names[g] == names[h] ==> g == h)
  }

  /** Names that agree with readable groups show that the labels fit the groups. */
  lemma AgreementIsConsistent(s: Syntax, d: RoleTopology, c: Cluster, names: map<DiscoveredGroup, string>)
    requires ScanOk(s, d.role, c) && AllReadable(s, d, c, d.groups) && Agrees(s, d, c, names)
    ensures Consistent(s, d, c)
  {
    forall g | g in d.groups
      ensures Readable(s, d, c, g) && |Locked(s, c, g)| <= 1
    {
      assert Locked(s, c, g) <= {names[g]};
      SubsetSize(Locked(s, c, g), {names[g]});
    }
    forall g, h | g in d.groups && h in d.groups && g != h
      ensures Locked(s, c, g) !! Locked(s, c, h)
    {
      assert names[g] != names[h];
    }
  }
}
