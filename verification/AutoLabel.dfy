/** buildAutoLabelPlan: give every discovered group a domain name, keeping names that are
    already written on Nodes or Switches, and plan the missing labels. */
module AutoLabel {
  import opened Wrappers
  import opened Decimal
  import opened LabelSyntax
  import opened NormalizeGroups
  import opened Sets
  import Grouping

  /** A Switch object: its effective role and its domain label, "" when it has none. */
  datatype SwitchObject = SwitchObject(role: string, domain: string)

  datatype Cluster = Cluster(nodes: map<string, Labels>, switches: map<string, SwitchObject>)

  /** The labels to add: per Node by key, per Switch the domain. */
  datatype Plan = Plan(nodes: map<string, Labels>, switches: map<string, string>)

  /** What discovery hands to the label writer for one role. */
  datatype RoleTopology = RoleTopology(role: string, groups: set<DiscoveredGroup>, synthetic: set<string>,
    nodeOnly: bool)

  datatype PlanError =
    | BadNodeLabel(node: string, key: string)
    | BadSwitchLabel(switch: string)
    | UnexpectedTier(tier: int)
    | MissingNode(node: string)
    | MissingSwitch(switch: string)
    | MultipleLocked(group: string)
    | NameTaken(name: string)
    | Conflicting(object: string)

  /** The facts that discovery proves about its groups. */
  ghost predicate GroupsSeparate(groups: set<DiscoveredGroup>) {
    && (forall g :: g in groups ==> 1 <= g.tier <= MAX_INT)
    && (forall g, h :: g in groups && h in groups && g.internalName == h.internalName ==> g == h)
    && (forall g, h :: g in groups && h in groups && g != h ==> g.members !! h.members)
    && (forall g, h :: g in groups && h in groups && g != h && g.tier == h.tier ==> g.nodes !! h.nodes)
  }

  /** `g` is a group of tier `tier` with the Node `n`. */
  ghost predicate GroupAt(groups: set<DiscoveredGroup>, n: string, tier: int, g: DiscoveredGroup) {
    g in groups && g.tier == tier && n in g.nodes
  }

  ghost predicate HasGroupAt(groups: set<DiscoveredGroup>, n: string, tier: int) {
    exists g :: GroupAt(groups, n, tier, g)
  }

  /** `w` is a member of some group. */
  ghost predicate IsMember(groups: set<DiscoveredGroup>, w: string) {
    exists g :: g in groups && w in g.members
  }

  /** A member that is looked up as a Switch object is a Switch of this role. */
  ghost predicate MembersHaveRole(d: RoleTopology, c: Cluster) {
    forall g, m :: g in d.groups && m in g.members && m in c.switches ==> c.switches[m].role == d.role
  }

  // -------------------------------------------------------------- existing names

  /** The values of the Node labels that match the template. */
  ghost function NodeNames(s: Syntax, nodes: map<string, Labels>): set<string> {
    set n, k | n in nodes && k in nodes[n] && s.matchTier(k).Some? :: nodes[n][k]
  }

  /** The non-empty domains of the Switches of a role. */
  ghost function SwitchNames(role: string, switches: map<string, SwitchObject>): set<string> {
    set w | w in switches && switches[w].role == role && switches[w].domain != "" :: switches[w].domain
  }

  /** The names that the scans see. */
  ghost function InUse(s: Syntax, role: string, c: Cluster): set<string> {
    NodeNames(s, c.nodes) + SwitchNames(role, c.switches)
  }

  /** A matching Node label carries a name of the tier of its key. */
  ghost predicate NodeLabelOk(s: Syntax, key: string, value: string) {
    s.matchTier(key).Some? ==> s.parse(value).Some? && s.parse(value).value.tier == s.matchTier(key).value
  }

  ghost predicate NodeLabelsOk(s: Syntax, labels: Labels) {
    forall k {:trigger labels[k]} :: k in labels ==> NodeLabelOk(s, k, labels[k])
  }

  /** Both scans succeed. */
  ghost predicate ScanOk(s: Syntax, role: string, c: Cluster) {
    && (forall n {:trigger c.nodes[n]} :: n in c.nodes ==> NodeLabelsOk(s, c.nodes[n]))
    && (forall v {:trigger s.parse(v)} :: v in SwitchNames(role, c.switches) ==> s.parse(v).Some?)
  }

  function MaxOf(maxByTier: map<int, int>, tier: int): int {
    if tier in maxByTier then maxByTier[tier] else 0
  }

  /** The number of `value`, if it is a name, is at most the recorded maximum of its tier. */
  ghost predicate Covered(s: Syntax, maxByTier: map<int, int>, value: string) {
    s.parse(value).Some? ==> s.parse(value).value.group <= MaxOf(maxByTier, s.parse(value).value.tier)
  }

  ghost predicate NonNegative(maxByTier: map<int, int>) {
    forall t {:trigger MaxOf(maxByTier, t)} :: 0 <= MaxOf(maxByTier, t)
  }

  ghost predicate Grows(before: map<int, int>, after: map<int, int>) {
    forall t {:trigger MaxOf(after, t)} :: MaxOf(before, t) <= MaxOf(after, t)
  }

  function Record(maxByTier: map<int, int>, tier: int, group: int): map<int, int> {
    if group > MaxOf(maxByTier, tier) then maxByTier[tier := group] else maxByTier
  }

  lemma RecordCovers(s: Syntax, before: map<int, int>, value: string)
    requires NonNegative(before) && s.parse(value).Some?
    ensures var p := s.parse(value).value; var after := Record(before, p.tier, p.group);
      NonNegative(after) && Grows(before, after) && Covered(s, after, value)
  {
    var p := s.parse(value).value;
    MaxOfRecord(before, p.tier, p.group);
    var after := Record(before, p.tier, p.group);
    forall t
      ensures MaxOf(before, t) <= MaxOf(after, t) && 0 <= MaxOf(after, t)
    {
      assert 0 <= MaxOf(before, t);
    }
  }

  lemma MaxOfRecord(before: map<int, int>, tier: int, group: int)
    ensures forall t {:trigger MaxOf(Record(before, tier, group), t)} ::
      MaxOf(Record(before, tier, group), t) == if t == tier && group > MaxOf(before, t) then group else MaxOf(before, t)
  {
  }

  /** Some name in `used` has this number in this tier. */
  ghost predicate Attains(s: Syntax, used: set<string>, tier: int, number: int) {
    exists v :: v in used && NamesTier(s, v, tier) && s.parse(v).value.group == number
  }

  /** Every maximum is the number of a name in `used`. */
  ghost predicate Attained(s: Syntax, used: set<string>, maxByTier: map<int, int>) {
    forall t {:trigger MaxOf(maxByTier, t)} ::
      MaxOf(maxByTier, t) == 0 || Attains(s, used, t, MaxOf(maxByTier, t))
  }

  lemma RecordAttained(s: Syntax, used: set<string>, before: map<int, int>, value: string)
    requires Attained(s, used, before) && value in used && s.parse(value).Some?
    ensures var p := s.parse(value).value; Attained(s, used, Record(before, p.tier, p.group))
  {
    var p := s.parse(value).value;
    MaxOfRecord(before, p.tier, p.group);
    var after := Record(before, p.tier, p.group);
    forall t
      ensures MaxOf(after, t) == 0 || Attains(s, used, t, MaxOf(after, t))
    {
      assert MaxOf(before, t) == 0 || Attains(s, used, t, MaxOf(before, t));
      assert NamesTier(s, value, p.tier);
    }
  }

  /** The highest number of a tier in use, and 0 when there is none. */
  ghost predicate IsHighest(s: Syntax, used: set<string>, tier: int, h: int) {
    && 0 <= h && (h == 0 || Attains(s, used, tier, h))
    && (forall v {:trigger NamesTier(s, v, tier)} :: v in used && NamesTier(s, v, tier) ==> s.parse(v).value.group <= h)
  }

  ghost function Highest(s: Syntax, used: set<string>, tier: int): (h: int)
    ensures IsHighest(s, used, tier, h)
    decreases |used|
  {
    if used == {} then 0
    else
      var v :| v in used;
      var h := Highest(s, used - {v}, tier);
      HigherIsHighest(s, used, tier, v, h);
      if NamesTier(s, v, tier) && s.parse(v).value.group > h then s.parse(v).value.group else h
  }

  lemma HigherIsHighest(s: Syntax, used: set<string>, tier: int, v: string, h: int)
    requires v in used && IsHighest(s, used - {v}, tier, h)
    ensures IsHighest(s, used, tier, if NamesTier(s, v, tier) && s.parse(v).value.group > h then s.parse(v).value.group
      else h)
  {
    if Attains(s, used - {v}, tier, h) {
      var w :| w in used - {v} && NamesTier(s, w, tier) && s.parse(w).value.group == h;
      assert w in used;
    }
  }

  lemma HighestIsUnique(s: Syntax, used: set<string>, tier: int, a: int, b: int)
    requires IsHighest(s, used, tier, a) && IsHighest(s, used, tier, b)
    ensures a == b
  {
  }

  /** The maxima are exactly the highest numbers in use. */
  ghost predicate HoldsHighest(s: Syntax, used: set<string>, maxByTier: map<int, int>) {
    forall t {:trigger MaxOf(maxByTier, t)} :: MaxOf(maxByTier, t) == Highest(s, used, t)
  }

  lemma CoveredAndAttained(s: Syntax, used: set<string>, maxByTier: map<int, int>)
    requires Attained(s, used, maxByTier) && NonNegative(maxByTier)
      && forall v :: v in used ==> Covered(s, maxByTier, v)
    ensures HoldsHighest(s, used, maxByTier)
  {
    forall t
      ensures MaxOf(maxByTier, t) == Highest(s, used, t)
    {
      assert 0 <= MaxOf(maxByTier, t);
      HighestIsUnique(s, used, t, MaxOf(maxByTier, t), Highest(s, used, t));
    }
  }

  /** scanExistingAutoNames on one Node. */
  method ScanNode(s: Syntax, name: string, labels: Labels, before: map<int, int>,
                  ghost used: set<string>)
    returns (r: Result<map<int, int>, PlanError>)
    requires NonNegative(before) && Attained(s, used, before)
    requires forall k :: k in labels && s.matchTier(k).Some? ==> labels[k] in used
    ensures r.Ok? <==> NodeLabelsOk(s, labels)
    ensures r.Ok? ==> NonNegative(r.value) && Grows(before, r.value) && Attained(s, used, r.value)
    ensures r.Ok? ==> forall k :: k in labels && s.matchTier(k).Some? ==> Covered(s, r.value, labels[k])
  {
    var maxByTier := before;
    var todo := labels.Keys;
    while todo != {}
      invariant todo <= labels.Keys
      invariant NonNegative(maxByTier) && Grows(before, maxByTier) && Attained(s, used, maxByTier)
      invariant forall k :: k in labels && k !in todo ==> NodeLabelOk(s, k, labels[k])
      invariant forall k :: k in labels && k !in todo && s.matchTier(k).Some? ==> Covered(s, maxByTier, labels[k])
      decreases todo
    {
      var k :| k in todo;
      todo := todo - {k};
      if s.matchTier(k).Some? {
        if s.parse(labels[k]).None? || s.parse(labels[k]).value.tier != s.matchTier(k).value {
          assert !NodeLabelOk(s, k, labels[k]);
          return Err(BadNodeLabel(name, k));
        }
        RecordCovers(s, maxByTier, labels[k]);
        RecordAttained(s, used, maxByTier, labels[k]);
        maxByTier := Record(maxByTier, s.matchTier(k).value, s.parse(labels[k]).value.group);
      }
    }
    r := Ok(maxByTier);
  }

  /** The two scanning loops at the head of buildAutoLabelPlan. */
  method Scan(s: Syntax, role: string, c: Cluster) returns (r: Result<map<int, int>, PlanError>)
    ensures r.Ok? <==> ScanOk(s, role, c)
    ensures r.Ok? ==> NonNegative(r.value) && HoldsHighest(s, InUse(s, role, c), r.value)
  {
    var maxByTier: map<int, int> := map[];
    var nodes := c.nodes.Keys;
    ghost var used := InUse(s, role, c);
    while nodes != {}
      invariant nodes <= c.nodes.Keys && NonNegative(maxByTier) && Attained(s, used, maxByTier)
      invariant forall n :: n in c.nodes && n !in nodes ==> NodeLabelsOk(s, c.nodes[n])
      invariant forall n, k :: n in c.nodes && n !in nodes && k in c.nodes[n] && s.matchTier(k).Some? ==>
        Covered(s, maxByTier, c.nodes[n][k])
      decreases nodes
    {
      var n :| n in nodes;
      nodes := nodes - {n};
      assert forall k :: k in c.nodes[n] && s.matchTier(k).Some? ==> c.nodes[n][k] in InUse(s, role, c);
      var scanned := ScanNode(s, n, c.nodes[n], maxByTier, used);
      match scanned
      case Err(e) =>
        return Err(e);
      case Ok(next) =>
        maxByTier := next;
    }
    var switches := c.switches.Keys;
    while switches != {}
      invariant switches <= c.switches.Keys && NonNegative(maxByTier) && Attained(s, used, maxByTier)
      invariant forall v :: v in NodeNames(s, c.nodes) ==> Covered(s, maxByTier, v)
      invariant forall w ::
        w in c.switches && w !in switches && c.switches[w].role == role && c.switches[w].domain != "" ==>
        s.parse(c.switches[w].domain).Some? && Covered(s, maxByTier, c.switches[w].domain)
      decreases switches
    {
      var w :| w in switches;
      switches := switches - {w};
      var domain := c.switches[w].domain;
      if c.switches[w].role == role && domain != "" {
        assert domain in SwitchNames(role, c.switches);
        if s.parse(domain).None? {
          return Err(BadSwitchLabel(w));
        }
        RecordCovers(s, maxByTier, domain);
        RecordAttained(s, used, maxByTier, domain);
        maxByTier := Record(maxByTier, s.parse(domain).value.tier, s.parse(domain).value.group);
      }
    }
    CoveredAndAttained(s, used, maxByTier);
    r := Ok(maxByTier);
  }

  // ----------------------------------------------------------- names already locked

  /** The names written on the Nodes of the group, under the key of its tier. */
  ghost function LockedOnNodes(s: Syntax, c: Cluster, g: DiscoveredGroup): set<string> {
    set n | n in g.nodes && n in c.nodes && s.render(g.tier) in c.nodes[n] :: c.nodes[n][s.render(g.tier)]
  }

  /** The names written on the Switches of the group. */
  ghost function LockedOnSwitches(c: Cluster, g: DiscoveredGroup): set<string> {
    set m | m in g.members && m in c.switches && c.switches[m].domain != "" :: c.switches[m].domain
  }

  ghost function Locked(s: Syntax, c: Cluster, g: DiscoveredGroup): set<string> {
    LockedOnNodes(s, c, g) + LockedOnSwitches(c, g)
  }

  ghost predicate NamesTier(s: Syntax, value: string, tier: int) {
    s.parse(value).Some? && s.parse(value).value.tier == tier
  }

  /** Everything the group refers to exists, and the names on it are names of its tier. */
  ghost predicate GroupReadable(s: Syntax, d: RoleTopology, c: Cluster, g: DiscoveredGroup) {
    && g.nodes <= c.nodes.Keys
    && (forall m :: m in g.members ==> m in c.switches || m in d.synthetic)
    && (forall v :: v in Locked(s, c, g) ==> NamesTier(s, v, g.tier))
  }

  /** The first half of the group loop: collect the locked names. */
  method CollectLocked(s: Syntax, d: RoleTopology, c: Cluster, g: DiscoveredGroup)
    returns (r: Result<set<string>, PlanError>)
    ensures r.Ok? <==> GroupReadable(s, d, c, g)
    ensures r.Ok? ==> r.value == Locked(s, c, g)
  {
    var locked: set<string> := {};
    var nodes := g.nodes;
    while nodes != {}
      invariant nodes <= g.nodes && g.nodes - nodes <= c.nodes.Keys
      invariant locked == LockedOnNodes(s, c, g.(nodes := g.nodes - nodes))
      invariant forall v :: v in locked ==> NamesTier(s, v, g.tier)
      decreases nodes
    {
      var n :| n in nodes;
      if n !in c.nodes {
        return Err(MissingNode(n));
      }
      if s.render(g.tier) in c.nodes[n] {
        var value := c.nodes[n][s.render(g.tier)];
        assert value in Locked(s, c, g);
        if s.parse(value).None? || s.parse(value).value.tier != g.tier {
          return Err(BadNodeLabel(n, s.render(g.tier)));
        }
        locked := locked + {value};
      }
      nodes := nodes - {n};
    }
    assert g.(nodes := g.nodes - nodes) == g;
    var members := g.members;
    while members != {}
      invariant members <= g.members
      invariant forall m :: m in g.members && m !in members ==> m in c.switches || m in d.synthetic
      invariant locked == LockedOnNodes(s, c, g) + LockedOnSwitches(c, g.(members := g.members - members))
      invariant forall v :: v in locked ==> NamesTier(s, v, g.tier)
      decreases members
    {
      var m :| m in members;
      if m !in c.switches {
        if m !in d.synthetic {
          return Err(MissingSwitch(m));
        }
      } else if c.switches[m].domain != "" {
        var value := c.switches[m].domain;
        assert value in Locked(s, c, g);
        if s.parse(value).None? || s.parse(value).value.tier != g.tier {
          return Err(BadSwitchLabel(m));
        }
        locked := locked + {value};
      }
      members := members - {m};
    }
    assert g.(members := g.members - members) == g;
    r := Ok(locked);
  }

  // ------------------------------------------------------------- choosing the names

  /** The labels in the cluster fit the discovered groups. This is exactly when planning succeeds. */
  ghost predicate Consistent(s: Syntax, d: RoleTopology, c: Cluster) {
    && ScanOk(s, d.role, c)
    && (forall g :: g in d.groups ==>
          (d.nodeOnly ==> g.tier == 1) && GroupReadable(s, d, c, g) && |Locked(s, c, g)| <= 1)
    && (forall g, h {:trigger Locked(s, c, g), Locked(s, c, h)} ::
          g in d.groups && h in d.groups && g != h ==> Locked(s, c, g) !! Locked(s, c, h))
  }

  /** A sound name for a group: of its tier, equal to what is already written on it, and
      otherwise not in use anywhere. */
  ghost predicate NameFits(s: Syntax, d: RoleTopology, c: Cluster, g: DiscoveredGroup, name: string) {
    && NamesTier(s, name, g.tier) && Locked(s, c, g) <= {name}
    && (Locked(s, c, g) == {} ==> name !in InUse(s, d.role, c))
  }

  /** A sound choice of names for all the groups, no two alike. */
  ghost predicate SoundNames(s: Syntax, d: RoleTopology, c: Cluster, names: map<DiscoveredGroup, string>) {
    && names.Keys == d.groups
    && (forall g {:trigger names[g]} :: g in names ==> NameFits(s, d, c, g, names[g]))
    && (forall g, h :: g in names && h in names && names[g] == names[h] ==> g == h)
  }

  datatype Progress = Progress(maxByTier: map<int, int>, names: map<DiscoveredGroup, string>,
    owners: map<string, (int, string)>)

  function Owner(g: DiscoveredGroup): (int, string) {
    (g.tier, g.internalName)
  }

  /** `name` belongs to a group that has been named. */
  ghost predicate Owned(names: map<DiscoveredGroup, string>, name: string) {
    exists g :: g in names && names[g] == name
  }

  /** The groups of a tier on which nothing is written: they get fresh numbers. */
  ghost function FreshGroups(s: Syntax, c: Cluster, groups: set<DiscoveredGroup>, tier: int): set<DiscoveredGroup> {
    set g | g in groups && g.tier == tier && Locked(s, c, g) == {}
  }

  /** The highest number of a tier that the scans see. */
  ghost function Top(s: Syntax, d: RoleTopology, c: Cluster, tier: int): int {
    Highest(s, InUse(s, d.role, c), tier)
  }

  /** `v` is written on the group, the scans do not see it, and its number is one that a group
      without a name will get. Only a member that is a Switch of another role can carry it. */
  ghost predicate ClashesAt(s: Syntax, d: RoleTopology, c: Cluster, g: DiscoveredGroup, v: string) {
    && g in d.groups && v in Locked(s, c, g) && NamesTier(s, v, g.tier)
    && Top(s, d, c, g.tier) < s.parse(v).value.group <= Top(s, d, c, g.tier) + |FreshGroups(s, c, d.groups, g.tier)|
  }

  ghost predicate FreshNamesClash(s: Syntax, d: RoleTopology, c: Cluster) {
    exists g, v :: ClashesAt(s, d, c, g, v)
  }

  /** A plan can be built. */
  ghost predicate Plannable(s: Syntax, d: RoleTopology, c: Cluster) {
    Consistent(s, d, c) && !FreshNamesClash(s, d, c)
  }

  /** The next numbers fit 64 bits. */
  ghost predicate NextFit(s: Syntax, d: RoleTopology, c: Cluster) {
    forall tier {:trigger Top(s, d, c, tier)} ::
      Top(s, d, c, tier) + |FreshGroups(s, c, d.groups, tier)| <= MAX_INT
  }

  /** What the group loop keeps true. */
  ghost predicate Allocating(s: Syntax, d: RoleTopology, c: Cluster, p: Progress) {
    && p.names.Keys <= d.groups
    && NonNegative(p.maxByTier)
    && Advanced(s, d, c, p) && AllNamedRight(s, d, c, p) && AllOwned(p) && AllTaken(s, d, c, p)
  }

  /** Each maximum has advanced by one per fresh name of its tier. */
  ghost predicate Advanced(s: Syntax, d: RoleTopology, c: Cluster, p: Progress) {
    forall t {:trigger MaxOf(p.maxByTier, t)} ::
      MaxOf(p.maxByTier, t) == Top(s, d, c, t) + |FreshGroups(s, c, p.names.Keys, t)|
  }

  ghost predicate AllNamedRight(s: Syntax, d: RoleTopology, c: Cluster, p: Progress) {
    forall g {:trigger p.names[g]} :: g in p.names ==> NamedRight(s, d, c, p, g)
  }

  ghost predicate AllOwned(p: Progress) {
    forall n {:trigger Owned(p.names, n)} :: n in p.owners ==> Owned(p.names, n)
  }

  ghost predicate NamedRight(s: Syntax, d: RoleTopology, c: Cluster, p: Progress, g: DiscoveredGroup)
    requires g in p.names
  {
    && NameFits(s, d, c, g, p.names[g])
    && p.names[g] in p.owners && p.owners[p.names[g]] == Owner(g)
    && (Locked(s, c, g) == {} ==> Top(s, d, c, g.tier) < s.parse(p.names[g]).value.group <= MaxOf(p.maxByTier, g.tier))
  }

  /** A group without a name got this number. */
  ghost predicate Taken(s: Syntax, c: Cluster, names: map<DiscoveredGroup, string>, tier: int, number: int) {
    exists g :: g in names && Locked(s, c, g) == {} && names[g] == s.name(tier, number)
  }

  ghost predicate AllTaken(s: Syntax, d: RoleTopology, c: Cluster, p: Progress) {
    forall t, k {:trigger Taken(s, c, p.names, t, k)} ::
      Top(s, d, c, t) < k <= MaxOf(p.maxByTier, t) ==> Taken(s, c, p.names, t, k)
  }

  // ------------------------------------------------------------------- naming one group

  ghost predicate KeepsNames(before: map<DiscoveredGroup, string>, after: map<DiscoveredGroup, string>) {
    forall g {:trigger after[g]} :: g in before ==> g in after && after[g] == before[g]
  }

  lemma OneMoreName(names: map<DiscoveredGroup, string>, g: DiscoveredGroup, name: string)
    requires g !in names
    ensures |names[g := name]| == |names| + 1 && names[g := name].Keys == names.Keys + {g}
      && KeepsNames(names, names[g := name])
  {
    assert names[g := name].Keys == names.Keys + {g};
  }

  lemma TakenMore(s: Syntax, c: Cluster, names: map<DiscoveredGroup, string>, g: DiscoveredGroup, name: string,
                  tier: int, number: int)
    requires Taken(s, c, names, tier, number) && g !in names
    ensures Taken(s, c, names[g := name], tier, number)
  {
    var h :| h in names && Locked(s, c, h) == {} && names[h] == s.name(tier, number);
    assert names[g := name][h] == names[h];
  }

  lemma FreshGroupsGrow(s: Syntax, c: Cluster, groups: set<DiscoveredGroup>, g: DiscoveredGroup, tier: int)
    requires g !in groups
    ensures |FreshGroups(s, c, groups + {g}, tier)| ==
      |FreshGroups(s, c, groups, tier)| + if g.tier == tier && Locked(s, c, g) == {} then 1 else 0
  {
    var before, after := FreshGroups(s, c, groups, tier), FreshGroups(s, c, groups + {g}, tier);
    if g.tier == tier && Locked(s, c, g) == {} {
      assert after == before + {g};
    } else {
      assert after == before;
    }
  }

  /** The name is the one written on the group, or its tier's next number. */
  ghost predicate Chosen(s: Syntax, c: Cluster, p: Progress, g: DiscoveredGroup, name: string,
                         maxByTier: map<int, int>) {
    if Locked(s, c, g) == {} then
      && name == s.name(g.tier, MaxOf(p.maxByTier, g.tier) + 1)
      && maxByTier == p.maxByTier[g.tier := MaxOf(p.maxByTier, g.tier) + 1]
    else
      Locked(s, c, g) == {name} && NamesTier(s, name, g.tier) && maxByTier == p.maxByTier
  }

  /** `q` is `p` with one more group named. */
  ghost predicate Extends(s: Syntax, c: Cluster, p: Progress, g: DiscoveredGroup, name: string, q: Progress) {
    && g !in p.names && name !in p.owners && Chosen(s, c, p, g, name, q.maxByTier)
    && q.names == p.names[g := name] && q.owners == p.owners[name := Owner(g)]
  }

  lemma OwnedMore(s: Syntax, c: Cluster, p: Progress, g: DiscoveredGroup, name: string, q: Progress)
    requires AllOwned(p) && Extends(s, c, p, g, name, q)
    ensures AllOwned(q)
  {
    assert q.names[g] == name;
    forall n | n in p.owners
      ensures Owned(q.names, n)
    {
      assert Owned(p.names, n);
      var h :| h in p.names && p.names[h] == n;
      assert q.names[h] == n;
    }
  }

  /** The maxima advance with the fresh names. */
  lemma AdvanceOne(s: Syntax, d: RoleTopology, c: Cluster, p: Progress, g: DiscoveredGroup, name: string,
                   q: Progress)
    requires Advanced(s, d, c, p) && NonNegative(p.maxByTier) && Extends(s, c, p, g, name, q)
    ensures Advanced(s, d, c, q) && NonNegative(q.maxByTier) && Grows(p.maxByTier, q.maxByTier)
  {
    OneMoreName(p.names, g, name);
    forall t
      ensures MaxOf(q.maxByTier, t) == Top(s, d, c, t) + |FreshGroups(s, c, q.names.Keys, t)|
      ensures MaxOf(p.maxByTier, t) <= MaxOf(q.maxByTier, t) && 0 <= MaxOf(q.maxByTier, t)
    {
      assert 0 <= MaxOf(p.maxByTier, t);
      FreshGroupsGrow(s, c, p.names.Keys, g, t);
    }
  }

  lemma TakeOne(s: Syntax, d: RoleTopology, c: Cluster, p: Progress, g: DiscoveredGroup, name: string, q: Progress)
    requires AllTaken(s, d, c, p) && Extends(s, c, p, g, name, q)
    ensures AllTaken(s, d, c, q)
  {
    forall t, k | Top(s, d, c, t) < k <= MaxOf(q.maxByTier, t)
      ensures Taken(s, c, q.names, t, k)
    {
      if k <= MaxOf(p.maxByTier, t) {
        assert Taken(s, c, p.names, t, k);
        TakenMore(s, c, p.names, g, name, t, k);
      } else {
        assert q.names[g] == s.name(t, k);
      }
    }
  }

  /** The next number of a tier gives a name that the scans have not seen. */
  lemma FreshName(s: Syntax, d: RoleTopology, c: Cluster, p: Progress, g: DiscoveredGroup)
    requires Lawful(s) && GroupsSeparate(d.groups) && NextFit(s, d, c) && Allocating(s, d, c, p)
    requires g in d.groups && g !in p.names && Locked(s, c, g) == {}
    ensures var k := MaxOf(p.maxByTier, g.tier) + 1; var v := s.name(g.tier, k);
      && NamesTier(s, v, g.tier) && s.parse(v).value.group == k && v !in InUse(s, d.role, c)
      && Top(s, d, c, g.tier) < k <= Top(s, d, c, g.tier) + |FreshGroups(s, c, p.names.Keys, g.tier)| + 1
  {
    var k := MaxOf(p.maxByTier, g.tier) + 1;
    FreshGroupsBelow(s, c, p.names.Keys, d.groups, g, g.tier);
    assert MaxOf(p.maxByTier, g.tier) == Top(s, d, c, g.tier) + |FreshGroups(s, c, p.names.Keys, g.tier)|;
    NextName(s, d, c, g.tier, k);
  }

  lemma NextName(s: Syntax, d: RoleTopology, c: Cluster, tier: int, k: int)
    requires Lawful(s) && 1 <= tier <= MAX_INT && Top(s, d, c, tier) < k <= MAX_INT
    ensures NamesTier(s, s.name(tier, k), tier) && s.parse(s.name(tier, k)).value.group == k
    ensures s.name(tier, k) !in InUse(s, d.role, c)
  {
    assert IsHighest(s, InUse(s, d.role, c), tier, Top(s, d, c, tier));
    assert s.parse(s.name(tier, k)).Some?;
    assert NamesTier(s, s.name(tier, k), tier);
  }

  lemma ChosenFits(s: Syntax, d: RoleTopology, c: Cluster, p: Progress, g: DiscoveredGroup, name: string,
                   maxByTier: map<int, int>)
    requires Lawful(s) && GroupsSeparate(d.groups) && NextFit(s, d, c) && Allocating(s, d, c, p)
    requires g in d.groups && g !in p.names && Chosen(s, c, p, g, name, maxByTier)
    ensures NameFits(s, d, c, g, name)
    ensures Locked(s, c, g) == {} ==> Top(s, d, c, g.tier) < s.parse(name).value.group <= MaxOf(maxByTier, g.tier)
  {
    if Locked(s, c, g) == {} {
      FreshName(s, d, c, p, g);
    }
  }

  lemma NewNameIsRight(s: Syntax, d: RoleTopology, c: Cluster, p: Progress, g: DiscoveredGroup, name: string,
                       q: Progress)
    requires Extends(s, c, p, g, name, q) && NameFits(s, d, c, g, name)
    requires Locked(s, c, g) == {} ==> Top(s, d, c, g.tier) < s.parse(name).value.group <= MaxOf(q.maxByTier, g.tier)
    ensures NamedRight(s, d, c, q, g)
  {
    assert q.names[g] == name && q.owners[name] == Owner(g);
  }

  lemma NamedRightMore(s: Syntax, d: RoleTopology, c: Cluster, p: Progress, g: DiscoveredGroup, name: string,
                       q: Progress)
    requires AllNamedRight(s, d, c, p) && Extends(s, c, p, g, name, q) && Grows(p.maxByTier, q.maxByTier)
    requires NamedRight(s, d, c, q, g)
    ensures AllNamedRight(s, d, c, q)
  {
    forall h | h in q.names
      ensures NamedRight(s, d, c, q, h)
    {
      if h != g {
        assert NamedRight(s, d, c, p, h) && p.names[h] == q.names[h];
        assert MaxOf(p.maxByTier, h.tier) <= MaxOf(q.maxByTier, h.tier);
      }
    }
  }

  // ----------------------------------------------------------------- names that are taken

  lemma FreshGroupsBelow(s: Syntax, c: Cluster, some: set<DiscoveredGroup>, all: set<DiscoveredGroup>,
                         g: DiscoveredGroup, tier: int)
    requires some <= all && g in all && g !in some
    ensures |FreshGroups(s, c, some, tier)| + (if g.tier == tier && Locked(s, c, g) == {} then 1 else 0) <=
      |FreshGroups(s, c, all, tier)|
  {
    FreshGroupsGrow(s, c, some, g, tier);
    SubsetSize(FreshGroups(s, c, some + {g}, tier), FreshGroups(s, c, all, tier));
  }

  lemma SharedNameIsInconsistent(s: Syntax, d: RoleTopology, c: Cluster, g: DiscoveredGroup, h: DiscoveredGroup,
                                 name: string)
    requires g in d.groups && h in d.groups && g != h && name in Locked(s, c, g) && name in Locked(s, c, h)
    ensures !Consistent(s, d, c)
  {
  }

  /** A written name that a group with a fresh number has. */
  lemma NumberRanInto(s: Syntax, d: RoleTopology, c: Cluster, p: Progress, g: DiscoveredGroup, h: DiscoveredGroup,
                      name: string)
    requires p.names.Keys <= d.groups && Advanced(s, d, c, p) && g in d.groups && g !in p.names
    requires h in p.names && NamedRight(s, d, c, p, h) && p.names[h] == name && Locked(s, c, h) == {}
    requires name in Locked(s, c, g) && NamesTier(s, name, g.tier)
    ensures ClashesAt(s, d, c, g, name)
  {
    FreshGroupsBelow(s, c, p.names.Keys, d.groups, g, g.tier);
    assert MaxOf(p.maxByTier, g.tier) == Top(s, d, c, g.tier) + |FreshGroups(s, c, p.names.Keys, g.tier)|;
  }

  /** A written name that another group has: two groups carry it, or a fresh number ran into it. */
  lemma LockedNameTaken(s: Syntax, d: RoleTopology, c: Cluster, p: Progress, g: DiscoveredGroup,
                        name: string)
    requires Lawful(s) && Allocating(s, d, c, p) && g in d.groups && g !in p.names && name in p.owners
    requires Locked(s, c, g) == {name} && NamesTier(s, name, g.tier)
    ensures !Consistent(s, d, c) || FreshNamesClash(s, d, c)
  {
    assert Owned(p.names, name);
    var h :| h in p.names && p.names[h] == name;
    assert NamedRight(s, d, c, p, h);
    if Locked(s, c, h) == {} {
      NumberRanInto(s, d, c, p, g, h, name);
    } else {
      assert name in Locked(s, c, h);
      SharedNameIsInconsistent(s, d, c, g, h, name);
    }
  }

  /** A fresh name that another group has: that group carries it. */
  lemma FreshNameTaken(s: Syntax, d: RoleTopology, c: Cluster, p: Progress, g: DiscoveredGroup,
                       name: string)
    requires Lawful(s) && GroupsSeparate(d.groups) && NextFit(s, d, c) && Allocating(s, d, c, p) && g in d.groups
    requires g !in p.names && name in p.owners && Locked(s, c, g) == {}
    requires name == s.name(g.tier, MaxOf(p.maxByTier, g.tier) + 1)
    ensures FreshNamesClash(s, d, c)
  {
    FreshName(s, d, c, p, g);
    assert Owned(p.names, name);
    var h :| h in p.names && p.names[h] == name;
    assert NamedRight(s, d, c, p, h);
    FreshGroupsBelow(s, c, p.names.Keys, d.groups, g, g.tier);
    assert Locked(s, c, h) != {};
    var v :| v in Locked(s, c, h);
    assert ClashesAt(s, d, c, h, name);
  }

  lemma OwnersAreGroups(s: Syntax, d: RoleTopology, c: Cluster, p: Progress, g: DiscoveredGroup,
                        name: string)
    requires GroupsSeparate(d.groups) && Allocating(s, d, c, p) && g in d.groups
    ensures name in p.owners && p.owners[name] == Owner(g) ==> g in p.names
  {
    if name in p.owners && p.owners[name] == Owner(g) {
      assert Owned(p.names, name);
      var h :| h in p.names && p.names[h] == name;
      assert NamedRight(s, d, c, p, h);
      assert h.internalName == g.internalName;
    }
  }

  lemma NameIsTaken(s: Syntax, d: RoleTopology, c: Cluster, p: Progress, g: DiscoveredGroup, name: string,
                    maxByTier: map<int, int>)
    requires Lawful(s) && GroupsSeparate(d.groups) && Allocating(s, d, c, p) && g in d.groups && g !in p.names
    requires NextFit(s, d, c) && Chosen(s, c, p, g, name, maxByTier) && name in p.owners
    ensures !Consistent(s, d, c) || FreshNamesClash(s, d, c)
  {
    if Locked(s, c, g) == {} {
      FreshNameTaken(s, d, c, p, g, name);
    } else {
      LockedNameTaken(s, d, c, p, g, name);
    }
  }

  lemma NameSettles(s: Syntax, d: RoleTopology, c: Cluster, p: Progress, g: DiscoveredGroup, name: string,
                    q: Progress)
    requires Lawful(s) && GroupsSeparate(d.groups) && Allocating(s, d, c, p) && g in d.groups
    requires NextFit(s, d, c) && Extends(s, c, p, g, name, q)
    ensures Allocating(s, d, c, q) && q.names.Keys == p.names.Keys + {g} && KeepsNames(p.names, q.names)
  {
    OneMoreName(p.names, g, name);
    AdvanceOne(s, d, c, p, g, name, q);
    TakeOne(s, d, c, p, g, name, q);
    OwnedMore(s, c, p, g, name, q);
    ChosenFits(s, d, c, p, g, name, q.maxByTier);
    NewNameIsRight(s, d, c, p, g, name, q);
    NamedRightMore(s, d, c, p, g, name, q);
  }

  /** The one name written on the group, else the next number of its tier. */
  method ChooseName(s: Syntax, c: Cluster, p: Progress, g: DiscoveredGroup, locked: set<string>)
    returns (maxByTier: map<int, int>, name: string)
    requires locked == Locked(s, c, g) && |locked| <= 1 && forall v :: v in locked ==> NamesTier(s, v, g.tier)
    ensures Chosen(s, c, p, g, name, maxByTier)
  {
    if |locked| == 1 {
      name := Grouping.Only(locked);
      maxByTier := p.maxByTier;
    } else {
      maxByTier := p.maxByTier[g.tier := MaxOf(p.maxByTier, g.tier) + 1];
      name := s.name(g.tier, MaxOf(maxByTier, g.tier));
    }
  }

  /** The middle of the group loop: settle the name of one group. */
  method AssignName(s: Syntax, d: RoleTopology, c: Cluster, g: DiscoveredGroup, p: Progress)
    returns (r: Result<Progress, PlanError>)
    requires Lawful(s) && GroupsSeparate(d.groups) && NextFit(s, d, c)
    requires Allocating(s, d, c, p) && g in d.groups && g !in p.names
    ensures r.Ok? ==> Allocating(s, d, c, r.value) && r.value.names.Keys == p.names.Keys + {g}
    ensures r.Ok? ==> KeepsNames(p.names, r.value.names) && GroupReadable(s, d, c, g) && (d.nodeOnly ==> g.tier == 1)
    ensures r.Err? ==> !Consistent(s, d, c) || FreshNamesClash(s, d, c)
  {
    if d.nodeOnly && g.tier != 1 {
      return Err(UnexpectedTier(g.tier));
    }
    var collected := CollectLocked(s, d, c, g);
    match collected
    case Err(e) =>
      return Err(e);
    case Ok(locked) =>
      if |locked| > 1 {
        return Err(MultipleLocked(g.internalName));
      }
      var maxByTier, name := ChooseName(s, c, p, g, locked);
      if name in p.owners && p.owners[name] != Owner(g) {
        NameIsTaken(s, d, c, p, g, name, maxByTier);
        return Err(NameTaken(name));
      }
      OwnersAreGroups(s, d, c, p, g, name);
      var next := Progress(maxByTier, p.names[g := name], p.owners[name := Owner(g)]);
      NameSettles(s, d, c, p, g, name, next);
      r := Ok(next);
  }

  /** Without Switches of other roles among the members, fresh numbers run into nothing. */
  lemma OwnRoleNeverClashes(s: Syntax, d: RoleTopology, c: Cluster)
    requires Lawful(s) && GroupsSeparate(d.groups) && MembersHaveRole(d, c)
    ensures !FreshNamesClash(s, d, c)
  {
    forall g, v
      ensures !ClashesAt(s, d, c, g, v)
    {
      if g in d.groups && v in Locked(s, c, g) {
        assert s.matchTier(s.render(g.tier)).Some?;
        assert v in InUse(s, d.role, c);
        assert IsHighest(s, InUse(s, d.role, c), g.tier, Top(s, d, c, g.tier));
      }
    }
  }

  /** A family of clashes: the next number of a tier is written on a Switch of another role that
      is a member of one group, and another group of the tier has no name yet. */
  lemma OtherRoleNameClashes(s: Syntax, d: RoleTopology, c: Cluster, g: DiscoveredGroup, h: DiscoveredGroup, m: string)
    requires Lawful(s) && g in d.groups && h in d.groups && g.tier == h.tier && 1 <= g.tier <= MAX_INT
    requires m in g.members && m in c.switches && c.switches[m].role != d.role && Locked(s, c, h) == {}
    requires Top(s, d, c, g.tier) < MAX_INT && c.switches[m].domain == s.name(g.tier, Top(s, d, c, g.tier) + 1)
    ensures FreshNamesClash(s, d, c)
  {
    var v := c.switches[m].domain;
    assert s.parse(v).Some? && v in LockedOnSwitches(c, g);
    assert h in FreshGroups(s, c, d.groups, g.tier);
    assert ClashesAt(s, d, c, g, v);
  }
}
