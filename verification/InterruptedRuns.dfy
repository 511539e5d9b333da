/** Runs of interrupted reconciles: they never get stuck if and only if the hidden numbers keep
    their distance. A run gets stuck where the labels fit the groups and yet no plan exists. */
module InterruptedRuns {
  import opened Wrappers
  import opened Decimal
  import opened LabelSyntax
  import opened NormalizeGroups
  import opened AutoLabel
  import opened AutoLabelPlan
  import opened CrashSafety
  import opened FreshNumbers
  import opened Sets

  // --------------------------------------------------------------- a plan always exists

  /** The groups in some order, counted from 1. */
  ghost function Ranks(groups: set<DiscoveredGroup>): (ranks: map<DiscoveredGroup, int>)
    ensures ranks.Keys == groups
    ensures forall g :: g in groups ==> 1 <= ranks[g] <= |groups|
    ensures forall g, h :: g in groups && h in groups && ranks[g] == ranks[h] ==> g == h
    decreases |groups|
  {
    if groups == {} then map[]
    else
      var g :| g in groups;
      Ranks(groups - {g})[g := |groups|]
  }

  /** The number that the group gets if it has no name yet. */
  ghost function NumberFor(s: Syntax, d: RoleTopology, c: Cluster, g: DiscoveredGroup): (k: int)
    requires g in d.groups && Locked(s, c, g) == {}
    ensures Top(s, d, c, g.tier) < k <= Top(s, d, c, g.tier) + Unnamed(s, d, c, g.tier)
  {
    Top(s, d, c, g.tier) + Ranks(FreshGroups(s, c, d.groups, g.tier))[g]
  }

  /** The name that is written on the group, else one of the next numbers. */
  ghost function NameFor(s: Syntax, d: RoleTopology, c: Cluster, g: DiscoveredGroup): string
    requires g in d.groups
  {
    if Locked(s, c, g) == {} then s.name(g.tier, NumberFor(s, d, c, g))
    else
      var v :| v in Locked(s, c, g);
      v
  }

  ghost function NamesFor(s: Syntax, d: RoleTopology, c: Cluster): GroupNames {
    map g | g in d.groups :: NameFor(s, d, c, g)
  }

  lemma FreshNameFor(s: Syntax, d: RoleTopology, c: Cluster, g: DiscoveredGroup)
    requires Lawful(s) && GroupsSeparate(d.groups) && NextFit(s, d, c) && g in d.groups && Locked(s, c, g) == {}
    ensures NamesTier(s, NameFor(s, d, c, g), g.tier)
    ensures s.parse(NameFor(s, d, c, g)).value.group == NumberFor(s, d, c, g)
    ensures NameFor(s, d, c, g) !in InUse(s, d.role, c)
  {
    assert Top(s, d, c, g.tier) + Unnamed(s, d, c, g.tier) <= MAX_INT;
    NextName(s, d, c, g.tier, NumberFor(s, d, c, g));
  }

  lemma WrittenNameFor(s: Syntax, d: RoleTopology, c: Cluster, g: DiscoveredGroup)
    requires Consistent(s, d, c) && g in d.groups && Locked(s, c, g) != {}
    ensures Locked(s, c, g) == {NameFor(s, d, c, g)} && NamesTier(s, NameFor(s, d, c, g), g.tier)
  {
    assert GroupReadable(s, d, c, g) && |Locked(s, c, g)| <= 1;
    var v := NameFor(s, d, c, g);
    SubsetSize({v}, Locked(s, c, g));
    SizeWithout(Locked(s, c, g), v);
    assert Locked(s, c, g) - {v} == {};
  }

  lemma FreshNumbersForDiffer(s: Syntax, d: RoleTopology, c: Cluster, g: DiscoveredGroup, h: DiscoveredGroup)
    requires g in d.groups && h in d.groups && Locked(s, c, g) == {} && Locked(s, c, h) == {} && g.tier == h.tier
    requires NumberFor(s, d, c, g) == NumberFor(s, d, c, h)
    ensures g == h
  {
    var groups := FreshGroups(s, c, d.groups, g.tier);
    assert g in groups && h in groups && Ranks(groups)[g] == Ranks(groups)[h];
  }

  lemma FreshIsNotWritten(s: Syntax, d: RoleTopology, c: Cluster, g: DiscoveredGroup, h: DiscoveredGroup, v: string)
    requires !FreshNamesClash(s, d, c) && g in d.groups && h in d.groups && Locked(s, c, g) == {}
    requires g.tier == h.tier && v in Locked(s, c, h) && NamesTier(s, v, h.tier)
    ensures s.parse(v).value.group != NumberFor(s, d, c, g)
  {
    assert !ClashesAt(s, d, c, h, v);
  }

  lemma NamesForDiffer(s: Syntax, d: RoleTopology, c: Cluster, g: DiscoveredGroup, h: DiscoveredGroup)
    requires Lawful(s) && GroupsSeparate(d.groups) && NextFit(s, d, c) && Consistent(s, d, c)
    requires !FreshNamesClash(s, d, c) && g in d.groups && h in d.groups && NameFor(s, d, c, g) == NameFor(s, d, c, h)
    requires Locked(s, c, g) == {}
    ensures g == h
  {
    FreshNameFor(s, d, c, g);
    if Locked(s, c, h) == {} {
      FreshNameFor(s, d, c, h);
      FreshNumbersForDiffer(s, d, c, g, h);
    } else {
      WrittenNameFor(s, d, c, h);
      FreshIsNotWritten(s, d, c, g, h, NameFor(s, d, c, h));
    }
  }

  /** Labels that fit, without a clash, have a sound and numbered choice of names. */
  lemma NamesExist(s: Syntax, d: RoleTopology, c: Cluster)
    requires Lawful(s) && GroupsSeparate(d.groups) && NextFit(s, d, c) && Consistent(s, d, c)
    requires !FreshNamesClash(s, d, c)
    ensures SoundNames(s, d, c, NamesFor(s, d, c)) && Numbered(s, d, c, NamesFor(s, d, c))
  {
    var names := NamesFor(s, d, c);
    forall g | g in d.groups
      ensures NameFits(s, d, c, g, names[g])
      ensures Locked(s, c, g) == {} ==> Top(s, d, c, g.tier) < s.parse(names[g]).value.group
      ensures Locked(s, c, g) == {} ==>
        s.parse(names[g]).value.group <= Top(s, d, c, g.tier) + |FreshGroups(s, c, d.groups, g.tier)|
    {
      if Locked(s, c, g) == {} {
        FreshNameFor(s, d, c, g);
      } else {
        WrittenNameFor(s, d, c, g);
      }
    }
    forall g, h | g in d.groups && h in d.groups && names[g] == names[h]
      ensures g == h
    {
      NamesDetermine(s, d, c, g, h);
    }
  }

  lemma NamesDetermine(s: Syntax, d: RoleTopology, c: Cluster, g: DiscoveredGroup, h: DiscoveredGroup)
    requires Lawful(s) && GroupsSeparate(d.groups) && NextFit(s, d, c) && Consistent(s, d, c)
    requires !FreshNamesClash(s, d, c) && g in d.groups && h in d.groups && NameFor(s, d, c, g) == NameFor(s, d, c, h)
    ensures g == h
  {
    if Locked(s, c, g) == {} {
      NamesForDiffer(s, d, c, g, h);
    } else if Locked(s, c, h) == {} {
      NamesForDiffer(s, d, c, h, g);
    } else {
      WrittenNameFor(s, d, c, g);
      WrittenNameFor(s, d, c, h);
    }
  }

  /** The labels that the groups miss on one Node. */
  ghost function MissingOn(s: Syntax, groups: set<DiscoveredGroup>, c: Cluster, names: GroupNames, n: string): Labels
    requires GroupsSeparate(groups) && names.Keys == groups && Lawful(s)
  {
    KeysTellGroups(s, groups, n);
    map g | g in groups && LacksKey(s, c, g, n) :: s.render(g.tier) := names[g]
  }

  lemma KeysTellGroups(s: Syntax, groups: set<DiscoveredGroup>, n: string)
    requires GroupsSeparate(groups) && Lawful(s)
    ensures forall g, h :: g in groups && h in groups && n in g.nodes && n in h.nodes ==>
      s.render(g.tier) == s.render(h.tier) ==> g == h
  {
    forall g, h | g in groups && h in groups && n in g.nodes && n in h.nodes && s.render(g.tier) == s.render(h.tier)
      ensures g == h
    {
      assert s.matchTier(s.render(g.tier)) == Some(g.tier);
    }
  }

  ghost function PlanOf(s: Syntax, groups: set<DiscoveredGroup>, c: Cluster, names: GroupNames): Plan
    requires GroupsSeparate(groups) && names.Keys == groups && Lawful(s)
  {
    Plan(
      map n | n in c.nodes && MissingOn(s, groups, c, names, n) != map[] :: MissingOn(s, groups, c, names, n),
      map g, m | g in groups && m in g.members && LacksDomain(c, g, m) :: m := names[g])
  }

  lemma MissingEntry(s: Syntax, groups: set<DiscoveredGroup>, c: Cluster, names: GroupNames, g: DiscoveredGroup,
                     n: string)
    requires GroupsSeparate(groups) && names.Keys == groups && Lawful(s) && g in groups && LacksKey(s, c, g, n)
    ensures NodeEntry(PlanOf(s, groups, c, names), n, s.render(g.tier)) == Some(names[g])
  {
    var labels := MissingOn(s, groups, c, names, n);
    assert s.render(g.tier) in labels;
    KeysTellGroups(s, groups, n);
  }

  lemma PlanOfNodes(s: Syntax, groups: set<DiscoveredGroup>, c: Cluster, names: GroupNames)
    requires GroupsSeparate(groups) && names.Keys == groups && Lawful(s)
    ensures PlansNodes(s, c, names, PlanOf(s, groups, c, names))
  {
    var p := PlanOf(s, groups, c, names);
    forall g, n | g in names && LacksKey(s, c, g, n)
      ensures NodeEntry(p, n, s.render(g.tier)) == Some(names[g])
    {
      MissingEntry(s, groups, c, names, g, n);
    }
    forall n, k | NodeEntry(p, n, k).Some?
      ensures WantedOnNode(s, c, names, n, k, NodeEntry(p, n, k).value)
    {
      var g :| g in groups && LacksKey(s, c, g, n) && s.render(g.tier) == k;
      MissingEntry(s, groups, c, names, g, n);
    }
  }

  lemma PlanOfSwitches(s: Syntax, groups: set<DiscoveredGroup>, c: Cluster, names: GroupNames)
    requires GroupsSeparate(groups) && names.Keys == groups && Lawful(s)
    ensures PlansSwitches(c, names, PlanOf(s, groups, c, names))
  {
    var p := PlanOf(s, groups, c, names);
    forall g, m | g in names && LacksDomain(c, g, m)
      ensures SwitchEntry(p, m) == Some(names[g])
    {
      assert m in p.switches;
    }
    forall w | SwitchEntry(p, w).Some?
      ensures WantedOnSwitch(c, names, w, SwitchEntry(p, w).value)
    {
      var g :| g in groups && w in g.members && LacksDomain(c, g, w) && p.switches[w] == names[g];
    }
  }

  lemma PlanExists(s: Syntax, d: RoleTopology, c: Cluster) returns (names: GroupNames, p: Plan)
    requires Lawful(s) && GroupsSeparate(d.groups) && Inhabited(d.groups) && NextFit(s, d, c) && Consistent(s, d, c)
    requires !FreshNamesClash(s, d, c)
    ensures Planned(s, d, c, names, p)
  {
    names := NamesFor(s, d, c);
    p := PlanOf(s, d.groups, c, names);
    NamesExist(s, d, c);
    PlanOfNodes(s, d.groups, c, names);
    PlanOfSwitches(s, d.groups, c, names);
  }

  // --------------------------------------------------------------------------- the runs

  /** The landing of a part of a plan as BuildAutoLabelPlan makes it, Nodes first. */
  ghost predicate Lands(s: Syntax, d: RoleTopology, before: Cluster, names: GroupNames, p: Plan, nodes: set<string>,
                        switches: set<string>, after: Cluster) {
    Planned(s, d, before, names, p) && NodesFirst(p, nodes, switches) && after == Land(before, p, nodes, switches)
  }

  /** One reconcile, cut short anywhere. */
  ghost predicate Interrupted(s: Syntax, d: RoleTopology, before: Cluster, after: Cluster) {
    exists names, p, nodes, switches :: Lands(s, d, before, names, p, nodes, switches, after)
  }

  ghost predicate IsInterruptedRun(s: Syntax, d: RoleTopology, run: seq<Cluster>) {
    |run| > 0 && forall i :: 0 <= i < |run| - 1 ==> Interrupted(s, d, run[i], run[i + 1])
  }

  /** The run ends where no plan can be built. */
  ghost predicate GetsStuck(s: Syntax, d: RoleTopology, c: Cluster, run: seq<Cluster>) {
    IsInterruptedRun(s, d, run) && run[0] == c && FreshNamesClash(s, d, run[|run| - 1])
  }

  ghost predicate NeverStuck(s: Syntax, d: RoleTopology, c: Cluster) {
    forall run {:trigger GetsStuck(s, d, c, run)} :: !GetsStuck(s, d, c, run)
  }

  /** The labels fit, and hidden numbers keep their distance. */
  ghost predicate Healthy(s: Syntax, d: RoleTopology, c: Cluster) {
    Consistent(s, d, c) && Spaced(s, d, c)
  }

  lemma StepStaysHealthy(s: Syntax, d: RoleTopology, before: Cluster, after: Cluster)
    requires Interrupted(s, d, before, after) && Healthy(s, d, before)
    ensures Healthy(s, d, after)
  {
    var names, p, nodes, switches :| Lands(s, d, before, names, p, nodes, switches, after);
    LandKeepsSpaced(s, d, before, names, p, nodes, switches);
  }

  /** Health outlives every run. */
  lemma {:induction false} RunStaysHealthy(s: Syntax, d: RoleTopology, run: seq<Cluster>, i: nat)
    requires IsInterruptedRun(s, d, run) && i < |run| && Healthy(s, d, run[0])
    ensures Healthy(s, d, run[i])
    decreases i
  {
    if i > 0 {
      RunStaysHealthy(s, d, run, i - 1);
      assert Interrupted(s, d, run[i - 1], run[i - 1 + 1]);
      StepStaysHealthy(s, d, run[i - 1], run[i]);
    }
  }

  /** The numbers of every plan of every run fit 64 bits. */
  ghost predicate FitsInt64(s: Syntax, d: RoleTopology, c: Cluster) {
    && (forall tier {:trigger Top(s, d, c, tier)} :: Top(s, d, c, tier) + Reach(Unnamed(s, d, c, tier)) <= MAX_INT)
    && (forall g, x {:trigger Hidden(s, d, c, g, x)} :: Hidden(s, d, c, g, x) ==>
          x + Reach(Unnamed(s, d, c, g.tier)) <= MAX_INT)
  }

  lemma FitsNow(s: Syntax, d: RoleTopology, c: Cluster)
    requires FitsInt64(s, d, c)
    ensures NextFit(s, d, c)
  {
    forall tier
      ensures Top(s, d, c, tier) + Unnamed(s, d, c, tier) <= MAX_INT
    {
      assert Top(s, d, c, tier) + Reach(Unnamed(s, d, c, tier)) <= MAX_INT;
    }
  }

  lemma MovedFits(s: Syntax, d: RoleTopology, c: Cluster, after: Cluster, tier: int)
    requires FitsInt64(s, d, c) && Moved(s, d, c, after, tier)
    ensures Top(s, d, after, tier) + Reach(Unnamed(s, d, after, tier)) <= MAX_INT
  {
    var (top', count') := (Top(s, d, after, tier), Unnamed(s, d, after, tier));
    FitsTier(s, d, c, tier);
    if h: DiscoveredGroup :| h.tier == tier && Hidden(s, d, c, h, top') {
      FitsHidden(s, d, c, h, top');
      ReachGrows(count', Unnamed(s, d, c, tier));
    } else {
      ReachMoves(Top(s, d, c, tier), Unnamed(s, d, c, tier), top', count');
    }
  }

  lemma FitsTier(s: Syntax, d: RoleTopology, c: Cluster, tier: int)
    requires FitsInt64(s, d, c)
    ensures Top(s, d, c, tier) + Reach(Unnamed(s, d, c, tier)) <= MAX_INT
  {
  }

  lemma FitsHidden(s: Syntax, d: RoleTopology, c: Cluster, g: DiscoveredGroup, x: int)
    requires FitsInt64(s, d, c) && Hidden(s, d, c, g, x)
    ensures x + Reach(Unnamed(s, d, c, g.tier)) <= MAX_INT
  {
  }

  lemma ReachMoves(top: int, count: nat, top': int, count': nat)
    requires count' <= count && (top' == top || (top' <= top + count && count' + 1 <= count))
    ensures top' + Reach(count') <= top + Reach(count)
  {
    ReachGrows(count', count);
    if count' + 1 <= count {
      ReachGrows(count', count - 1);
    }
  }

  lemma NodesKeepFit(s: Syntax, d: RoleTopology, c: Cluster, names: GroupNames, p: Plan, nodes: set<string>,
                     switches: set<string>)
    requires Planned(s, d, c, names, p) && FitsInt64(s, d, c) && switches !! p.switches.Keys
    ensures FitsInt64(s, d, Land(c, p, nodes, switches))
  {
    var after := Land(c, p, nodes, switches);
    forall tier
      ensures Top(s, d, after, tier) + Reach(Unnamed(s, d, after, tier)) <= MAX_INT
    {
      LandMoves(s, d, c, names, p, nodes, switches, tier);
      MovedFits(s, d, c, after, tier);
    }
    forall g, x | Hidden(s, d, after, g, x)
      ensures x + Reach(Unnamed(s, d, after, g.tier)) <= MAX_INT
    {
      HiddenBefore(s, d, c, names, p, nodes, switches, g, x);
      LandGrows(s, d, c, names, p, nodes, switches, g.tier);
      ReachGrows(Unnamed(s, d, after, g.tier), Unnamed(s, d, c, g.tier));
    }
  }

  lemma NumbersFit(s: Syntax, d: RoleTopology, c: Cluster, tier: int)
    requires Lawful(s)
    ensures Top(s, d, c, tier) <= MAX_INT
    ensures forall g, x {:trigger Hidden(s, d, c, g, x)} :: Hidden(s, d, c, g, x) ==> x <= MAX_INT
  {
    var top := Top(s, d, c, tier);
    assert IsHighest(s, InUse(s, d.role, c), tier, top);
    if Attains(s, InUse(s, d.role, c), tier, top) {
      var v :| v in InUse(s, d.role, c) && NamesTier(s, v, tier) && s.parse(v).value.group == top;
    }
    forall g, x | Hidden(s, d, c, g, x)
      ensures x <= MAX_INT
    {
      var v :| v in Locked(s, c, g) && NamesTier(s, v, g.tier) && s.parse(v).value.group == x;
    }
  }

  /** The numbers of later plans fit too. */
  lemma LandKeepsFit(s: Syntax, d: RoleTopology, c: Cluster, names: GroupNames, p: Plan, nodes: set<string>,
                     switches: set<string>)
    requires Planned(s, d, c, names, p) && FitsInt64(s, d, c) && NodesFirst(p, nodes, switches)
    ensures FitsInt64(s, d, Land(c, p, nodes, switches))
  {
    if switches !! p.switches.Keys {
      NodesKeepFit(s, d, c, names, p, nodes, switches);
    } else {
      var after := Land(c, p, nodes, switches);
      forall tier
        ensures Unnamed(s, d, after, tier) == 0 && Top(s, d, after, tier) <= MAX_INT
      {
        AllNamed(s, d, c, names, p, nodes, switches, tier);
        NumbersFit(s, d, after, tier);
      }
      NumbersFit(s, d, after, 1);
    }
  }

  /** What a step of the construction below starts from and leaves. */
  ghost predicate Start(s: Syntax, d: RoleTopology, c: Cluster) {
    && Lawful(s) && GroupsSeparate(d.groups) && Inhabited(d.groups)
    && Consistent(s, d, c) && FitsInt64(s, d, c)
  }

  lemma NodeStep(s: Syntax, d: RoleTopology, c: Cluster, names: GroupNames, p: Plan, n: string)
    requires Start(s, d, c) && Planned(s, d, c, names, p)
    ensures Start(s, d, Land(c, p, {n}, {})) && Interrupted(s, d, c, Land(c, p, {n}, {}))
  {
    LandKeepsConsistent(s, d, c, names, p, {n}, {});
    NodesKeepFit(s, d, c, names, p, {n}, {});
    assert Lands(s, d, c, names, p, {n}, {}, Land(c, p, {n}, {}));
  }

  lemma LongerRun(s: Syntax, d: RoleTopology, c: Cluster, run: seq<Cluster>)
    requires IsInterruptedRun(s, d, run) && Interrupted(s, d, c, run[0])
    ensures IsInterruptedRun(s, d, [c] + run)
  {
    var longer := [c] + run;
    forall i | 0 <= i < |longer| - 1
      ensures Interrupted(s, d, longer[i], longer[i + 1])
    {
      if i > 0 {
        assert longer[i] == run[i - 1] && longer[i + 1] == run[i - 1 + 1];
        assert Interrupted(s, d, run[i - 1], run[i - 1 + 1]);
      }
    }
  }

  lemma Prepend(s: Syntax, d: RoleTopology, c: Cluster, after: Cluster, run: seq<Cluster>)
    requires Interrupted(s, d, c, after) && GetsStuck(s, d, after, run)
    ensures GetsStuck(s, d, c, [c] + run)
  {
    LongerRun(s, d, c, run);
    assert ([c] + run)[|run|] == run[|run| - 1];
  }

  lemma StuckAtOnce(s: Syntax, d: RoleTopology, c: Cluster)
    requires FreshNamesClash(s, d, c)
    ensures GetsStuck(s, d, c, [c])
  {
  }

  /** The number is within reach of a run from here. */
  ghost predicate InReach(s: Syntax, d: RoleTopology, c: Cluster, g: DiscoveredGroup, x: int) {
    Hidden(s, d, c, g, x) && x <= Top(s, d, c, g.tier) + Reach(Unnamed(s, d, c, g.tier))
  }

  lemma StillInReach(s: Syntax, d: RoleTopology, c: Cluster, after: Cluster, g: DiscoveredGroup, x: int)
    requires InReach(s, d, c, g, x) && Hidden(s, d, after, g, x) && Unnamed(s, d, c, g.tier) > 0
    requires Top(s, d, after, g.tier) == Top(s, d, c, g.tier) + Unnamed(s, d, c, g.tier)
    requires Unnamed(s, d, after, g.tier) == Unnamed(s, d, c, g.tier) - 1
    ensures InReach(s, d, after, g, x)
  {
    var count := Unnamed(s, d, c, g.tier);
    assert Reach(count) == count + Reach(count - 1);
  }

  lemma LastFreshStep(s: Syntax, d: RoleTopology, c: Cluster, g: DiscoveredGroup, x: int) returns (after: Cluster)
    requires Start(s, d, c) && InReach(s, d, c, g, x) && !FreshNamesClash(s, d, c)
    ensures Start(s, d, after) && Interrupted(s, d, c, after) && InReach(s, d, after, g, x)
    ensures Unnamed(s, d, after, g.tier) < Unnamed(s, d, c, g.tier)
  {
    FitsNow(s, d, c);
    var names, p := PlanExists(s, d, c);
    NearMeansUnnamed(Top(s, d, c, g.tier), Unnamed(s, d, c, g.tier), x);
    var h, n := LandLastFresh(s, d, c, names, p, g, x);
    NodeStep(s, d, c, names, p, n);
    after := Land(c, p, {n}, {});
    StillInReach(s, d, c, after, g, x);
  }

  lemma HiddenStep(s: Syntax, d: RoleTopology, c: Cluster, g: DiscoveredGroup, x: int, h: DiscoveredGroup, y: int)
    returns (after: Cluster)
    requires Start(s, d, c) && Hidden(s, d, c, g, x) && Hidden(s, d, c, h, y) && !FreshNamesClash(s, d, c)
    requires g.tier == h.tier && y < x <= y + Reach(Unnamed(s, d, c, g.tier))
    ensures Start(s, d, after) && Interrupted(s, d, c, after) && InReach(s, d, after, g, x)
  {
    FitsNow(s, d, c);
    var names, p := PlanExists(s, d, c);
    var n := LandHidden(s, d, c, names, p, g, x, h, y);
    NodeStep(s, d, c, names, p, n);
    after := Land(c, p, {n}, {});
  }

  lemma NearMeansUnnamed(top: int, count: nat, x: int)
    requires top < x <= top + Reach(count)
    ensures count > 0
  {
  }

  /** Land the highest new number, again and again, until the next ones run into `x`. */
  lemma {:induction false} NearNumberSticks(s: Syntax, d: RoleTopology, c: Cluster, g: DiscoveredGroup, x: int)
    returns (run: seq<Cluster>)
    requires Start(s, d, c) && InReach(s, d, c, g, x)
    ensures GetsStuck(s, d, c, run)
    decreases Unnamed(s, d, c, g.tier)
  {
    if FreshNamesClash(s, d, c) {
      run := [c];
      StuckAtOnce(s, d, c);
    } else {
      var after := LastFreshStep(s, d, c, g, x);
      var rest := NearNumberSticks(s, d, after, g, x);
      Prepend(s, d, c, after, rest);
      run := [c] + rest;
    }
  }

  /** Land a hidden number first, then continue from there. */
  lemma CloseNumbersStick(s: Syntax, d: RoleTopology, c: Cluster, g: DiscoveredGroup, x: int, h: DiscoveredGroup,
                          y: int) returns (run: seq<Cluster>)
    requires Start(s, d, c) && Hidden(s, d, c, g, x) && Hidden(s, d, c, h, y) && g.tier == h.tier
    requires y < x <= y + Reach(Unnamed(s, d, c, g.tier))
    ensures GetsStuck(s, d, c, run)
  {
    if FreshNamesClash(s, d, c) {
      run := [c];
      StuckAtOnce(s, d, c);
    } else {
      var after := HiddenStep(s, d, c, g, x, h, y);
      var rest := NearNumberSticks(s, d, after, g, x);
      Prepend(s, d, c, after, rest);
      run := [c] + rest;
    }
  }

  ghost predicate Close(s: Syntax, d: RoleTopology, c: Cluster, g: DiscoveredGroup, x: int, h: DiscoveredGroup,
                        y: int) {
    && Hidden(s, d, c, g, x) && Hidden(s, d, c, h, y) && g.tier == h.tier
    && y < x <= y + Reach(Unnamed(s, d, c, g.tier))
  }

  lemma CrowdedHas(s: Syntax, d: RoleTopology, c: Cluster)
    requires !Spaced(s, d, c)
    ensures (exists g, x :: InReach(s, d, c, g, x)) || (exists g, x, h, y :: Close(s, d, c, g, x, h, y))
  {
    if g, x :| Hidden(s, d, c, g, x) && x <= Top(s, d, c, g.tier) + Reach(Unnamed(s, d, c, g.tier)) {
      assert InReach(s, d, c, g, x);
    } else {
      var g, x, h, y :| Hidden(s, d, c, g, x) && Hidden(s, d, c, h, y) && g.tier == h.tier && y < x
        && x <= y + Reach(Unnamed(s, d, c, g.tier));
      assert Close(s, d, c, g, x, h, y);
    }
  }

  lemma CrowdedSticks(s: Syntax, d: RoleTopology, c: Cluster) returns (run: seq<Cluster>)
    requires Start(s, d, c) && !Spaced(s, d, c)
    ensures GetsStuck(s, d, c, run)
  {
    CrowdedHas(s, d, c);
    if g, x :| InReach(s, d, c, g, x) {
      run := NearNumberSticks(s, d, c, g, x);
    } else {
      var g, x, h, y :| Close(s, d, c, g, x, h, y);
      run := CloseNumbersStick(s, d, c, g, x, h, y);
    }
  }

  lemma HealthyRunGoesOn(s: Syntax, d: RoleTopology, c: Cluster, run: seq<Cluster>)
    requires Healthy(s, d, c) && IsInterruptedRun(s, d, run) && run[0] == c
    ensures !FreshNamesClash(s, d, run[|run| - 1])
  {
    RunStaysHealthy(s, d, run, |run| - 1);
    SpacedNeverClashes(s, d, run[|run| - 1]);
  }

  lemma HealthyIsNeverStuck(s: Syntax, d: RoleTopology, c: Cluster)
    requires Healthy(s, d, c)
    ensures NeverStuck(s, d, c)
  {
    forall run
      ensures !GetsStuck(s, d, c, run)
    {
      if IsInterruptedRun(s, d, run) && run[0] == c {
        HealthyRunGoesOn(s, d, c, run);
      }
    }
  }

  /** Every run of interrupted reconciles can go on, if and only if the hidden numbers keep
      their distance. */
  lemma NeverStuckIffSpaced(s: Syntax, d: RoleTopology, c: Cluster)
    requires Start(s, d, c)
    ensures NeverStuck(s, d, c) <==> Spaced(s, d, c)
  {
    if Spaced(s, d, c) {
      HealthyIsNeverStuck(s, d, c);
    } else {
      var run := CrowdedSticks(s, d, c);
    }
  }

  // ------------------------------------------------------------------- a small instance

  /** Of three groups of one tier, one carries number 3, which the scans do not see; nothing is
      written on the others. */
  ghost predicate ThirdIsForeign(s: Syntax, d: RoleTopology, c: Cluster, g: DiscoveredGroup, h: DiscoveredGroup,
                                 k: DiscoveredGroup) {
    && d.groups == {g, h, k} && g != h && g != k && h != k && g.tier == h.tier == k.tier == 1
    && InUse(s, d.role, c) == {} && Locked(s, c, g) == {s.name(1, 3)} && Locked(s, c, h) == {} && Locked(s, c, k) == {}
  }

  lemma NothingInUse(s: Syntax, d: RoleTopology, c: Cluster, tier: int)
    requires InUse(s, d.role, c) == {}
    ensures Top(s, d, c, tier) == 0
  {
    HighestIsUnique(s, {}, tier, 0, Top(s, d, c, tier));
  }

  lemma FreshIsPair(s: Syntax, c: Cluster, g: DiscoveredGroup, h: DiscoveredGroup, k: DiscoveredGroup, tier: int)
    requires g.tier == h.tier == k.tier == 1 && Locked(s, c, g) != {} && Locked(s, c, h) == Locked(s, c, k) == {}
    ensures FreshGroups(s, c, {g, h, k}, tier) == if tier == 1 then {h, k} else {}
  {
  }

  lemma TwoUnnamed(s: Syntax, d: RoleTopology, c: Cluster, g: DiscoveredGroup, h: DiscoveredGroup, k: DiscoveredGroup,
                   tier: int)
    requires ThirdIsForeign(s, d, c, g, h, k)
    ensures Unnamed(s, d, c, tier) == if tier == 1 then 2 else 0
  {
    assert s.name(1, 3) in Locked(s, c, g);
    FreshIsPair(s, c, g, h, k, tier);
    assert |{h, k}| == 2;
  }

  lemma ForeignCarries(s: Syntax, d: RoleTopology, c: Cluster, g: DiscoveredGroup, h: DiscoveredGroup,
                       k: DiscoveredGroup, x: DiscoveredGroup, n: int)
    requires Lawful(s) && ThirdIsForeign(s, d, c, g, h, k)
    ensures Hidden(s, d, c, x, n) <==> x == g && n == 3
  {
    assert s.parse(s.name(1, 3)).Some?;
    NothingInUse(s, d, c, x.tier);
    assert s.name(1, 3) in Locked(s, c, g) && NamesTier(s, s.name(1, 3), g.tier);
  }

  /** There is no clash yet, and no room for an interrupted reconcile. */
  lemma ForeignLeavesNoRoom(s: Syntax, d: RoleTopology, c: Cluster, g: DiscoveredGroup, h: DiscoveredGroup,
                            k: DiscoveredGroup)
    requires Lawful(s) && ThirdIsForeign(s, d, c, g, h, k)
    ensures NextFit(s, d, c) && !FreshNamesClash(s, d, c) && !RoomForOne(s, d, c)
  {
    forall tier
      ensures Top(s, d, c, tier) == 0 && Unnamed(s, d, c, tier) <= 2
    {
      NothingInUse(s, d, c, tier);
      TwoUnnamed(s, d, c, g, h, k, tier);
    }
    TwoUnnamed(s, d, c, g, h, k, 1);
    forall x, n
      ensures Hidden(s, d, c, x, n) <==> x == g && n == 3
    {
      ForeignCarries(s, d, c, g, h, k, x, n);
    }
    assert Hidden(s, d, c, g, 3) && IsNear(s, d, c, g, 3);
    ClashIsHidden(s, d, c);
  }

  /** A plan exists, and whichever way it is numbered, the landing of a single Node stops all
      later plans. */
  lemma OneNodeStopsPlanning(s: Syntax, d: RoleTopology, c: Cluster, g: DiscoveredGroup, h: DiscoveredGroup,
                             k: DiscoveredGroup)
    requires Lawful(s) && GroupsSeparate(d.groups) && Inhabited(d.groups) && Consistent(s, d, c)
    requires ThirdIsForeign(s, d, c, g, h, k)
    ensures exists names, p :: Planned(s, d, c, names, p)
    ensures forall names, p :: Planned(s, d, c, names, p) ==> !SurvivesLanding(s, d, c, p)
  {
    ForeignLeavesNoRoom(s, d, c, g, h, k);
    var names, p := PlanExists(s, d, c);
    forall names, p | Planned(s, d, c, names, p)
      ensures !SurvivesLanding(s, d, c, p)
    {
      NoRoomFails(s, d, c, names, p);
    }
  }

  function Leaf(name: string, member: string, node: string): DiscoveredGroup {
    DiscoveredGroup(name, 1, {member}, {node})
  }

  lemma LeafLocked(s: Syntax, c: Cluster, m: string, x: string)
    requires x in c.nodes && c.nodes[x] == map[] && m in c.switches
    ensures Locked(s, c, Leaf(m, m, x)) == if c.switches[m].domain == "" then {} else {c.switches[m].domain}
  {
    assert LockedOnNodes(s, c, Leaf(m, m, x)) == {};
  }

  lemma LeavesAreSeparate(m: string, a: string, b: string, x: string, y: string, z: string)
    requires m != a && m != b && a != b && x != y && x != z && y != z
    ensures GroupsSeparate({Leaf(m, m, x), Leaf(a, a, y), Leaf(b, b, z)})
    ensures Inhabited({Leaf(m, m, x), Leaf(a, a, y), Leaf(b, b, z)})
  {
  }

  /** A Node without labels and a Switch under every leaf. */
  ghost predicate Stands(c: Cluster, m: string, x: string) {
    x in c.nodes && c.nodes[x] == map[] && m in c.switches
  }

  lemma ForeignIsConsistent(s: Syntax, d: RoleTopology, c: Cluster, g: DiscoveredGroup, h: DiscoveredGroup,
                            k: DiscoveredGroup)
    requires Lawful(s) && ThirdIsForeign(s, d, c, g, h, k) && !d.nodeOnly && ScanOk(s, d.role, c)
    requires forall x :: x in d.groups ==> x.nodes <= c.nodes.Keys && x.members <= c.switches.Keys
    ensures Consistent(s, d, c)
  {
    var v := s.name(1, 3);
    assert s.parse(v).Some?;
    forall x | x in d.groups
      ensures Locked(s, c, x) == if x == g then {v} else {}
    {
    }
    OneNameFits(s, d, c, g, v);
  }

  lemma OneNameFits(s: Syntax, d: RoleTopology, c: Cluster, g: DiscoveredGroup, v: string)
    requires !d.nodeOnly && ScanOk(s, d.role, c) && NamesTier(s, v, g.tier)
    requires forall x :: x in d.groups ==> x.nodes <= c.nodes.Keys && x.members <= c.switches.Keys
    requires forall x {:trigger Locked(s, c, x)} :: x in d.groups ==> Locked(s, c, x) == if x == g then {v} else {}
    ensures Consistent(s, d, c)
  {
    forall x | x in d.groups
      ensures GroupReadable(s, d, c, x) && |Locked(s, c, x)| <= 1
    {
    }
  }

  /** Three leaves, one with a Switch of another role that carries number 3, the others with
      Switches of the role, and no other label: such clusters exist for all names. */
  lemma ForeignLeaf(s: Syntax, d: RoleTopology, other: string, m: string, a: string, b: string, x: string, y: string,
                    z: string, c: Cluster)
    requires Lawful(s) && d.role != other && m != a && m != b && a != b && x != y && x != z && y != z
    requires d.groups == {Leaf(m, m, x), Leaf(a, a, y), Leaf(b, b, z)} && !d.nodeOnly
    requires c.nodes.Keys == {x, y, z} && c.switches.Keys == {m, a, b}
    requires Stands(c, m, x) && Stands(c, a, y) && Stands(c, b, z)
    requires c.switches[m] == SwitchObject(other, s.name(1, 3))
    requires c.switches[a] == c.switches[b] == SwitchObject(d.role, "")
    ensures GroupsSeparate(d.groups) && Inhabited(d.groups) && Consistent(s, d, c)
    ensures ThirdIsForeign(s, d, c, Leaf(m, m, x), Leaf(a, a, y), Leaf(b, b, z))
  {
    assert s.parse(s.name(1, 3)).Some? && s.name(1, 3) != "";
    LeavesAreSeparate(m, a, b, x, y, z);
    LeafLocked(s, c, m, x);
    LeafLocked(s, c, a, y);
    LeafLocked(s, c, b, z);
    assert Leaf(m, m, x).internalName == m && Leaf(a, a, y).internalName == a && Leaf(b, b, z).internalName == b;
    assert NodeNames(s, c.nodes) == {} && SwitchNames(d.role, c.switches) == {};
    ForeignIsConsistent(s, d, c, Leaf(m, m, x), Leaf(a, a, y), Leaf(b, b, z));
  }
}
