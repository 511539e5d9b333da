/** BuildTopologyStatus: the domain forest, Switch members and named Node groups that the
    labels of one Topology describe, or an error when they describe no forest. */
module TopologyStatus {
  import opened Wrappers
  import opened Decimal
  import opened LabelSyntax
  import opened StatusPaths
  import opened StatusForest
  import opened NodeGroups

  datatype Domain = Domain(tier: int, parent: Option<string>, members: set<string>)

  datatype Status = Status(domains: map<string, Domain>, groups: seq<NodeGroup>, pending: set<string>)

  type Nodes = map<string, Labels>

  /** The domain label of each Switch of the role, "" when it has none. */
  type Switches = map<string, string>

  // ------------------------------------------------------------------ specification

  /** The paths of the labelled Nodes outside `todo`. */
  ghost function PathsBut(s: Syntax, nodes: Nodes, todo: set<string>): Paths {
    map n | n in nodes && n !in todo && PathOf(s, nodes[n]) != [] :: PathOf(s, nodes[n])
  }

  ghost function PathsOf(s: Syntax, nodes: Nodes): Paths {
    PathsBut(s, nodes, {})
  }

  ghost predicate ValidPath(s: Syntax, path: seq<string>) {
    |path| <= MAX_INT32 && forall i :: 0 <= i < |path| ==> s.valid(path[i])
  }

  ghost predicate ValidPaths(s: Syntax, paths: Paths) {
    forall n :: n in paths ==> ValidPath(s, paths[n])
  }

  ghost predicate ValidSwitches(s: Syntax, switches: Switches) {
    forall w :: w in switches ==> switches[w] == "" || s.valid(switches[w])
  }

  /** The labels describe a forest: no Node path has a gap, the names are valid, and every
      domain has one tier and at most one parent. */
  ghost predicate Acceptable(s: Syntax, nodes: Nodes, switches: Switches) {
    && (forall n :: n in nodes ==> Contiguous(s, nodes[n]))
    && ValidPaths(s, PathsOf(s, nodes))
    && OneTier(PathsOf(s, nodes))
    && OneParent(PathsOf(s, nodes))
    && ValidSwitches(s, switches)
  }

  /** The domains of a status are those on the paths, with tier, parent and Switch members. */
  ghost predicate DescribesDomains(paths: Paths, switches: Switches, domains: map<string, Domain>) {
    && (forall v {:trigger Used(paths, v)} {:trigger v in domains} :: v in domains <==> Used(paths, v))
    && (forall n, i, v {:trigger At(paths[n], i, v)} :: n in paths && At(paths[n], i, v) ==>
          v in domains && domains[v].tier == i + 1)
    && (forall v, p {:trigger ParentOf(paths, v, p)} :: v in domains ==>
          (domains[v].parent == Some(p) <==> ParentOf(paths, v, p)))
    && (forall v {:trigger domains[v]} :: v in domains ==> domains[v].members == MembersOf(switches, v))
  }

  ghost function MembersOf(switches: Switches, v: string): set<string> {
    set w | w in switches && switches[w] == v
  }

  /** The Switches whose domain no Node lies in. */
  ghost function Orphans(paths: Paths, switches: Switches): set<string> {
    set w | w in switches && switches[w] != "" && !Used(paths, switches[w])
  }

  /** Highest tier first. */
  function Reverse(path: seq<string>): seq<string> {
    if path == [] then [] else Reverse(path[1..]) + [path[0]]
  }

  /** The labelled Nodes with this path. */
  ghost function NodesWith(paths: Paths, path: seq<string>): set<string> {
    set n | n in paths && Reverse(paths[n]) == path
  }

  ghost predicate HasGroup(groups: seq<NodeGroup>, path: seq<string>) {
    exists i :: 0 <= i < |groups| && groups[i].path == path
  }

  /** One group per path in use, holding all Nodes with that path. */
  ghost predicate DescribesGroups(paths: Paths, groups: seq<NodeGroup>) {
    && DistinctPaths(groups)
    && (forall i :: 0 <= i < |groups| ==> groups[i].nodes == NodesWith(paths, groups[i].path) && groups[i].nodes != {})
    && (forall n {:trigger paths[n]} :: n in paths ==> HasGroup(groups, Reverse(paths[n])))
  }

  /** A status of these labels, built on the groups of an earlier one. */
  ghost predicate IsStatus(s: Syntax, w: Numbering, nodes: Nodes, switches: Switches, previous: seq<NodeGroup>,
                           status: Status) {
    && Acceptable(s, nodes, switches)
    && DescribesDomains(PathsOf(s, nodes), switches, status.domains)
    && status.pending == Orphans(PathsOf(s, nodes), switches)
    && exists groups, numbers ::
       DescribesGroups(PathsOf(s, nodes), groups) && Assigned(w, previous, groups, numbers, status.groups)
  }

  // ------------------------------------------------------------------------- groups

  lemma {:induction false} ReverseIs(path: seq<string>, i: nat)
    requires i < |path|
    ensures |Reverse(path)| == |path| && Reverse(path)[i] == path[|path| - 1 - i]
    decreases |path|
  {
    if i < |path| - 1 {
      ReverseIs(path[1..], i);
    } else if |path| > 1 {
      ReverseIs(path[1..], 0);
    }
  }

  lemma ReverseKeepsNulFree(s: Syntax, path: seq<string>)
    requires Lawful(s) && ValidPath(s, path) && path != []
    ensures Reverse(path) != [] && AllNulFree(Reverse(path))
  {
    forall i | 0 <= i < |path|
      ensures |Reverse(path)| == |path| && NulFree(Reverse(path)[i])
    {
      ReverseIs(path, i);
      assert s.valid(path[|path| - 1 - i]);
    }
    ReverseIs(path, 0);
  }

  lemma ReverseInjective(p: seq<string>, q: seq<string>)
    requires Reverse(p) == Reverse(q)
    ensures p == q
  {
    ReverseLength(p);
    ReverseLength(q);
    forall i | 0 <= i < |p|
      ensures p[i] == q[i]
    {
      ReverseIs(p, |p| - 1 - i);
      ReverseIs(q, |q| - 1 - i);
    }
  }

  lemma ReverseLength(p: seq<string>)
    ensures |Reverse(p)| == |p|
  {
    if p != [] {
      ReverseIs(p, 0);
    }
  }

  type Filed = map<string, NodeGroup>

  ghost predicate FiledAt(paths: Paths, filed: Filed, n: string)
    requires n in paths
  {
    var key := PathKey(Reverse(paths[n]));
    key in filed && filed[key].path == Reverse(paths[n])
  }

  /** A group filed under a key has the path of that key and all Nodes with that path. */
  ghost predicate IsGroup(paths: Paths, k: string, g: NodeGroup) {
    g.path != [] && AllNulFree(g.path) && PathKey(g.path) == k && g.nodes == NodesWith(paths, g.path) && g.nodes != {}
  }

  /** The groups filed so far are those of the paths so far. */
  ghost predicate GroupsFor(paths: Paths, filed: Filed) {
    && (forall n {:trigger paths[n]} :: n in paths ==> FiledAt(paths, filed, n))
    && (forall k {:trigger filed[k]} :: k in filed ==> IsGroup(paths, k, filed[k]))
  }

  function FileNode(filed: Filed, n: string, path: seq<string>): Filed {
    var key := PathKey(path);
    var group := if key in filed then filed[key] else NodeGroup("", path, {});
    filed[key := group.(nodes := group.nodes + {n})]
  }

  lemma NodesWithOneMore(paths: Paths, n: string, path: seq<string>, q: seq<string>)
    requires n !in paths
    ensures NodesWith(paths[n := path], q) == NodesWith(paths, q) + if Reverse(path) == q then {n} else {}
  {
  }

  lemma NobodyWith(paths: Paths, filed: Filed, path: seq<string>)
    requires GroupsFor(paths, filed) && PathKey(path) !in filed
    ensures NodesWith(paths, path) == {}
  {
    forall n | n in paths
      ensures Reverse(paths[n]) != path
    {
      assert FiledAt(paths, filed, n);
    }
  }

  /** The group the Node joins has the path of the Node, because keys are injective. */
  lemma JoinsOwnGroup(s: Syntax, paths: Paths, filed: Filed, n: string, path: seq<string>)
    requires Lawful(s) && n !in paths && ValidPath(s, path) && path != [] && GroupsFor(paths, filed)
    ensures
      var key := PathKey(Reverse(path));
      IsGroup(paths[n := path], key, FileNode(filed, n, Reverse(path))[key])
        && FileNode(filed, n, Reverse(path))[key].path == Reverse(path)
  {
    var key := PathKey(Reverse(path));
    ReverseKeepsNulFree(s, path);
    if key in filed {
      PathKeyInjective(filed[key].path, Reverse(path));
    } else {
      NobodyWith(paths, filed, Reverse(path));
    }
    NodesWithOneMore(paths, n, path, Reverse(path));
  }

  lemma FileNodeExtends(s: Syntax, paths: Paths, filed: Filed, n: string, path: seq<string>)
    requires Lawful(s) && n !in paths && ValidPath(s, path) && path != [] && GroupsFor(paths, filed)
    ensures GroupsFor(paths[n := path], FileNode(filed, n, Reverse(path)))
  {
    var more, next, key := paths[n := path], FileNode(filed, n, Reverse(path)), PathKey(Reverse(path));
    JoinsOwnGroup(s, paths, filed, n, path);
    forall k | k in next
      ensures IsGroup(more, k, next[k])
    {
      if k != key {
        assert IsGroup(paths, k, filed[k]);
        NodesWithOneMore(paths, n, path, next[k].path);
      }
    }
    forall m | m in more
      ensures FiledAt(more, next, m)
    {
      if m != n {
        assert FiledAt(paths, filed, m);
      }
    }
  }

  // -------------------------------------------------------------------- adding Nodes

  ghost predicate Built(paths: Paths, domains: Domains, filed: Filed) {
    TiersFor(paths, domains) && ParentsFor(paths, domains) && GroupsFor(paths, filed)
  }

  /** The checks of the loop over the tiers that concern names. */
  method ValidateNames(s: Syntax, path: seq<string>) returns (ok: bool)
    ensures ok <==> forall i :: 0 <= i < |path| ==> s.valid(path[i])
  {
    for i := 0 to |path|
      invariant forall j :: 0 <= j < i ==> s.valid(path[j])
    {
      if !s.valid(path[i]) {
        return false;
      }
    }
    ok := true;
  }

  /** One Node with a non-empty path. */
  method AddNode(s: Syntax, n: string, path: seq<string>, domains: Domains, filed: Filed, ghost paths: Paths,
                 ghost all: Paths)
    returns (r: Result<(Domains, Filed), string>)
    requires Lawful(s) && n !in paths && Beginnings(paths, all) && n in all && all[n] == path && path != []
    requires Built(paths, domains, filed)
    ensures r.Ok? ==> ValidPath(s, path) && Built(paths[n := path], r.value.0, r.value.1)
    ensures r.Err? ==> !ValidPath(s, path) || !OneTier(all) || !OneParent(all)
  {
    var ok := ValidateNames(s, path);
    if !ok {
      return Err(n);
    }
    var tiered := AddDomains(n, path, domains, paths, all);
    match tiered
    case Err(e) => return Err(e);
    case Ok(withTiers) =>
      var linked := AddParents(n, path, withTiers, paths, all);
      match linked
      case Err(e) => return Err(e);
      case Ok(withParents) =>
        FileNodeExtends(s, paths, filed, n, path);
        r := Ok((withParents, FileNode(filed, n, Reverse(path))));
  }

  lemma PathsButOneMore(s: Syntax, nodes: Nodes, todo: set<string>, n: string)
    requires n in todo && n in nodes
    ensures n !in PathsBut(s, nodes, todo)
    ensures PathsBut(s, nodes, todo - {n}) ==
      if PathOf(s, nodes[n]) == [] then PathsBut(s, nodes, todo) else PathsBut(s, nodes, todo)[n := PathOf(s, nodes[n])]
  {
  }

  lemma NodeRead(s: Syntax, nodes: Nodes, todo: set<string>, n: string)
    requires todo <= nodes.Keys && n in todo && Read(s, nodes, todo) && Contiguous(s, nodes[n])
    ensures var path := PathOf(s, nodes[n]);
      && n !in PathsBut(s, nodes, todo)
      && PathsBut(s, nodes, todo - {n}) ==
         (if path == [] then PathsBut(s, nodes, todo) else PathsBut(s, nodes, todo)[n := path])
      && (path != [] ==> n in PathsOf(s, nodes) && PathsOf(s, nodes)[n] == path)
      && (path == [] || ValidPath(s, path) ==> Read(s, nodes, todo - {n}))
  {
    PathsButOneMore(s, nodes, todo, n);
  }

  lemma PathsButBegin(s: Syntax, nodes: Nodes, todo: set<string>)
    ensures Beginnings(PathsBut(s, nodes, todo), PathsOf(s, nodes))
  {
  }

  ghost predicate Read(s: Syntax, nodes: Nodes, todo: set<string>) {
    && (forall n :: n in nodes && n !in todo ==> Contiguous(s, nodes[n]))
    && ValidPaths(s, PathsBut(s, nodes, todo))
  }

  /** The loop over the Nodes. */
  method AddNodes(s: Syntax, nodes: Nodes) returns (r: Result<(Domains, Filed), string>)
    requires Lawful(s)
    ensures r.Ok? <==>
      && (forall n :: n in nodes ==> Contiguous(s, nodes[n]))
      && ValidPaths(s, PathsOf(s, nodes)) && OneTier(PathsOf(s, nodes)) && OneParent(PathsOf(s, nodes))
    ensures r.Ok? ==> Built(PathsOf(s, nodes), r.value.0, r.value.1)
  {
    var domains: Domains, filed: Filed := map[], map[];
    var todo := nodes.Keys;
    NothingBuilt(s, nodes);
    while todo != {}
      invariant todo <= nodes.Keys && Built(PathsBut(s, nodes, todo), domains, filed) && Read(s, nodes, todo)
      decreases todo
    {
      var n :| n in todo;
      var read := ReadPath(s, nodes[n]);
      match read
      case Err(e) => return Err(e);
      case Ok(path) =>
        NodeRead(s, nodes, todo, n);
        if path != [] {
          PathsButBegin(s, nodes, todo);
          var added := AddNode(s, n, path, domains, filed, PathsBut(s, nodes, todo), PathsOf(s, nodes));
          match added
          case Err(e) => return Err(e);
          case Ok(next) =>
            domains, filed := next.0, next.1;
        }
        todo := todo - {n};
    }
    DomainsMeanForest(PathsOf(s, nodes), domains);
    r := Ok((domains, filed));
  }

  lemma NothingBuilt(s: Syntax, nodes: Nodes)
    ensures PathsBut(s, nodes, nodes.Keys) == map[] && Built(map[], map[], map[])
  {
  }

  // ----------------------------------------------------------------------- Switches

  type Members = map<string, set<string>>

  /** The Switches outside `todo` that name a domain, by domain, and those that name none of them. */
  ghost function MembersBut(switches: Switches, domains: Domains, todo: set<string>): Members {
    map v | v in domains :: MembersSoFar(switches, todo, v)
  }

  ghost function MembersSoFar(switches: Switches, todo: set<string>, v: string): set<string> {
    set w | w in switches && w !in todo && switches[w] == v
  }

  lemma MembersOneMore(switches: Switches, domains: Domains, todo: set<string>, w: string)
    requires w in switches && w in todo && "" !in domains
    ensures var v, members := switches[w], MembersBut(switches, domains, todo);
      MembersBut(switches, domains, todo - {w}) == if v in domains then members[v := members[v] + {w}] else members
  {
    forall v
      ensures MembersSoFar(switches, todo - {w}, v) == if switches[w] == v then MembersSoFar(switches, todo, v) + {w}
        else MembersSoFar(switches, todo, v)
    {
    }
  }

  lemma NoMembers(switches: Switches, domains: Domains)
    ensures MembersBut(switches, domains, switches.Keys) == map v | v in domains :: {}
  {
    forall v
      ensures MembersSoFar(switches, switches.Keys, v) == {}
    {
    }
  }

  ghost function PendingBut(switches: Switches, domains: Domains, todo: set<string>): set<string> {
    set w | w in switches && w !in todo && switches[w] != "" && switches[w] !in domains
  }

  /** The loop over the Switches. */
  method AddSwitches(s: Syntax, switches: Switches, domains: Domains)
    returns (r: Result<(Members, set<string>), string>)
    requires "" !in domains
    ensures r.Ok? <==> ValidSwitches(s, switches)
    ensures r.Ok? ==> r.value == (MembersBut(switches, domains, {}), PendingBut(switches, domains, {}))
  {
    var members: Members := map v | v in domains :: {};
    var pending: set<string> := {};
    var todo := switches.Keys;
    NoMembers(switches, domains);
    while todo != {}
      invariant todo <= switches.Keys
        && forall w :: w in switches && w !in todo ==> switches[w] == "" || s.valid(switches[w])
      invariant members == MembersBut(switches, domains, todo) && pending == PendingBut(switches, domains, todo)
      decreases todo
    {
      var w :| w in todo;
      MembersOneMore(switches, domains, todo, w);
      todo := todo - {w};
      var value := switches[w];
      if value != "" {
        if !s.valid(value) {
          return Err(w);
        }
        if value in domains {
          members := members[value := members[value] + {w}];
        } else {
          pending := pending + {w};
        }
      }
    }
    r := Ok((members, pending));
  }

  // ------------------------------------------------------------------------- result

  ghost predicate ParentIs(parents: set<string>, parent: Option<string>) {
    |parents| <= 1 && (parent.Some? ==> parents == {parent.value}) && (parent.None? ==> parents == {})
  }

  /** The parent recorded in a domain state, if any. */
  method SoleParent(parents: set<string>) returns (parent: Option<string>)
    requires |parents| <= 1
    ensures ParentIs(parents, parent)
  {
    if parents == {} {
      return None;
    }
    var p :| p in parents;
    forall q | q in parents
      ensures q == p
    {
      AtMostOne(parents, p, q);
    }
    parent := Some(p);
  }

  ghost predicate Finished(domains: Domains, members: Members, v: string, d: Domain)
    requires v in domains && v in members
  {
    d.tier == domains[v].tier && ParentIs(domains[v].parents, d.parent) && d.members == members[v]
  }

  /** The loop that completes each domain. */
  method FinishDomains(domains: Domains, members: Members) returns (result: map<string, Domain>)
    requires members.Keys == domains.Keys
      && forall v {:trigger domains[v]} :: v in domains ==> |domains[v].parents| <= 1
    ensures result.Keys == domains.Keys
      && forall v {:trigger result[v]} :: v in domains ==> Finished(domains, members, v, result[v])
  {
    result := map[];
    var todo := domains.Keys;
    while todo != {}
      invariant todo <= domains.Keys && result.Keys == domains.Keys - todo
      invariant forall v {:trigger result[v]} :: v in domains && v !in todo ==> Finished(domains, members, v, result[v])
      decreases todo
    {
      var v :| v in todo;
      todo := todo - {v};
      var parent := SoleParent(domains[v].parents);
      result := result[v := Domain(domains[v].tier, parent, members[v])];
    }
  }

  lemma UsedMeansDomain(paths: Paths, domains: Domains, v: string)
    requires TiersFor(paths, domains)
    ensures v in domains <==> Used(paths, v)
  {
    if Used(paths, v) {
      var n, i :| n in paths && At(paths[n], i, v);
    }
  }

  lemma ParentMeansLink(paths: Paths, domains: Domains, v: string, p: string, parent: Option<string>)
    requires ParentsFor(paths, domains) && v in domains && ParentIs(domains[v].parents, parent)
    ensures parent == Some(p) <==> ParentOf(paths, v, p)
  {
    assert p in domains[v].parents <==> ParentOf(paths, v, p);
  }

  lemma DomainsDescribed(paths: Paths, domains: Domains, switches: Switches, members: Members,
                         result: map<string, Domain>)
    requires TiersFor(paths, domains) && ParentsFor(paths, domains)
    requires members == MembersBut(switches, domains, {}) && result.Keys == domains.Keys
    requires forall v {:trigger result[v]} :: v in domains ==> Finished(domains, members, v, result[v])
    ensures DescribesDomains(paths, switches, result)
  {
    forall v | v in result || Used(paths, v)
      ensures v in result <==> Used(paths, v)
    {
      UsedMeansDomain(paths, domains, v);
    }
    forall v, p | v in result
      ensures result[v].parent == Some(p) <==> ParentOf(paths, v, p)
    {
      ParentMeansLink(paths, domains, v, p, result[v].parent);
    }
    forall v | v in result
      ensures result[v].members == MembersOf(switches, v)
    {
      assert MembersSoFar(switches, {}, v) == MembersOf(switches, v);
    }
  }

  lemma PendingIsOrphans(paths: Paths, domains: Domains, switches: Switches)
    requires TiersFor(paths, domains)
    ensures PendingBut(switches, domains, {}) == Orphans(paths, switches)
  {
    forall w | w in switches
      ensures switches[w] in domains <==> Used(paths, switches[w])
    {
      UsedMeansDomain(paths, domains, switches[w]);
    }
  }

  /** The groups in some order; the order only decides which new group gets which number. */
  method ListGroups(filed: Filed, ghost paths: Paths) returns (groups: seq<NodeGroup>)
    requires GroupsFor(paths, filed)
    ensures DescribesGroups(paths, groups)
  {
    groups := [];
    var todo := filed.Keys;
    while todo != {}
      invariant todo <= filed.Keys && Listed(filed, todo, groups)
      decreases todo
    {
      var k :| k in todo;
      ListOneMore(paths, filed, todo, groups, k);
      groups := groups + [filed[k]];
      todo := todo - {k};
    }
    GroupsDescribed(paths, filed, groups);
  }

  /** `groups` holds the groups filed under the keys outside `todo`, each once. */
  ghost predicate Listed(filed: Filed, todo: set<string>, groups: seq<NodeGroup>) {
    && DistinctPaths(groups)
    && (forall i {:trigger groups[i]} :: 0 <= i < |groups| ==>
          var k := PathKey(groups[i].path); k in filed && k !in todo && groups[i] == filed[k])
    && (forall k {:trigger filed[k]} :: k in filed && k !in todo ==> filed[k] in groups)
  }

  lemma ListOneMore(paths: Paths, filed: Filed, todo: set<string>, groups: seq<NodeGroup>, k: string)
    requires GroupsFor(paths, filed) && Listed(filed, todo, groups) && k in todo && k in filed
    ensures Listed(filed, todo - {k}, groups + [filed[k]])
  {
    assert IsGroup(paths, k, filed[k]);
    var more := groups + [filed[k]];
    forall i, j | 0 <= i < j < |more|
      ensures PathKey(more[i].path) != PathKey(more[j].path)
    {
      assert more[i] == groups[i];
    }
  }

  lemma GroupsDescribed(paths: Paths, filed: Filed, groups: seq<NodeGroup>)
    requires GroupsFor(paths, filed) && Listed(filed, {}, groups)
    ensures DescribesGroups(paths, groups)
  {
    forall i | 0 <= i < |groups|
      ensures groups[i].nodes == NodesWith(paths, groups[i].path) && groups[i].nodes != {}
    {
      assert IsGroup(paths, PathKey(groups[i].path), groups[i]);
    }
    forall n | n in paths
      ensures HasGroup(groups, Reverse(paths[n]))
    {
      assert FiledAt(paths, filed, n);
      assert filed[PathKey(Reverse(paths[n]))] in groups;
    }
  }

  lemma NoEmptyDomain(s: Syntax, nodes: Nodes, domains: Domains)
    requires TiersFor(PathsOf(s, nodes), domains)
    ensures "" !in domains
  {
    var paths := PathsOf(s, nodes);
    if "" in domains {
      assert Used(paths, "");
      var n, i :| n in paths && At(paths[n], i, "");
      PathFromIs(s, nodes[n], 1, i);
      assert false;
    }
  }

  /** BuildTopologyStatus. */
  method BuildTopologyStatus(s: Syntax, w: Numbering, nodes: Nodes, switches: Switches, previous: seq<NodeGroup>)
    returns (r: Result<Status, string>)
    requires Lawful(s)
    ensures r.Ok? <==> Acceptable(s, nodes, switches)
    ensures r.Ok? ==> IsStatus(s, w, nodes, switches, previous, r.value)
  {
    var added := AddNodes(s, nodes);
    match added
    case Err(e) => return Err(e);
    case Ok(built) =>
      NoEmptyDomain(s, nodes, built.0);
      var filed := AddSwitches(s, switches, built.0);
      match filed
      case Err(e) => return Err(e);
      case Ok(found) =>
        var domains := FinishDomains(built.0, found.0);
        DomainsDescribed(PathsOf(s, nodes), built.0, switches, found.0, domains);
        PendingIsOrphans(PathsOf(s, nodes), built.0, switches);
        var groups := ListGroups(built.1, PathsOf(s, nodes));
        var named := AssignNodeGroupNames(w, groups, previous);
        r := Ok(Status(domains, named, found.1));
  }

  // -------------------------------------------------------------- what a status means

  lemma NamesKeepGroups(w: Numbering, paths: Paths, previous: seq<NodeGroup>, groups: seq<NodeGroup>, numbers: seq<int>,
                        result: seq<NodeGroup>)
    requires DescribesGroups(paths, groups) && Assigned(w, previous, groups, numbers, result)
    ensures DescribesGroups(paths, result)
  {
    forall i | 0 <= i < |groups|
      ensures result[i].path == groups[i].path && result[i].nodes == groups[i].nodes
    {
      assert NamedWell(w, previous, groups, numbers, result, i);
    }
    forall n | n in paths
      ensures HasGroup(result, Reverse(paths[n]))
    {
      var i :| 0 <= i < |groups| && groups[i].path == Reverse(paths[n]);
      assert result[i].path == Reverse(paths[n]);
    }
  }

  /** The groups of a status partition the labelled Nodes. */
  lemma NodeInOneGroup(paths: Paths, groups: seq<NodeGroup>, n: string) returns (i: nat)
    requires DescribesGroups(paths, groups) && n in paths
    ensures i < |groups| && groups[i].path == Reverse(paths[n])
    ensures forall j :: 0 <= j < |groups| ==> (n in groups[j].nodes <==> j == i)
  {
    assert HasGroup(groups, Reverse(paths[n]));
    i :| 0 <= i < |groups| && groups[i].path == Reverse(paths[n]);
    forall j | 0 <= j < |groups|
      ensures n in groups[j].nodes <==> j == i
    {
      assert groups[j].nodes == NodesWith(paths, groups[j].path);
      var a, b := PathKey(groups[i].path), PathKey(groups[j].path);
      assert groups[i].path == groups[j].path ==> a == b;
    }
  }

  /** The path of a group runs from a domain down through its children. */
  lemma GroupPathFollowsParents(paths: Paths, switches: Switches, domains: map<string, Domain>, groups: seq<NodeGroup>,
                                i: nat, k: nat)
    requires DescribesDomains(paths, switches, domains) && DescribesGroups(paths, groups)
    requires i < |groups| && k < |groups[i].path|
    ensures groups[i].path[k] in domains && domains[groups[i].path[k]].tier == |groups[i].path| - k
    ensures k + 1 < |groups[i].path| ==>
      groups[i].path[k + 1] in domains && domains[groups[i].path[k + 1]].parent == Some(groups[i].path[k])
  {
    var path := groups[i].path;
    assert groups[i].nodes == NodesWith(paths, path);
    var n :| n in groups[i].nodes;
    var up := paths[n];
    ReverseLength(up);
    ReverseIs(up, k);
    assert At(paths[n], |up| - 1 - k, path[k]);
    if k + 1 < |path| {
      ReverseIs(up, k + 1);
      assert At(paths[n], |up| - 2 - k, path[k + 1]);
      assert LinkAt(up, |up| - 2 - k, path[k + 1], path[k]);
      assert Links(paths[n], path[k + 1], path[k]);
      assert ParentOf(paths, path[k + 1], path[k]);
    }
  }

  lemma SameParent(paths: Paths, v: string, p: Option<string>, q: Option<string>)
    requires forall x {:trigger ParentOf(paths, v, x)} :: p == Some(x) <==> ParentOf(paths, v, x)
    requires forall x {:trigger ParentOf(paths, v, x)} :: q == Some(x) <==> ParentOf(paths, v, x)
    ensures p == q
  {
    if p.Some? {
      assert ParentOf(paths, v, p.value);
    }
    if q.Some? {
      assert ParentOf(paths, v, q.value);
    }
  }

  /** Paths and Switch labels determine the domains. */
  lemma DomainsAreDetermined(paths: Paths, switches: Switches, a: map<string, Domain>, b: map<string, Domain>)
    requires DescribesDomains(paths, switches, a) && DescribesDomains(paths, switches, b)
    ensures a == b
  {
    forall v
      ensures v in a <==> v in b
    {
      assert v in a <==> Used(paths, v);
    }
    forall v | v in a
      ensures a[v] == b[v]
    {
      assert Used(paths, v);
      var n, i :| n in paths && At(paths[n], i, v);
      SameParent(paths, v, a[v].parent, b[v].parent);
      assert a[v].members == MembersOf(switches, v);
    }
  }

  lemma SameGroupAgain(w: Numbering, paths: Paths, before: seq<NodeGroup>, groups: seq<NodeGroup>, numbers: seq<int>,
                       after: seq<NodeGroup>, i: nat)
    returns (j: nat)
    requires DescribesGroups(paths, before) && WellNamed(w, before)
    requires DescribesGroups(paths, groups) && Assigned(w, before, groups, numbers, after) && i < |after|
    ensures j < |before| && before[j] == after[i]
  {
    assert NamedWell(w, before, groups, numbers, after, i);
    assert groups[i].nodes == NodesWith(paths, groups[i].path);
    var n :| n in groups[i].nodes;
    assert HasGroup(before, Reverse(paths[n]));
    j :| 0 <= j < |before| && before[j].path == groups[i].path;
    SurvivorKeepsName(w, before, groups, numbers, after, i, j);
  }

  /** Building again from unchanged labels, on one's own output, changes nothing. */
  lemma RebuildChangesNothing(s: Syntax, w: Numbering, nodes: Nodes, switches: Switches, previous: seq<NodeGroup>,
                              first: Status, second: Status)
    requires Lawful(s) && IsStatus(s, w, nodes, switches, previous, first) && WellNamed(w, first.groups)
    requires IsStatus(s, w, nodes, switches, first.groups, second)
    ensures second.domains == first.domains && second.pending == first.pending
    ensures forall g :: g in second.groups <==> g in first.groups
  {
    var paths := PathsOf(s, nodes);
    DomainsAreDetermined(paths, switches, first.domains, second.domains);
    var old0, oldNumbers :| DescribesGroups(paths, old0) && Assigned(w, previous, old0, oldNumbers, first.groups);
    NamesKeepGroups(w, paths, previous, old0, oldNumbers, first.groups);
    var groups, numbers :| DescribesGroups(paths, groups) && Assigned(w, first.groups, groups, numbers, second.groups);
    forall i | 0 <= i < |second.groups|
      ensures second.groups[i] in first.groups
    {
      var j := SameGroupAgain(w, paths, first.groups, groups, numbers, second.groups, i);
    }
    forall j | 0 <= j < |first.groups|
      ensures first.groups[j] in second.groups
    {
      NamesKeepGroups(w, paths, first.groups, groups, numbers, second.groups);
      var i := GroupFound(paths, first.groups, second.groups, j);
      var k := SameGroupAgain(w, paths, first.groups, groups, numbers, second.groups, i);
      assert PathKey(first.groups[k].path) == PathKey(first.groups[j].path);
      assert k == j;
    }
  }

  /** A status continues the history of names of the status it was built on. */
  lemma StatusContinuesHistory(s: Syntax, w: Numbering, nodes: Nodes, switches: Switches, history: seq<seq<NodeGroup>>,
                               status: Status)
    requires LawfulNumbering(w) && IsHistory(w, history) && |history[|history| - 1]| + |status.groups| <= MAX_INT
    requires IsStatus(s, w, nodes, switches, history[|history| - 1], status)
    ensures IsHistory(w, history + [status.groups]) && WellNamed(w, status.groups)
  {
    var longer, previous := history + [status.groups], history[|history| - 1];
    assert Follows(w, previous, status.groups);
    forall i | 0 <= i < |longer| - 1
      ensures Follows(w, longer[i], longer[i + 1])
    {
      if i < |history| - 1 {
        assert Follows(w, history[i], history[i + 1]);
      }
    }
    HistoryIsWellNamed(w, longer, |longer| - 1);
  }

  lemma GroupFound(paths: Paths, some: seq<NodeGroup>, others: seq<NodeGroup>, j: nat) returns (i: nat)
    requires DescribesGroups(paths, some) && DescribesGroups(paths, others) && j < |some|
    ensures i < |others| && others[i].path == some[j].path
  {
    assert some[j].nodes == NodesWith(paths, some[j].path);
    var n :| n in some[j].nodes;
    assert HasGroup(others, Reverse(paths[n]));
    i :| 0 <= i < |others| && others[i].path == some[j].path;
  }
}
