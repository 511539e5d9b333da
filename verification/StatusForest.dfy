/** The part of BuildTopologyStatus that turns Node paths into a domain forest: one tier and
    at most one parent per domain, or a conflict. Paths run from the lowest tier upwards. */
module StatusForest {
  import opened Wrappers
  import opened Decimal

  type Paths = map<string, seq<string>>

  ghost predicate At(path: seq<string>, i: int, v: string) {
    0 <= i < |path| && path[i] == v
  }

  ghost predicate LinkAt(path: seq<string>, i: int, child: string, parent: string) {
    0 <= i < |path| - 1 && path[i] == child && path[i + 1] == parent
  }

  /** The path passes from `child` directly to `parent`. */
  ghost predicate Links(path: seq<string>, child: string, parent: string) {
    exists i :: LinkAt(path, i, child, parent)
  }

  ghost predicate Used(paths: Paths, v: string) {
    exists n, i :: n in paths && At(paths[n], i, v)
  }

  /** Some path passes from `child` directly to `parent`. */
  ghost predicate ParentOf(paths: Paths, child: string, parent: string) {
    exists n :: n in paths && Links(paths[n], child, parent)
  }

  /** A domain lies in one tier of all the paths it occurs in. */
  ghost predicate OneTier(paths: Paths) {
    forall n, m, i, j, v {:trigger At(paths[n], i, v), At(paths[m], j, v)} ::
      n in paths && m in paths && At(paths[n], i, v) && At(paths[m], j, v) ==> i == j
  }

  /** A domain has at most one parent over all paths. */
  ghost predicate OneParent(paths: Paths) {
    forall v, p, q {:trigger ParentOf(paths, v, p), ParentOf(paths, v, q)} ::
      ParentOf(paths, v, p) && ParentOf(paths, v, q) ==> p == q
  }

  /** `some` holds beginnings of the paths in `all`. */
  ghost predicate Beginnings(some: Paths, all: Paths) {
    forall n {:trigger some[n]} :: n in some ==> n in all && some[n] <= all[n]
  }

  lemma UsedIn(some: Paths, all: Paths, m: string, j: int, v: string)
    requires Beginnings(some, all) && m in some && At(some[m], j, v)
    ensures m in all && At(all[m], j, v)
  {
  }

  lemma ParentOfIn(some: Paths, all: Paths, v: string, p: string)
    requires Beginnings(some, all) && ParentOf(some, v, p)
    ensures ParentOf(all, v, p)
  {
    var n :| n in some && Links(some[n], v, p);
    var i :| LinkAt(some[n], i, v, p);
    assert LinkAt(all[n], i, v, p);
  }

  // ----------------------------------------------------------------- domain states

  datatype DomainState = DomainState(tier: int, parents: set<string>)

  type Domains = map<string, DomainState>

  ghost predicate TiersFor(paths: Paths, domains: Domains) {
    && (forall n, i, v {:trigger At(paths[n], i, v)} :: n in paths && At(paths[n], i, v) ==>
          v in domains && domains[v].tier == i + 1)
    && (forall v {:trigger Used(paths, v)} :: v in domains ==> Used(paths, v))
  }

  ghost predicate ParentsFor(paths: Paths, domains: Domains) {
    && (forall v, p {:trigger ParentOf(paths, v, p)} :: ParentOf(paths, v, p) ==>
          v in domains && p in domains[v].parents)
    && (forall v, p {:trigger p in domains[v].parents} :: v in domains && p in domains[v].parents ==>
          ParentOf(paths, v, p))
    && (forall v {:trigger domains[v]} :: v in domains ==> |domains[v].parents| <= 1)
  }

  /** ensureDomain. */
  function EnsureDomain(domains: Domains, name: string, tier: int): Result<Domains, string> {
    if tier > MAX_INT32 then Err(name)
    else if name in domains then (if domains[name].tier != tier then Err(name) else Ok(domains))
    else Ok(domains[name := DomainState(tier, {})])
  }

  /** Only the parents recorded matter to ParentsFor, and EnsureDomain records none. */
  lemma EnsureKeepsParents(paths: Paths, domains: Domains, name: string, tier: int)
    requires ParentsFor(paths, domains) && EnsureDomain(domains, name, tier).Ok?
    ensures ParentsFor(paths, EnsureDomain(domains, name, tier).value)
  {
  }

  lemma AtOneMore(path: seq<string>, i: nat, j: int, v: string)
    requires i < |path|
    ensures At(path[..i + 1], j, v) <==> At(path[..i], j, v) || (j == i && v == path[i])
  {
  }

  lemma EnsureExtendsTiers(paths: Paths, n: string, path: seq<string>, i: nat, domains: Domains)
    requires i < |path| && n !in paths && TiersFor(paths[n := path[..i]], domains)
    requires EnsureDomain(domains, path[i], i + 1).Ok?
    ensures TiersFor(paths[n := path[..i + 1]], EnsureDomain(domains, path[i], i + 1).value)
  {
    var before, after := paths[n := path[..i]], paths[n := path[..i + 1]];
    var next := EnsureDomain(domains, path[i], i + 1).value;
    forall m, j, v | m in after && At(after[m], j, v)
      ensures v in next && next[v].tier == j + 1
    {
      AtOneMore(path, i, j, v);
      if m != n || At(path[..i], j, v) {
        assert At(before[m], j, v);
      }
    }
    forall v | v in next
      ensures Used(after, v)
    {
      if v == path[i] {
        assert At(after[n], i, v);
      } else {
        assert Used(before, v);
        var m, j :| m in before && At(before[m], j, v);
        AtOneMore(path, i, j, v);
        assert At(after[m], j, v);
      }
    }
  }

  lemma TierConflict(paths: Paths, all: Paths, n: string, path: seq<string>, i: nat, domains: Domains)
    requires i < |path| && n !in paths && TiersFor(paths[n := path[..i]], domains) && Beginnings(paths, all)
    requires n in all && all[n] == path
    requires path[i] in domains && domains[path[i]].tier != i + 1
    ensures !OneTier(all)
  {
    var before := paths[n := path[..i]];
    assert Used(before, path[i]);
    var m, j :| m in before && At(before[m], j, path[i]);
    assert Beginnings(before, all);
    UsedIn(before, all, m, j, path[i]);
    assert At(all[n], i, path[i]);
  }

  /** The first loop over the tiers of one Node. */
  method AddDomains(n: string, path: seq<string>, before: Domains, ghost paths: Paths, ghost all: Paths)
    returns (r: Result<Domains, string>)
    requires n !in paths && Beginnings(paths, all) && n in all && all[n] == path
    requires TiersFor(paths, before) && ParentsFor(paths, before)
    ensures r.Ok? ==> TiersFor(paths[n := path], r.value) && ParentsFor(paths, r.value) && |path| <= MAX_INT32
    ensures r.Err? ==> !OneTier(all) || |path| > MAX_INT32
  {
    var domains := before;
    EmptyPathAdds(paths, n, path[..0], domains);
    for i := 0 to |path|
      invariant TiersFor(paths[n := path[..i]], domains) && ParentsFor(paths, domains) && i <= MAX_INT32
    {
      match EnsureDomain(domains, path[i], i + 1)
      case Err(e) =>
        if i + 1 <= MAX_INT32 {
          TierConflict(paths, all, n, path, i, domains);
        }
        return Err(e);
      case Ok(next) =>
        EnsureExtendsTiers(paths, n, path, i, domains);
        EnsureKeepsParents(paths, domains, path[i], i + 1);
        domains := next;
    }
    assert path[..|path|] == path;
    r := Ok(domains);
  }

  lemma EmptyPathAdds(paths: Paths, n: string, path: seq<string>, domains: Domains)
    requires n !in paths && TiersFor(paths, domains) && path == []
    ensures TiersFor(paths[n := path], domains)
  {
    var more := paths[n := path];
    forall m, i, v | m in more && At(more[m], i, v)
      ensures v in domains && domains[v].tier == i + 1
    {
      assert At(paths[m], i, v);
    }
    forall v | v in domains
      ensures Used(more, v)
    {
      assert Used(paths, v);
      var m, i :| m in paths && At(paths[m], i, v);
      assert At(more[m], i, v);
    }
  }

  // ----------------------------------------------------------------------- parents

  lemma LinksOneMore(path: seq<string>, i: nat, v: string, p: string)
    requires i + 1 < |path|
    ensures Links(path[..i + 2], v, p) <==> Links(path[..i + 1], v, p) || (v == path[i] && p == path[i + 1])
  {
    var short, long := path[..i + 1], path[..i + 2];
    if Links(long, v, p) {
      var j :| LinkAt(long, j, v, p);
      assert j < i ==> LinkAt(short, j, v, p);
    }
    if Links(short, v, p) {
      var j :| LinkAt(short, j, v, p);
      assert LinkAt(long, j, v, p);
    }
    if v == path[i] && p == path[i + 1] {
      assert LinkAt(long, i, v, p);
    }
  }

  lemma ParentOfOneMore(paths: Paths, n: string, path: seq<string>, i: nat, v: string, p: string)
    requires i + 1 < |path| && n !in paths
    ensures ParentOf(paths[n := path[..i + 2]], v, p) <==>
      ParentOf(paths[n := path[..i + 1]], v, p) || (v == path[i] && p == path[i + 1])
  {
    LinksOneMore(path, i, v, p);
    var before, after := paths[n := path[..i + 1]], paths[n := path[..i + 2]];
    if ParentOf(before, v, p) {
      var m :| m in before && Links(before[m], v, p);
      assert Links(after[m], v, p);
    }
    if ParentOf(after, v, p) {
      var m :| m in after && Links(after[m], v, p);
      assert before[m] == if m == n then path[..i + 1] else after[m];
      assert Links(before[m], v, p) || (v == path[i] && p == path[i + 1]);
    }
    if v == path[i] && p == path[i + 1] {
      assert Links(after[n], v, p);
    }
  }

  function AddParent(domains: Domains, child: string, parent: string): Domains
    requires child in domains
  {
    domains[child := domains[child].(parents := domains[child].parents + {parent})]
  }

  lemma AddParentKeepsTiers(paths: Paths, domains: Domains, child: string, parent: string)
    requires TiersFor(paths, domains) && child in domains
    ensures TiersFor(paths, AddParent(domains, child, parent))
  {
  }

  lemma AddParentExtends(paths: Paths, n: string, path: seq<string>, i: nat, domains: Domains)
    requires i + 1 < |path| && n !in paths && path[i] in domains
    requires ParentsFor(paths[n := path[..i + 1]], domains)
    requires |AddParent(domains, path[i], path[i + 1])[path[i]].parents| <= 1
    ensures ParentsFor(paths[n := path[..i + 2]], AddParent(domains, path[i], path[i + 1]))
  {
    var before, after := paths[n := path[..i + 1]], paths[n := path[..i + 2]];
    var next := AddParent(domains, path[i], path[i + 1]);
    forall v, p
      ensures ParentOf(after, v, p) <==> ParentOf(before, v, p) || (v == path[i] && p == path[i + 1])
    {
      ParentOfOneMore(paths, n, path, i, v, p);
    }
    forall v, p | v in next && p in next[v].parents
      ensures ParentOf(after, v, p)
    {
      if !(v == path[i] && p == path[i + 1]) {
        assert p in domains[v].parents;
      }
    }
    forall v, p | ParentOf(after, v, p)
      ensures v in next && p in next[v].parents
    {
      if !(v == path[i] && p == path[i + 1]) {
        assert ParentOf(before, v, p);
      }
    }
    forall v | v in next
      ensures |next[v].parents| <= 1
    {
      if v != path[i] {
        assert next[v] == domains[v];
      }
    }
  }

  lemma ParentConflict(paths: Paths, all: Paths, n: string, path: seq<string>, i: nat, domains: Domains)
    requires i + 1 < |path| && n !in paths && path[i] in domains && Beginnings(paths, all) && n in all && all[n] == path
    requires ParentsFor(paths[n := path[..i + 1]], domains)
    requires |AddParent(domains, path[i], path[i + 1])[path[i]].parents| > 1
    ensures !OneParent(all)
  {
    var before, v, p := paths[n := path[..i + 1]], path[i], path[i + 1];
    AnotherElement(domains[v].parents, p);
    var q :| q in domains[v].parents && q != p;
    assert ParentOf(before, v, q);
    assert Beginnings(before, all);
    ParentOfIn(before, all, v, q);
    assert LinkAt(all[n], i, v, p);
    assert ParentOf(all, v, p);
  }

  lemma AnotherElement(s: set<string>, p: string)
    requires |s + {p}| > 1
    ensures exists q :: q in s && q != p
  {
    assert |s + {p} - {p}| >= 1;
    var q :| q in s + {p} - {p};
  }

  /** The second loop over the tiers of one Node. */
  method AddParents(n: string, path: seq<string>, before: Domains, ghost paths: Paths, ghost all: Paths)
    returns (r: Result<Domains, string>)
    requires n !in paths && Beginnings(paths, all) && n in all && all[n] == path && path != []
    requires TiersFor(paths[n := path], before) && ParentsFor(paths, before)
    ensures r.Ok? ==> TiersFor(paths[n := path], r.value) && ParentsFor(paths[n := path], r.value)
    ensures r.Err? ==> !OneParent(all)
  {
    var domains := before;
    SingletonHasNoLinks(paths, n, path[..1], domains);
    for i := 0 to |path| - 1
      invariant TiersFor(paths[n := path], domains) && ParentsFor(paths[n := path[..i + 1]], domains)
    {
      PathIsUsed(paths, n, path, domains, i);
      var next := AddParent(domains, path[i], path[i + 1]);
      if |next[path[i]].parents| > 1 {
        ParentConflict(paths, all, n, path, i, domains);
        return Err(path[i]);
      }
      AddParentExtends(paths, n, path, i, domains);
      AddParentKeepsTiers(paths[n := path], domains, path[i], path[i + 1]);
      domains := next;
    }
    assert path[..|path|] == path;
    r := Ok(domains);
  }

  lemma PathIsUsed(paths: Paths, n: string, path: seq<string>, domains: Domains, i: nat)
    requires TiersFor(paths[n := path], domains) && i < |path|
    ensures path[i] in domains && domains[path[i]].tier == i + 1
  {
    assert At(paths[n := path][n], i, path[i]);
  }

  lemma SingletonHasNoLinks(paths: Paths, n: string, path: seq<string>, domains: Domains)
    requires n !in paths && |path| == 1 && ParentsFor(paths, domains)
    ensures ParentsFor(paths[n := path], domains)
  {
    var more := paths[n := path];
    forall v, p
      ensures ParentOf(more, v, p) <==> ParentOf(paths, v, p)
    {
      if ParentOf(more, v, p) {
        var m :| m in more && Links(more[m], v, p);
        assert Links(paths[m], v, p);
      }
      if ParentOf(paths, v, p) {
        var m :| m in paths && Links(paths[m], v, p);
        assert Links(more[m], v, p);
      }
    }
  }

  /** The domains of all paths exist exactly when the paths form a forest. */
  lemma DomainsMeanForest(paths: Paths, domains: Domains)
    requires TiersFor(paths, domains) && ParentsFor(paths, domains)
    ensures OneTier(paths) && OneParent(paths)
  {
    forall v, p, q | ParentOf(paths, v, p) && ParentOf(paths, v, q)
      ensures p == q
    {
      assert |domains[v].parents| <= 1;
      AtMostOne(domains[v].parents, p, q);
    }
  }

  lemma AtMostOne(s: set<string>, p: string, q: string)
    requires |s| <= 1 && p in s && q in s
    ensures p == q
  {
    assert |s - {p}| == 0;
    assert q !in s - {p};
  }
}
