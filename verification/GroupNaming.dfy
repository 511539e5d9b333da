/** GenerateGroupName joins the sorted member names with dashes and then appends a suffix or
    takes a hash. Two groups get one name exactly when their member names, cut at the dashes,
    are the same pieces or the hash of their joins collides. */
module GroupNaming {
  import opened Joining
  import opened Graph
  import opened TopologySpec
  import opened Discovery
  import opened Grouping
  import opened ParentIndex
  import opened BuildTopology
  import opened Pipeline

  const DASH: char := '-'

  /** The order of sort.Strings. */
  predicate Before(x: string, y: string) {
    y != "" && (x == "" || x[0] < y[0] || (x[0] == y[0] && Before(x[1..], y[1..])))
  }

  /** A sorted listing of every set of names. */
  ghost predicate Sorts(sort: set<string> -> seq<string>) {
    forall s {:trigger sort(s)} ::
      && |sort(s)| == |s| && (forall x :: x in s <==> x in sort(s))
      && (forall i, j :: 0 <= i < j < |sort(s)| ==> Before(sort(s)[i], sort(s)[j]))
  }

  /** What becomes of the joined names: a suffix, or a hash. */
  type Finish = string -> string

  function AppendGroup(): Finish {
    base => base + "-group"
  }

  /** The digest of GenerateGroupName. */
  function Naming(finish: Finish, sort: set<string> -> seq<string>): set<string> -> string {
    s => finish(Join(sort(s), DASH))
  }

  /** The pieces that the names of a group fall into. */
  ghost function PiecesOf(sort: set<string> -> seq<string>, s: set<string>): seq<string> {
    Pieces(sort(s), DASH)
  }

  lemma SortedIsNotEmpty(sort: set<string> -> seq<string>, s: set<string>)
    requires Sorts(sort) && s != {}
    ensures sort(s) != []
  {
    assert |sort(s)| == |s|;
  }

  /** Different joins that come out alike. */
  ghost predicate Collides(finish: Finish, sort: set<string> -> seq<string>, a: set<string>, b: set<string>) {
    var (x, y) := (Join(sort(a), DASH), Join(sort(b), DASH));
    x != y && finish(x) == finish(y)
  }

  lemma SuffixNeverCollides(sort: set<string> -> seq<string>, a: set<string>, b: set<string>)
    ensures !Collides(AppendGroup(), sort, a, b)
  {
    var x, y := Join(sort(a), DASH), Join(sort(b), DASH);
    if x + "-group" == y + "-group" {
      assert x == (x + "-group")[..|x|] && y == (y + "-group")[..|x|];
    }
  }

  /** Two groups of several members get one name if and only if their pieces are the same or
      their joins collide. */
  lemma NamesEqualIffPieces(finish: Finish, sort: set<string> -> seq<string>, a: set<string>, b: set<string>)
    requires Sorts(sort) && a != {} && b != {}
    ensures Naming(finish, sort)(a) == Naming(finish, sort)(b) <==>
      PiecesOf(sort, a) == PiecesOf(sort, b) || Collides(finish, sort, a, b)
  {
    SortedIsNotEmpty(sort, a);
    SortedIsNotEmpty(sort, b);
    JoinsEqualIffPieces(sort(a), sort(b), DASH);
  }

  /** Different sets of several names fall into different pieces. */
  ghost predicate PiecesTellApart(sort: set<string> -> seq<string>, names: set<string>) {
    forall a, b {:trigger PiecesOf(sort, a), PiecesOf(sort, b)} ::
      a <= names && b <= names && |a| > 1 && |b| > 1 && PiecesOf(sort, a) == PiecesOf(sort, b) ==> a == b
  }

  ghost predicate NoNameIsDigest(digest: set<string> -> string, names: set<string>) {
    forall a {:trigger digest(a)} :: a <= names && |a| > 1 ==> digest(a) !in names
  }

  /** No joins of several of the names collide. */
  ghost predicate NoneCollide(finish: Finish, sort: set<string> -> seq<string>, names: set<string>) {
    forall a, b {:trigger Collides(finish, sort, a, b)} ::
      a <= names && b <= names && |a| > 1 && |b| > 1 ==> !Collides(finish, sort, a, b)
  }

  /** Names are ideal exactly when pieces tell the sets apart, no joins collide and no set is
      called like a device. */
  lemma IdealIffPieces(finish: Finish, sort: set<string> -> seq<string>, names: set<string>)
    requires Sorts(sort)
    ensures Ideal(Naming(finish, sort), names) <==>
      && PiecesTellApart(sort, names) && NoneCollide(finish, sort, names)
      && NoNameIsDigest(Naming(finish, sort), names)
  {
    var digest := Naming(finish, sort);
    forall a, b | a <= names && b <= names && |a| > 1 && |b| > 1
      ensures digest(a) == digest(b) <==> PiecesOf(sort, a) == PiecesOf(sort, b) || Collides(finish, sort, a, b)
    {
      NamesEqualIffPieces(finish, sort, a, b);
    }
    if Ideal(digest, names) {
      forall a, b | a <= names && b <= names && |a| > 1 && |b| > 1
        ensures !Collides(finish, sort, a, b)
        ensures PiecesOf(sort, a) == PiecesOf(sort, b) ==> a == b
      {
        assert digest(a) == digest(b) ==> a == b;
      }
    }
  }

  /** With the suffix, a group is called like a device exactly when the pieces of the device
      are those of the group and then "group". */
  lemma SuffixedNameIsDevice(sort: set<string> -> seq<string>, a: set<string>, n: string)
    requires Sorts(sort) && a != {}
    ensures Naming(AppendGroup(), sort)(a) == n <==> Split(n, DASH) == PiecesOf(sort, a) + ["group"]
  {
    SortedIsNotEmpty(sort, a);
    var base := Join(sort(a), DASH);
    SplitOfJoin(sort(a), DASH);
    SplitOfConcat(base, "group", DASH);
    assert base + [DASH] + "group" == base + "-group";
    SplitOfWhole("group", DASH);
    JoinOfSplit(n, DASH);
    JoinOfSplit(base + "-group", DASH);
  }

  /** Sets of names without dashes fall into different pieces. */
  lemma DashFreePieces(sort: set<string> -> seq<string>, a: set<string>, b: set<string>)
    requires Sorts(sort) && (forall n :: n in a + b ==> Lacks(n, DASH)) && PiecesOf(sort, a) == PiecesOf(sort, b)
    ensures a == b
  {
    assert forall i :: 0 <= i < |sort(a)| ==> sort(a)[i] in a;
    assert forall i :: 0 <= i < |sort(b)| ==> sort(b)[i] in b;
    PiecesOfWhole(sort(a), DASH);
    PiecesOfWhole(sort(b), DASH);
    assert forall x :: x in a <==> x in b;
  }

  /** Without dashes in device names, joined names are ideal unless a hash collides. */
  lemma DashFreeNamesAreIdeal(finish: Finish, sort: set<string> -> seq<string>, names: set<string>)
    requires Sorts(sort) && NoneCollide(finish, sort, names) && NoNameIsDigest(Naming(finish, sort), names)
    requires forall n :: n in names ==> Lacks(n, DASH)
    ensures Ideal(Naming(finish, sort), names)
  {
    forall a, b | a <= names && b <= names && |a| > 1 && |b| > 1 && PiecesOf(sort, a) == PiecesOf(sort, b)
      ensures a == b
    {
      DashFreePieces(sort, a, b);
    }
    IdealIffPieces(finish, sort, names);
  }

  lemma DashFreeSuffixIsNoDevice(sort: set<string> -> seq<string>, names: set<string>)
    requires Sorts(sort) && forall n :: n in names ==> Lacks(n, DASH)
    ensures NoNameIsDigest(Naming(AppendGroup(), sort), names)
  {
    forall a | a <= names && |a| > 1
      ensures Naming(AppendGroup(), sort)(a) !in names
    {
      var j := Join(sort(a), DASH);
      assert (j + "-group")[|j|] == DASH;
    }
  }

  /** With the suffix, names without dashes are all it takes. */
  lemma DashFreeSuffixIsIdeal(sort: set<string> -> seq<string>, names: set<string>)
    requires Sorts(sort) && forall n :: n in names ==> Lacks(n, DASH)
    ensures Ideal(Naming(AppendGroup(), sort), names)
  {
    forall a, b
      ensures !Collides(AppendGroup(), sort, a, b)
    {
      SuffixNeverCollides(sort, a, b);
    }
    DashFreeSuffixIsNoDevice(sort, names);
    DashFreeNamesAreIdeal(AppendGroup(), sort, names);
  }

  // ---------------------------------------------------------- the condition, graph by graph

  ghost function MembersOf(devices: Devices, adj: Adjacency, d: string): set<string>
    requires d in devices
  {
    ComponentAt(devices, adj, devices[d].tier, d)
  }

  /** `d` lies in a group of several switches. */
  ghost predicate InCrowd(devices: Devices, adj: Adjacency, d: string) {
    d in devices && devices[d].tier >= 1 && |MembersOf(devices, adj, d)| > 1
  }

  ghost predicate SamePieces(sort: set<string> -> seq<string>, devices: Devices, adj: Adjacency, d: string, e: string) {
    && InCrowd(devices, adj, d) && InCrowd(devices, adj, e)
    && PiecesOf(sort, MembersOf(devices, adj, d)) == PiecesOf(sort, MembersOf(devices, adj, e))
  }

  ghost predicate CrowdsCollide(finish: Finish, sort: set<string> -> seq<string>, devices: Devices, adj: Adjacency,
                                d: string, e: string) {
    && InCrowd(devices, adj, d) && InCrowd(devices, adj, e)
    && Collides(finish, sort, MembersOf(devices, adj, d), MembersOf(devices, adj, e))
  }

  /** The groups of several members in this graph fall into different pieces, their joins do not
      collide, and none is called like a device. */
  ghost predicate GroupsTellApart(finish: Finish, sort: set<string> -> seq<string>, devices: Devices, adj: Adjacency) {
    && (forall d, e {:trigger SamePieces(sort, devices, adj, d, e)} ::
          SamePieces(sort, devices, adj, d, e) ==> MembersOf(devices, adj, d) == MembersOf(devices, adj, e))
    && (forall d, e {:trigger CrowdsCollide(finish, sort, devices, adj, d, e)} ::
          !CrowdsCollide(finish, sort, devices, adj, d, e))
    && (forall d {:trigger InCrowd(devices, adj, d)} ::
          InCrowd(devices, adj, d) ==> Naming(finish, sort)(MembersOf(devices, adj, d)) !in devices)
  }

  lemma NameIdentifiesSet(digest: set<string> -> string, names: set<string>, a: set<string>, b: set<string>)
    requires a != {} && b != {} && a <= names && b <= names && GroupName(a, digest) == GroupName(b, digest)
    requires (|a| > 1 ==> digest(a) !in names) && (|b| > 1 ==> digest(b) !in names)
    requires |a| > 1 && |b| > 1 && digest(a) == digest(b) ==> a == b
    ensures a == b
  {
  }

  lemma OneNameOneGroup(finish: Finish, sort: set<string> -> seq<string>, devices: Devices, adj: Adjacency, d: string,
                        e: string)
    requires Layered(devices, adj) && Sorts(sort) && GroupsTellApart(finish, sort, devices, adj)
    requires SameName(devices, adj, Naming(finish, sort), d, e) && devices[d].tier >= 1 && devices[e].tier >= 1
    ensures MembersOf(devices, adj, d) == MembersOf(devices, adj, e)
  {
    var a, b := MembersOf(devices, adj, d), MembersOf(devices, adj, e);
    InOwnGroup(devices, adj, Naming(finish, sort), d);
    InOwnGroup(devices, adj, Naming(finish, sort), e);
    NamesEqualIffPieces(finish, sort, a, b);
    assert |a| > 1 ==> InCrowd(devices, adj, d);
    assert |b| > 1 ==> InCrowd(devices, adj, e);
    assert |a| > 1 && |b| > 1 && PiecesOf(sort, a) == PiecesOf(sort, b) ==> SamePieces(sort, devices, adj, d, e);
    assert |a| > 1 && |b| > 1 ==> !CrowdsCollide(finish, sort, devices, adj, d, e);
    NameIdentifiesSet(Naming(finish, sort), devices.Keys, a, b);
  }

  lemma DeviceNameIsAlone(finish: Finish, sort: set<string> -> seq<string>, devices: Devices, adj: Adjacency, d: string)
    requires Layered(devices, adj) && GroupsTellApart(finish, sort, devices, adj)
    requires d in devices && devices[d].tier >= 1 && GroupOf(devices, adj, Naming(finish, sort), d).name in devices
    ensures GroupOf(devices, adj, Naming(finish, sort), d).members ==
      {GroupOf(devices, adj, Naming(finish, sort), d).name}
  {
    InOwnGroup(devices, adj, Naming(finish, sort), d);
    assert !InCrowd(devices, adj, d);
    assert MembersOf(devices, adj, d) != {};
  }

  lemma ApartIsUnambiguous(finish: Finish, sort: set<string> -> seq<string>, devices: Devices, adj: Adjacency)
    requires Layered(devices, adj) && Sorts(sort) && GroupsTellApart(finish, sort, devices, adj)
    ensures UnambiguousNames(devices, adj, Naming(finish, sort))
  {
    var digest := Naming(finish, sort);
    forall d, e | SameName(devices, adj, digest, d, e) && devices[d].tier >= 1 && devices[e].tier >= 1
      ensures GroupOf(devices, adj, digest, d).members == GroupOf(devices, adj, digest, e).members
    {
      OneNameOneGroup(finish, sort, devices, adj, d, e);
    }
    forall d | d in devices && devices[d].tier >= 1 && GroupOf(devices, adj, digest, d).name in devices
      ensures GroupOf(devices, adj, digest, d).members == {GroupOf(devices, adj, digest, d).name}
    {
      DeviceNameIsAlone(finish, sort, devices, adj, d);
    }
  }

  lemma SamePiecesSameName(finish: Finish, sort: set<string> -> seq<string>, devices: Devices, adj: Adjacency,
                           d: string, e: string)
    requires Layered(devices, adj) && Sorts(sort) && DistinctGroupNames(devices, adj, Naming(finish, sort))
    requires SamePieces(sort, devices, adj, d, e)
    ensures MembersOf(devices, adj, d) == MembersOf(devices, adj, e)
  {
    NamesEqualIffPieces(finish, sort, MembersOf(devices, adj, d), MembersOf(devices, adj, e));
    assert SameName(devices, adj, Naming(finish, sort), d, e);
  }

  lemma DistinctNamesDoNotCollide(finish: Finish, sort: set<string> -> seq<string>, devices: Devices, adj: Adjacency,
                                  d: string, e: string)
    requires DistinctGroupNames(devices, adj, Naming(finish, sort))
    ensures !CrowdsCollide(finish, sort, devices, adj, d, e)
  {
    if CrowdsCollide(finish, sort, devices, adj, d, e) {
      assert SameName(devices, adj, Naming(finish, sort), d, e);
    }
  }

  lemma CrowdIsNoDevice(devices: Devices, adj: Adjacency, digest: set<string> -> string, d: string)
    requires NoDeviceClash(devices, adj, digest) && InCrowd(devices, adj, d)
    ensures digest(MembersOf(devices, adj, d)) !in devices
  {
    assert GroupOf(devices, adj, digest, d).members == MembersOf(devices, adj, d);
  }

  lemma UnambiguousIsApart(finish: Finish, sort: set<string> -> seq<string>, devices: Devices, adj: Adjacency)
    requires Layered(devices, adj) && Sorts(sort) && UnambiguousNames(devices, adj, Naming(finish, sort))
    ensures GroupsTellApart(finish, sort, devices, adj)
  {
    forall d, e | SamePieces(sort, devices, adj, d, e)
      ensures MembersOf(devices, adj, d) == MembersOf(devices, adj, e)
    {
      SamePiecesSameName(finish, sort, devices, adj, d, e);
    }
    forall d, e
      ensures !CrowdsCollide(finish, sort, devices, adj, d, e)
    {
      DistinctNamesDoNotCollide(finish, sort, devices, adj, d, e);
    }
    forall d | InCrowd(devices, adj, d)
      ensures Naming(finish, sort)(MembersOf(devices, adj, d)) !in devices
    {
      CrowdIsNoDevice(devices, adj, Naming(finish, sort), d);
    }
  }

  /** The exact condition for the names of one graph to be unambiguous. */
  lemma UnambiguousIffPieces(finish: Finish, sort: set<string> -> seq<string>, devices: Devices, adj: Adjacency)
    requires Layered(devices, adj) && Sorts(sort)
    ensures UnambiguousNames(devices, adj, Naming(finish, sort)) <==> GroupsTellApart(finish, sort, devices, adj)
  {
    if GroupsTellApart(finish, sort, devices, adj) {
      ApartIsUnambiguous(finish, sort, devices, adj);
    }
    if UnambiguousNames(devices, adj, Naming(finish, sort)) {
      UnambiguousIsApart(finish, sort, devices, adj);
    }
  }

  /** What the whole run asks of the names, in terms of the pieces of the groups it discovers. */
  lemma RunNamesIffPieces(finish: Finish, sort: set<string> -> seq<string>, hosts: set<string>,
                          reports: seq<SwitchReport>)
    requires Sorts(sort)
    ensures NamesTellApart(hosts, reports, Naming(finish, sort)) <==>
      forall devices, adj {:trigger DiscoveryGraph(hosts, reports, devices, adj)} ::
        DiscoveryGraph(hosts, reports, devices, adj) ==> GroupsTellApart(finish, sort, devices, adj)
  {
    forall devices, adj | DiscoveryGraph(hosts, reports, devices, adj)
      ensures UnambiguousNames(devices, adj, Naming(finish, sort)) <==> GroupsTellApart(finish, sort, devices, adj)
    {
      UnambiguousIffPieces(finish, sort, devices, adj);
    }
  }

  /** Without dashes in device names, a graph has unambiguous names if and only if no joins of its
      groups collide and none of these is called like a device. */
  lemma DashFreeGraph(finish: Finish, sort: set<string> -> seq<string>, devices: Devices, adj: Adjacency)
    requires Layered(devices, adj) && Sorts(sort) && forall n :: n in devices ==> Lacks(n, DASH)
    ensures UnambiguousNames(devices, adj, Naming(finish, sort)) <==>
      && (forall d, e {:trigger CrowdsCollide(finish, sort, devices, adj, d, e)} ::
            !CrowdsCollide(finish, sort, devices, adj, d, e))
      && (forall d {:trigger InCrowd(devices, adj, d)} ::
            InCrowd(devices, adj, d) ==> Naming(finish, sort)(MembersOf(devices, adj, d)) !in devices)
  {
    forall d, e | SamePieces(sort, devices, adj, d, e)
      ensures MembersOf(devices, adj, d) == MembersOf(devices, adj, e)
    {
      DashFreePieces(sort, MembersOf(devices, adj, d), MembersOf(devices, adj, e));
    }
    UnambiguousIffPieces(finish, sort, devices, adj);
  }

  // ------------------------------------------------------------------ a clash in one graph

  lemma SortOfPair(sort: set<string> -> seq<string>, x: string, y: string)
    requires Sorts(sort) && Before(x, y) && x != y && !Before(y, x)
    ensures sort({x, y}) == [x, y]
  {
    var s := sort({x, y});
    assert |{x, y}| == 2;
    assert x in s && y in s && s[0] in {x, y} && s[1] in {x, y};
    assert Before(s[0], s[1]);
  }

  lemma {:induction false} BeforeIsStrict(x: string, y: string)
    requires Before(x, y)
    ensures !Before(y, x) && x != y
    decreases |x|
  {
    if x != "" && x[0] == y[0] {
      BeforeIsStrict(x[1..], y[1..]);
    }
  }

  /** The dash may belong to either neighbour. */
  lemma DashMovesBetweenPieces(sort: set<string> -> seq<string>, a: string, b: string, c: string)
    requires Sorts(sort) && Before(a, b + "-" + c) && Before(a + "-" + b, c)
    ensures PiecesOf(sort, {a, b + "-" + c}) == PiecesOf(sort, {a + "-" + b, c})
  {
    var bc, ab := b + "-" + c, a + "-" + b;
    BeforeIsStrict(a, bc);
    BeforeIsStrict(ab, c);
    SortOfPair(sort, a, bc);
    SortOfPair(sort, ab, c);
    assert bc == b + [DASH] + c && ab == a + [DASH] + b;
    SplitOfConcat(b, c, DASH);
    SplitOfConcat(a, b, DASH);
    PiecesOfPair(a, bc);
    PiecesOfPair(ab, c);
  }

  lemma PiecesOfPair(x: string, y: string)
    ensures Pieces([x, y], DASH) == Split(x, DASH) + Split(y, DASH)
  {
    assert [x, y][1..] == [y] && [y][1..] == [];
    assert Pieces([], DASH) == [] && Pieces([y], DASH) == Split(y, DASH);
  }

  /** A switch that sees one host. */
  function Leaf(name: string, host: string): SwitchReport {
    SwitchReport(name, [Neighbor(name, host)])
  }

  /** Two pairs of leaves, each pair under a host of its own. */
  ghost predicate TwoPairs(reports: seq<SwitchReport>, h: string, u: string, v: string, k: string, x: string,
                           y: string) {
    |reports| == 4 && reports[0] == Leaf(u, h) && reports[1] == Leaf(v, h) && reports[2] == Leaf(x, k)
      && reports[3] == Leaf(y, k)
  }

  ghost predicate AllDiffer(h: string, u: string, v: string, k: string, x: string, y: string) {
    && h != "" && k != "" && h != k && h != u && h != v && h != x && h != y && k != u && k != v && k != x && k != y
    && u != v && u != x && u != y && v != x && v != y && x != y
  }

  lemma LeafLink(devices: Devices, name: string, host: string)
    requires host != "" && host in devices
    ensures LinksOf(devices, Leaf(name, host), 1) == {(name, host)}
  {
    assert Leaf(name, host).neighbors[0] == Neighbor(name, host);
  }

  lemma TwoPairsLinks(devices: Devices, reports: seq<SwitchReport>, h: string, u: string, v: string, k: string,
                      x: string, y: string)
    requires TwoPairs(reports, h, u, v, k, x, y) && h != "" && h in devices && k != "" && k in devices
    ensures Links(devices, reports, |reports|) == {(u, h), (v, h), (x, k), (y, k)}
  {
    LeafLink(devices, u, h);
    LeafLink(devices, v, h);
    LeafLink(devices, x, k);
    LeafLink(devices, y, k);
    assert Links(devices, reports, 1) == {(u, h)};
    assert Links(devices, reports, 2) == {(u, h), (v, h)};
    assert Links(devices, reports, 3) == {(u, h), (v, h), (x, k)};
  }

  ghost predicate PairUnder(devices: Devices, adj: Adjacency, h: string, u: string, v: string) {
    && h in devices && u in devices && v in devices && devices[h].tier == 0 && devices[u].tier == 1
       && devices[v].tier == 1
    && h in adj && u in adj && v in adj && adj[h] == {u, v} && adj[u] == {h} && adj[v] == {h}
  }

  lemma PairIsComponent(devices: Devices, adj: Adjacency, h: string, u: string, v: string)
    requires Layered(devices, adj) && PairUnder(devices, adj, h, u, v)
    ensures ComponentAt(devices, adj, 1, u) == {u, v}
  {
    LinkedUpToSelf(devices, adj, 1, u);
    LinkedUpToEdge(devices, adj, 1, u, h);
    LinkedUpToEdge(devices, adj, 1, h, v);
    LinkedUpToTrans(devices, adj, 1, u, h, v);
    forall b | LinkedUpTo(devices, adj, 1, u, b)
      ensures b in {h, u, v}
    {
      LinkedStaysInside(adj, UpTo(devices, 1), {h, u, v}, u, b);
    }
  }

  /** Two leaves under one host, linked to nothing else, are one group. */
  lemma PairIsGroup(devices: Devices, adj: Adjacency, digest: set<string> -> string, h: string, u: string, v: string)
    requires Layered(devices, adj) && PairUnder(devices, adj, h, u, v)
    ensures GroupOf(devices, adj, digest, u).members == {u, v} && GroupOf(devices, adj, digest, v).members == {u, v}
  {
    assert {v, u} == {u, v};
    PairIsComponent(devices, adj, h, u, v);
    PairIsComponent(devices, adj, h, v, u);
  }

  lemma TwoPairsNames(reports: seq<SwitchReport>, h: string, u: string, v: string, k: string, x: string, y: string)
    requires TwoPairs(reports, h, u, v, k, x, y) && AllDiffer(h, u, v, k, x, y)
    ensures u in Discovery.SwitchNames(reports) && v in Discovery.SwitchNames(reports)
      && h !in Discovery.SwitchNames(reports)
    ensures x in Discovery.SwitchNames(reports) && y in Discovery.SwitchNames(reports)
      && k !in Discovery.SwitchNames(reports)
  {
    assert reports[0].name == u && reports[1].name == v && reports[2].name == x && reports[3].name == y;
  }

  /** The links of `u` and `v` to `h` are the only links of the three. */
  ghost predicate OnlyLinks(links: set<(string, string)>, h: string, u: string, v: string) {
    && h != u && h != v && (u, h) in links && (v, h) in links
    && (forall l {:trigger l in links} ::
          l in links && (l.0 == h || l.0 == u || l.0 == v || l.1 == h || l.1 == u || l.1 == v) ==>
          l.1 == h && (l.0 == u || l.0 == v))
  }

  lemma PairLinks(names: set<string>, links: set<(string, string)>, h: string, u: string, v: string)
    requires h in names && u in names && v in names && OnlyLinks(links, h, u, v)
    ensures var adj := Undirected(names, links); adj[h] == {u, v} && adj[u] == {h} && adj[v] == {h}
  {
  }

  /** Leaves under a host are of tier 1, and their links stay. */
  lemma PairStays(devices: Devices, links: Adjacency, h: string, u: string, v: string)
    requires WellShaped(devices, links) && h in devices && u in devices && v in devices
    requires devices[h].kind.Host? && devices[h].tier == 0 && devices[u].kind.Switch? && devices[v].kind.Switch?
    requires links[h] == {u, v} && links[u] == {h} && links[v] == {h}
    requires IsHostDistance(devices, links, u, devices[u].tier) && IsHostDistance(devices, links, v, devices[v].tier)
    ensures PairUnder(devices, AdjacentTierEdges(devices, links), h, u, v)
  {
    NextToHostIsTierOne(devices, links, u, h);
    NextToHostIsTierOne(devices, links, v, h);
  }

  lemma PairInGraph(hosts: set<string>, reports: seq<SwitchReport>, devices: Devices, adj: Adjacency, h: string,
                    u: string, v: string)
    requires DiscoveryGraph(hosts, reports, devices, adj) && OnlyLinks(Links(devices, reports, |reports|), h, u, v)
    requires h in hosts && h !in Discovery.SwitchNames(reports) && u in Discovery.SwitchNames(reports)
      && v in Discovery.SwitchNames(reports)
    ensures PairUnder(devices, adj, h, u, v)
  {
    PairLinks(devices.Keys, Links(devices, reports, |reports|), h, u, v);
    ReportedLinksAreWellShaped(devices, reports);
    PairStays(devices, ReportedLinks(devices, reports), h, u, v);
  }

  lemma TwoPairsTouch(links: set<(string, string)>, h: string, u: string, v: string, k: string, x: string, y: string)
    requires links == {(u, h), (v, h), (x, k), (y, k)} && AllDiffer(h, u, v, k, x, y)
    ensures OnlyLinks(links, h, u, v) && OnlyLinks(links, k, x, y)
  {
  }

  lemma TwoPairsGraph(reports: seq<SwitchReport>, h: string, u: string, v: string, k: string, x: string, y: string,
                      devices: Devices, adj: Adjacency)
    requires TwoPairs(reports, h, u, v, k, x, y) && AllDiffer(h, u, v, k, x, y)
      && DiscoveryGraph({h, k}, reports, devices, adj)
    ensures PairUnder(devices, adj, h, u, v) && PairUnder(devices, adj, k, x, y)
  {
    TwoPairsNames(reports, h, u, v, k, x, y);
    TwoPairsLinks(devices, reports, h, u, v, k, x, y);
    TwoPairsTouch(Links(devices, reports, |reports|), h, u, v, k, x, y);
    PairInGraph({h, k}, reports, devices, adj, h, u, v);
    PairInGraph({h, k}, reports, devices, adj, k, x, y);
  }

  /** Two sorted pairs that differ in which side of a dash `b` is on. */
  ghost predicate Shifted(a: string, b: string, c: string, ab: string, bc: string) {
    ab == a + "-" + b && bc == b + "-" + c && Before(a, bc) && Before(ab, c)
  }

  /** Two groups of one discovered graph get one name, with the suffix and with any hash. */
  lemma DashesMakeNamesClash(finish: Finish, sort: set<string> -> seq<string>, h: string, k: string, a: string,
                             b: string, c: string,
                             ab: string, bc: string, reports: seq<SwitchReport>, devices: Devices, adj: Adjacency)
    requires Sorts(sort) && Shifted(a, b, c, ab, bc) && AllDiffer(h, a, bc, k, ab, c)
    requires TwoPairs(reports, h, a, bc, k, ab, c) && DiscoveryGraph({h, k}, reports, devices, adj)
    ensures a in devices && c in devices
    ensures GroupOf(devices, adj, Naming(finish, sort), a).members == {a, bc}
    ensures GroupOf(devices, adj, Naming(finish, sort), c).members == {ab, c}
    ensures GroupOf(devices, adj, Naming(finish, sort), a).name == GroupOf(devices, adj, Naming(finish, sort), c).name
  {
    TwoPairsGraph(reports, h, a, bc, k, ab, c, devices, adj);
    PairIsGroup(devices, adj, Naming(finish, sort), h, a, bc);
    PairIsGroup(devices, adj, Naming(finish, sort), k, ab, c);
    PairsShareName(finish, sort, a, b, c, ab, bc);
  }

  lemma PairsShareName(finish: Finish, sort: set<string> -> seq<string>, a: string, b: string, c: string, ab: string,
                       bc: string)
    requires Sorts(sort) && Shifted(a, b, c, ab, bc)
    ensures GroupName({a, bc}, Naming(finish, sort)) == GroupName({ab, c}, Naming(finish, sort))
  {
    BeforeIsStrict(a, bc);
    BeforeIsStrict(ab, c);
    assert |{a, bc}| == 2 && |{ab, c}| == 2;
    DashMovesBetweenPieces(sort, a, b, c);
    NamesEqualIffPieces(finish, sort, {a, bc}, {ab, c});
  }

  /** One string is before another exactly when it is a proper beginning of it, or has the smaller
      character where they first differ. */
  lemma {:induction false} BeforeIsLexical(x: string, y: string)
    ensures Before(x, y) <==> (x <= y && x != y) || exists i :: FirstDifference(x, y, i) && x[i] < y[i]
    decreases |x|
  {
    if x != "" && y != "" && x[0] == y[0] {
      BeforeIsLexical(x[1..], y[1..]);
      if i :| FirstDifference(x[1..], y[1..], i) && x[1..][i] < y[1..][i] {
        assert FirstDifference(x, y, i + 1);
      }
      if i :| FirstDifference(x, y, i) && x[i] < y[i] {
        assert FirstDifference(x[1..], y[1..], i - 1);
      }
      assert x[1..] <= y[1..] <==> x <= y;
    } else if x != "" && y != "" {
      assert FirstDifference(x, y, 0);
    }
  }

  ghost predicate FirstDifference(x: string, y: string, i: int) {
    0 <= i < |x| && i < |y| && x[i] != y[i] && x[..i] == y[..i]
  }
}
