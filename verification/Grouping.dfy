/** The layer-by-layer merge of switches into groups. The result is the tier-t part of a
    component of the graph cut off above tier t, provided distinct groups get distinct names. */
module Grouping {
  import opened Graph
  import opened TopologySpec
  import opened Discovery

  lemma SingletonSet(s: set<string>)
    requires |s| == 1
    ensures exists m :: m in s && s == {m}
  {
    var m :| m in s;
    assert |s - {m}| == 0;
    assert s == {m};
  }

  /** A group of one is named after its member, any other after a digest of its members. */
  function GroupName(members: set<string>, digest: set<string> -> string): string {
    if |members| == 1 then Only(members) else digest(members)
  }

  /** The element of a singleton. */
  function Only(s: set<string>): (m: string)
    requires |s| == 1
    ensures s == {m}
  {
    SingletonSet(s);
    var m :| m in s && s == {m};
    m
  }

  /** The neighbours of `part` in tier `tier`. */
  ghost function NeighboursAt(devices: Devices, adj: Adjacency, part: set<string>, tier: int): set<string> {
    set x | x in devices && devices[x].tier == tier && Touches(adj, part, x)
  }

  ghost predicate Touches(adj: Adjacency, part: set<string>, x: string) {
    exists m :: m in part && m in adj && x in adj[m]
  }

  /** The group that the switch `d` must end up in. */
  ghost function GroupOf(devices: Devices, adj: Adjacency, digest: set<string> -> string, d: string): Group
    requires d in devices
  {
    var tier := devices[d].tier;
    var members := ComponentAt(devices, adj, tier, d);
    Group(GroupName(members, digest), tier, members,
          NeighboursAt(devices, adj, members, tier - 1), NeighboursAt(devices, adj, members, tier + 1))
  }

  lemma GroupOfShared(devices: Devices, adj: Adjacency, digest: set<string> -> string, a: string, b: string)
    requires Symmetric(adj) && a in devices && b in devices && devices[a].tier == devices[b].tier
    requires LinkedUpTo(devices, adj, devices[a].tier, a, b)
    ensures GroupOf(devices, adj, digest, a) == GroupOf(devices, adj, digest, b)
  {
    ComponentShared(devices, adj, devices[a].tier, a, b);
  }

  // ------------------------------------------------------------ names of the tier below

  function NameOf(deviceToGroup: map<string, string>, d: string): string {
    if d in deviceToGroup then deviceToGroup[d] else d
  }

  /** Two devices of the tier below carry one group name exactly when they are connected there. */
  ghost predicate NamedByComponent(devices: Devices, adj: Adjacency, tier: int, deviceToGroup: map<string, string>,
                                   x: string, y: string) {
    NameOf(deviceToGroup, x) == NameOf(deviceToGroup, y) <==> LinkedUpTo(devices, adj, tier, x, y)
  }

  ghost predicate TierNamed(devices: Devices, adj: Adjacency, zone: set<string>, tier: int,
                            deviceToGroup: map<string, string>) {
    forall x, y {:trigger NamedByComponent(devices, adj, tier, deviceToGroup, x, y)} ::
      x in zone && y in zone && x in devices && y in devices && devices[x].tier == tier && devices[y].tier == tier
      ==> NamedByComponent(devices, adj, tier, deviceToGroup, x, y)
  }

  /** A set of devices that no edge leaves. */
  ghost predicate ClosedZone(devices: Devices, adj: Adjacency, zone: set<string>) {
    zone <= devices.Keys && zone <= adj.Keys
      && forall d, e {:trigger e in adj[d]} :: d in zone && e in adj[d] ==> e in zone
  }

  ghost function TierOf(devices: Devices, zone: set<string>, tier: int): set<string>
    requires zone <= devices.Keys
  {
    set d | d in zone && devices[d].tier == tier
  }

  /** The tier-`tier` switches of the zone over the lower group called `name`. */
  ghost function Over(devices: Devices, adj: Adjacency, zone: set<string>, tier: int,
                      deviceToGroup: map<string, string>, name: string): set<string>
    requires zone <= devices.Keys
  {
    set r | r in TierOf(devices, zone, tier) && HasLowerNamed(devices, adj, tier, deviceToGroup, name, r)
  }

  ghost predicate HasLowerNamed(devices: Devices, adj: Adjacency, tier: int, deviceToGroup: map<string, string>,
                                name: string, r: string) {
    r in adj && name in NamesBelow(devices, tier, deviceToGroup, adj[r])
  }

  /** The group names of those devices in `some` that lie one tier below. */
  ghost function NamesBelow(devices: Devices, tier: int, deviceToGroup: map<string, string>,
                            some: set<string>): set<string> {
    set y | y in some && y in devices && devices[y].tier == tier - 1 :: NameOf(deviceToGroup, y)
  }

  function AddIf(s: set<string>, b: bool, d: string): set<string> {
    if b then s + {d} else s
  }

  function Lookup(index: map<string, set<string>>, name: string): set<string> {
    if name in index then index[name] else {}
  }

  /** buildLowerGroupToTierDevices. */
  method BuildLowerGroupToTierDevices(devices: Devices, adj: Adjacency, zone: set<string>, tier: int,
                                      deviceToGroup: map<string, string>)
    returns (index: map<string, set<string>>)
    requires WellShaped(devices, adj) && zone <= devices.Keys
    ensures forall name :: Lookup(index, name) == Over(devices, adj, zone, tier, deviceToGroup, name)
  {
    index := map[];
    var todo := set d | d in zone && devices[d].tier == tier;
    ghost var done: set<string> := {};
    while todo != {}
      invariant todo + done == TierOf(devices, zone, tier)
      invariant forall name ::
        Lookup(index, name) == set r | r in done && HasLowerNamed(devices, adj, tier, deviceToGroup, name, r)
      decreases todo
    {
      var device :| device in todo;
      index := IndexDevice(devices, adj, tier, deviceToGroup, device, index);
      todo := todo - {device};
      done := done + {device};
    }
    forall name
      ensures Lookup(index, name) == Over(devices, adj, zone, tier, deviceToGroup, name)
    {
      assert done == TierOf(devices, zone, tier);
    }
  }

  /** The inner loop: file `device` under the names of its lower neighbours. */
  method IndexDevice(devices: Devices, adj: Adjacency, tier: int, deviceToGroup: map<string, string>, device: string,
                     before: map<string, set<string>>)
    returns (index: map<string, set<string>>)
    requires WellShaped(devices, adj) && device in devices
    ensures forall name ::
      Lookup(index, name) ==
        AddIf(Lookup(before, name), HasLowerNamed(devices, adj, tier, deviceToGroup, name, device), device)
  {
    index := before;
    var todo := adj[device];
    while todo != {}
      invariant todo <= adj[device]
      invariant forall name ::
        Lookup(index, name) ==
          AddIf(Lookup(before, name), name in NamesBelow(devices, tier, deviceToGroup, adj[device] - todo), device)
    {
      var neighbour :| neighbour in todo;
      assert adj[device] - (todo - {neighbour}) == (adj[device] - todo) + {neighbour};
      todo := todo - {neighbour};
      if devices[neighbour].tier == tier - 1 {
        var name := NameOf(deviceToGroup, neighbour);
        index := index[name := Lookup(index, name) + {device}];
      }
    }
  }

  // ---------------------------------------------------------------- one group

  /** The worklist state while the group of `name` is collected. */
  ghost predicate Collecting(devices: Devices, adj: Adjacency, zone: set<string>, tier: int, name: string,
                             members: set<string>, queue: seq<string>)
    requires zone <= devices.Keys
  {
    && members <= TierOf(devices, zone, tier)
    && (forall d :: d in queue ==> d in TierOf(devices, zone, tier))
    && (forall d :: d in members || d in queue ==> LinkedUpTo(devices, adj, tier, name, d))
    && (name in members || name in queue)
  }

  /** The neighbours of `c` inside the zone that have tier `tier`. */
  function NearAt(devices: Devices, adj: Adjacency, zone: set<string>, c: string, tier: int): set<string>
    requires c in adj && zone <= devices.Keys
  {
    set x | x in adj[c] && x in zone && devices[x].tier == tier
  }

  lemma NeighboursGrow(devices: Devices, adj: Adjacency, zone: set<string>, part: set<string>, c: string, tier: int)
    requires WellShaped(devices, adj) && ClosedZone(devices, adj, zone) && c in zone
    ensures NeighboursAt(devices, adj, part + {c}, tier) ==
      NeighboursAt(devices, adj, part, tier) + NearAt(devices, adj, zone, c, tier)
  {
    forall x
      ensures Touches(adj, part + {c}, x) <==> Touches(adj, part, x) || x in adj[c]
    {
      if x in adj[c] {
        assert c in part + {c};
      }
    }
  }

  /** Whatever shares a lower group with a member is processed or waits in the queue. */
  ghost predicate RelatedQueued(devices: Devices, adj: Adjacency, zone: set<string>, tier: int,
                                deviceToGroup: map<string, string>,
                                members: set<string>, processed: set<string>, queue: seq<string>)
    requires zone <= devices.Keys
  {
    forall m, d {:trigger SharesLower(devices, adj, tier, deviceToGroup, m, d)} ::
      m in members && d in TierOf(devices, zone, tier) && SharesLower(devices, adj, tier, deviceToGroup, m, d) ==>
        d in processed || d in queue
  }

  lemma CollectingSkip(devices: Devices, adj: Adjacency, zone: set<string>, tier: int,
                       deviceToGroup: map<string, string>,
                       name: string, members: set<string>, processed: set<string>, queue: seq<string>)
    requires zone <= devices.Keys && |queue| > 0 && queue[0] in processed && (name in processed ==> name in members)
    requires Collecting(devices, adj, zone, tier, name, members, queue)
    requires RelatedQueued(devices, adj, zone, tier, deviceToGroup, members, processed, queue)
    ensures Collecting(devices, adj, zone, tier, name, members, queue[1..])
    ensures RelatedQueued(devices, adj, zone, tier, deviceToGroup, members, processed, queue[1..])
  {
    assert forall d :: d in queue <==> d == queue[0] || d in queue[1..];
  }

  lemma CollectingStep(devices: Devices, adj: Adjacency, zone: set<string>, tier: int,
                       deviceToGroup: map<string, string>,
                       name: string, members: set<string>, processed: set<string>, queue: seq<string>,
                       longer: seq<string>)
    requires Layered(devices, adj) && ClosedZone(devices, adj, zone)
      && TierNamed(devices, adj, zone, tier - 1, deviceToGroup)
    requires |queue| > 0 && Collecting(devices, adj, zone, tier, name, members, queue)
    requires RelatedQueued(devices, adj, zone, tier, deviceToGroup, members, processed, queue)
    requires forall d :: d in longer <==>
      d in queue[1..]
        || (d !in processed + {queue[0]} && d in TierOf(devices, zone, tier)
              && SharesLower(devices, adj, tier, deviceToGroup, queue[0], d))
    ensures Collecting(devices, adj, zone, tier, name, members + {queue[0]}, longer)
    ensures RelatedQueued(devices, adj, zone, tier, deviceToGroup, members + {queue[0]}, processed + {queue[0]}, longer)
  {
    assert forall d :: d in queue <==> d == queue[0] || d in queue[1..];
    forall d | d in longer && d !in queue
      ensures LinkedUpTo(devices, adj, tier, name, d)
    {
      SharesLowerLinks(devices, adj, zone, tier, deviceToGroup, queue[0], d);
      LinkedUpToTrans(devices, adj, tier, name, queue[0], d);
    }
  }

  /** The local variables of the inner worklist loop. */
  datatype Worklist = Worklist(members: set<string>, lower: set<string>, upper: set<string>, processed: set<string>,
    queue: seq<string>)

  ghost predicate Collected(devices: Devices, adj: Adjacency, zone: set<string>, tier: int,
                            deviceToGroup: map<string, string>,
                            name: string, seen: set<string>, w: Worklist)
    requires zone <= devices.Keys
  {
    && w.processed == seen + w.members && w.members !! seen
    && Collecting(devices, adj, zone, tier, name, w.members, w.queue)
    && RelatedQueued(devices, adj, zone, tier, deviceToGroup, w.members, w.processed, w.queue)
    && w.lower == NeighboursAt(devices, adj, w.members, tier - 1)
    && w.upper == NeighboursAt(devices, adj, w.members, tier + 1)
  }

  /** BuildTierGroups, the inner worklist: everything that shares a lower group with `name`, transitively. */
  method CollectGroup(devices: Devices, adj: Adjacency, zone: set<string>, tier: int,
                      deviceToGroup: map<string, string>,
                      index: map<string, set<string>>, name: string, seen: set<string>, digest: set<string> -> string)
    returns (group: Group, processed: set<string>)
    requires Layered(devices, adj) && ClosedZone(devices, adj, zone) && tier >= 1
    requires TierNamed(devices, adj, zone, tier - 1, deviceToGroup)
    requires forall n :: Lookup(index, n) == Over(devices, adj, zone, tier, deviceToGroup, n)
    requires name in TierOf(devices, zone, tier) && name !in seen && seen <= TierOf(devices, zone, tier)
    requires forall d :: d in seen ==> ComponentAt(devices, adj, tier, d) <= seen
    ensures group == GroupOf(devices, adj, digest, name)
    ensures processed == seen + group.members && group.members <= TierOf(devices, zone, tier) && name in group.members
  {
    var w := Worklist({}, {}, {}, seen, [name]);
    LinkedUpToSelf(devices, adj, tier, name);
    while |w.queue| > 0
      invariant Collected(devices, adj, zone, tier, deviceToGroup, name, seen, w)
      decreases TierOf(devices, zone, tier) - w.processed, |w.queue|
    {
      if w.queue[0] in w.processed {
        CollectingSkip(devices, adj, zone, tier, deviceToGroup, name, w.members, w.processed, w.queue);
        w := w.(queue := w.queue[1..]);
      } else {
        w := Absorb(devices, adj, zone, tier, deviceToGroup, index, name, seen, w);
      }
    }
    GroupFilled(devices, adj, zone, tier, deviceToGroup, name, seen, w.members);
    group := Group(GroupName(w.members, digest), tier, w.members, w.lower, w.upper);
    processed := w.processed;
  }

  /** Take an unprocessed switch into the group and queue what it is related to. */
  method Absorb(devices: Devices, adj: Adjacency, zone: set<string>, tier: int, deviceToGroup: map<string, string>,
                index: map<string, set<string>>, ghost name: string, ghost seen: set<string>, w: Worklist)
    returns (next: Worklist)
    requires Layered(devices, adj) && ClosedZone(devices, adj, zone)
      && TierNamed(devices, adj, zone, tier - 1, deviceToGroup)
    requires forall n :: Lookup(index, n) == Over(devices, adj, zone, tier, deviceToGroup, n)
    requires Collected(devices, adj, zone, tier, deviceToGroup, name, seen, w)
    requires |w.queue| > 0 && w.queue[0] !in w.processed
    ensures Collected(devices, adj, zone, tier, deviceToGroup, name, seen, next)
    ensures next.processed == w.processed + {w.queue[0]}
  {
    var current := w.queue[0];
    var queue :=
      EnqueueRelated(devices, adj, zone, tier, deviceToGroup, index, current, w.processed + {current}, w.queue[1..]);
    NeighboursGrow(devices, adj, zone, w.members, current, tier - 1);
    NeighboursGrow(devices, adj, zone, w.members, current, tier + 1);
    CollectingStep(devices, adj, zone, tier, deviceToGroup, name, w.members, w.processed, w.queue, queue);
    next := Worklist(w.members + {current},
                     w.lower + NearAt(devices, adj, zone, current, tier - 1), w.upper
                       + NearAt(devices, adj, zone, current, tier + 1),
                     w.processed + {current}, queue);
    assert seen + (w.members + {current}) == w.processed + {current};
  }

  /** Queue the unprocessed switches filed under the names of `current`'s lower neighbours. */
  method EnqueueRelated(devices: Devices, adj: Adjacency, zone: set<string>, tier: int,
                        deviceToGroup: map<string, string>,
                        index: map<string, set<string>>, current: string, processed: set<string>, queue: seq<string>)
    returns (longer: seq<string>)
    requires WellShaped(devices, adj) && zone <= devices.Keys && current in devices
    requires forall n :: Lookup(index, n) == Over(devices, adj, zone, tier, deviceToGroup, n)
    ensures forall d :: d in longer <==>
      d in queue
        || (d !in processed && d in TierOf(devices, zone, tier)
              && SharesLower(devices, adj, tier, deviceToGroup, current, d))
  {
    longer := queue;
    var todo := adj[current];
    while todo != {}
      invariant todo <= adj[current]
      invariant forall d :: d in longer <==>
        d in queue || (d !in processed && d in TierOf(devices, zone, tier) &&
                       NamedBelow(devices, adj, tier, deviceToGroup,
                         NamesBelow(devices, tier, deviceToGroup, adj[current] - todo), d))
    {
      var neighbour :| neighbour in todo;
      assert adj[current] - (todo - {neighbour}) == (adj[current] - todo) + {neighbour};
      todo := todo - {neighbour};
      if devices[neighbour].tier == tier - 1 {
        var name := NameOf(deviceToGroup, neighbour);
        assert Lookup(index, name) == Over(devices, adj, zone, tier, deviceToGroup, name);
        assert NamesBelow(devices, tier, deviceToGroup, adj[current] - todo) ==
          NamesBelow(devices, tier, deviceToGroup, adj[current] - todo - {neighbour}) + {name};
        longer := EnqueueAll(longer, Lookup(index, name) - processed);
      } else {
        assert NamesBelow(devices, tier, deviceToGroup, adj[current] - todo) ==
          NamesBelow(devices, tier, deviceToGroup, adj[current] - todo - {neighbour});
      }
    }
    assert adj[current] - todo == adj[current];
  }

  /** `r` has a lower neighbour whose group is called one of `names`. */
  ghost predicate NamedBelow(devices: Devices, adj: Adjacency, tier: int, deviceToGroup: map<string, string>,
                             names: set<string>, r: string) {
    exists n :: n in names && HasLowerNamed(devices, adj, tier, deviceToGroup, n, r)
  }

  /** The two switches have lower neighbours in one named group. */
  ghost predicate SharesLower(devices: Devices, adj: Adjacency, tier: int, deviceToGroup: map<string, string>,
                              a: string, b: string) {
    a in adj && NamedBelow(devices, adj, tier, deviceToGroup, NamesBelow(devices, tier, deviceToGroup, adj[a]), b)
  }

  lemma SharesLowerLinks(devices: Devices, adj: Adjacency, zone: set<string>, tier: int,
                         deviceToGroup: map<string, string>, a: string, b: string)
    requires Layered(devices, adj) && ClosedZone(devices, adj, zone)
      && TierNamed(devices, adj, zone, tier - 1, deviceToGroup)
    requires a in TierOf(devices, zone, tier) && b in TierOf(devices, zone, tier)
    requires SharesLower(devices, adj, tier, deviceToGroup, a, b)
    ensures LinkedUpTo(devices, adj, tier, a, b)
  {
    var n :| n in NamesBelow(devices, tier, deviceToGroup, adj[a])
      && HasLowerNamed(devices, adj, tier, deviceToGroup, n, b);
    var x :| x in adj[a] && x in devices && devices[x].tier == tier - 1 && NameOf(deviceToGroup, x) == n;
    var y :| y in adj[b] && y in devices && devices[y].tier == tier - 1 && NameOf(deviceToGroup, y) == n;
    assert NamedByComponent(devices, adj, tier - 1, deviceToGroup, x, y);
    SharedLowerLinks(devices, adj, tier, a, x, y, b);
  }

  lemma LinkedLowersShared(devices: Devices, adj: Adjacency, zone: set<string>, tier: int,
                           deviceToGroup: map<string, string>,
                           p: string, x: string, y: string, q: string)
    requires Layered(devices, adj) && ClosedZone(devices, adj, zone)
      && TierNamed(devices, adj, zone, tier - 1, deviceToGroup)
    requires p in TierOf(devices, zone, tier) && q in devices && devices[q].tier == tier
    requires x in adj[p] && y in adj[q] && LinkedUpTo(devices, adj, tier - 1, x, y)
    ensures q in zone && SharesLower(devices, adj, tier, deviceToGroup, p, q)
  {
    LinkedEnds(adj, UpTo(devices, tier - 1), x, y);
    LinkedStaysInside(adj, UpTo(devices, tier - 1), zone, x, y);
    assert q in adj[y];
    assert NamedByComponent(devices, adj, tier - 1, deviceToGroup, x, y);
    assert NameOf(deviceToGroup, x) in NamesBelow(devices, tier, deviceToGroup, adj[p]);
    assert HasLowerNamed(devices, adj, tier, deviceToGroup, NameOf(deviceToGroup, y), q);
  }

  /** A finished worklist has collected exactly the component. */
  lemma GroupFilled(devices: Devices, adj: Adjacency, zone: set<string>, tier: int, deviceToGroup: map<string, string>,
                    name: string, seen: set<string>, members: set<string>)
    requires Layered(devices, adj) && ClosedZone(devices, adj, zone) && tier >= 1
    requires TierNamed(devices, adj, zone, tier - 1, deviceToGroup)
    requires Collecting(devices, adj, zone, tier, name, members, []) && members !! seen
    requires forall d :: d in seen ==> ComponentAt(devices, adj, tier, d) <= seen
    requires RelatedQueued(devices, adj, zone, tier, deviceToGroup, members, seen + members, [])
    ensures members == ComponentAt(devices, adj, tier, name)
  {
    forall p, x, y, q | p in members && x in adj[p] && LinkedUpTo(devices, adj, tier - 1, x, y) &&
      q in devices && devices[q].tier == tier && y in adj[q]
      ensures q in members
    {
      LinkedLowersShared(devices, adj, zone, tier, deviceToGroup, p, x, y, q);
      if q in seen {
        SharedLowerLinks(devices, adj, tier, p, x, y, q);
        LinkedUpToSym(devices, adj, tier, p, q);
        assert false;
      }
    }
    forall b | b in ComponentAt(devices, adj, tier, name)
      ensures b in members
    {
      MergeReachesComponent(devices, adj, tier, members, name, b);
    }
  }

  // ---------------------------------------------------------- all groups of one tier

  /** The groups that the switches in `some` belong to. */
  ghost function GroupsOf(devices: Devices, adj: Adjacency, digest: set<string> -> string,
                          some: set<string>): set<Group>
    requires some <= devices.Keys
  {
    set d | d in some :: GroupOf(devices, adj, digest, d)
  }

  /** BuildTierGroups. */
  method BuildTierGroups(devices: Devices, adj: Adjacency, zone: set<string>, tier: int,
                         deviceToGroup: map<string, string>,
                         digest: set<string> -> string)
    returns (groups: set<Group>)
    requires Layered(devices, adj) && ClosedZone(devices, adj, zone) && tier >= 1
    requires TierNamed(devices, adj, zone, tier - 1, deviceToGroup)
    ensures groups == GroupsOf(devices, adj, digest, TierOf(devices, zone, tier))
  {
    var index := BuildLowerGroupToTierDevices(devices, adj, zone, tier, deviceToGroup);
    groups := {};
    var processed: set<string> := {};
    var todo := set d | d in zone && devices[d].tier == tier;
    while todo != {}
      invariant processed <= TierOf(devices, zone, tier) <= processed + todo && todo <= TierOf(devices, zone, tier)
      invariant forall d :: d in processed ==> ComponentAt(devices, adj, tier, d) <= processed
      invariant groups == GroupsOf(devices, adj, digest, processed)
      decreases todo
    {
      var name :| name in todo;
      todo := todo - {name};
      if name !in processed {
        var group, more := CollectGroup(devices, adj, zone, tier, deviceToGroup, index, name, processed, digest);
        GroupsGrow(devices, adj, digest, processed, tier, name);
        groups := groups + {group};
        processed := more;
      }
    }
    assert processed == TierOf(devices, zone, tier);
  }

  /** Adding a whole component adds exactly its group. */
  lemma GroupsGrow(devices: Devices, adj: Adjacency, digest: set<string> -> string, some: set<string>, tier: int,
                   name: string)
    requires Layered(devices, adj) && some <= devices.Keys && name in devices && devices[name].tier == tier && tier >= 0
    ensures var c := ComponentAt(devices, adj, tier, name);
      && name in c && (forall d :: d in c ==> ComponentAt(devices, adj, tier, d) == c)
      && GroupsOf(devices, adj, digest, some + c) ==
         GroupsOf(devices, adj, digest, some) + {GroupOf(devices, adj, digest, name)}
  {
    var c := ComponentAt(devices, adj, tier, name);
    LinkedUpToSelf(devices, adj, tier, name);
    forall d | d in c
      ensures ComponentAt(devices, adj, tier, d) == c
      ensures GroupOf(devices, adj, digest, d) == GroupOf(devices, adj, digest, name)
    {
      GroupOfShared(devices, adj, digest, name, d);
    }
  }

  // ------------------------------------------------------------------ one zone

  ghost predicate SameName(devices: Devices, adj: Adjacency, digest: set<string> -> string, d: string, e: string) {
    d in devices && e in devices && GroupOf(devices, adj, digest, d).name == GroupOf(devices, adj, digest, e).name
  }

  /** Distinct groups get distinct names. */
  ghost predicate DistinctGroupNames(devices: Devices, adj: Adjacency, digest: set<string> -> string) {
    forall d, e {:trigger SameName(devices, adj, digest, d, e)} ::
      d in devices && e in devices && devices[d].tier >= 1 && devices[e].tier >= 1
        && SameName(devices, adj, digest, d, e)
      ==> GroupOf(devices, adj, digest, d).members == GroupOf(devices, adj, digest, e).members
  }

  /** The name a device is known by to the tier above: a host's own, a switch's group's. */
  ghost function KnownAs(devices: Devices, adj: Adjacency, digest: set<string> -> string, d: string): string
    requires d in devices
  {
    if devices[d].tier == 0 then d else GroupOf(devices, adj, digest, d).name
  }

  lemma KnownNamesFollowComponents(devices: Devices, adj: Adjacency, digest: set<string> -> string, zone: set<string>,
                                   tier: int,
                                   deviceToGroup: map<string, string>)
    requires Layered(devices, adj) && zone <= devices.Keys && DistinctGroupNames(devices, adj, digest) && tier >= 0
    requires forall d :: d in zone && devices[d].tier == tier ==>
      NameOf(deviceToGroup, d) == KnownAs(devices, adj, digest, d)
    ensures TierNamed(devices, adj, zone, tier, deviceToGroup)
  {
    forall x, y | x in zone && y in zone && devices[x].tier == tier && devices[y].tier == tier
      ensures NamedByComponent(devices, adj, tier, deviceToGroup, x, y)
    {
      LinkedUpToSelf(devices, adj, tier, y);
      if LinkedUpTo(devices, adj, tier, x, y) {
        if tier == 0 {
          HostsLinkOnlyToThemselves(devices, adj, x, y);
        } else {
          GroupOfShared(devices, adj, digest, x, y);
        }
      } else if tier > 0 {
        assert y in GroupOf(devices, adj, digest, y).members && y !in GroupOf(devices, adj, digest, x).members;
        assert !SameName(devices, adj, digest, x, y);
      }
    }
  }

  lemma {:induction false} LowestTier(devices: Devices, some: set<string>)
    requires some != {} && some <= devices.Keys
    ensures exists d :: d in some && forall e :: e in some ==> devices[d].tier <= devices[e].tier
  {
    var d :| d in some;
    if some != {d} {
      LowestTier(devices, some - {d});
      var e :| e in some - {d} && forall f :: f in some - {d} ==> devices[e].tier <= devices[f].tier;
      assert forall f :: f in some ==> f == d || f in some - {d};
      assert if devices[d].tier <= devices[e].tier then forall f :: f in some ==> devices[d].tier <= devices[f].tier
             else forall f :: f in some ==> devices[e].tier <= devices[f].tier;
    }
  }

  /** The tier loop of BuildTopology for one zone, lowest tier first. */
  method BuildZoneGroups(devices: Devices, adj: Adjacency, zone: set<string>, digest: set<string> -> string)
    returns (groups: set<Group>)
    requires Layered(devices, adj) && ClosedZone(devices, adj, zone) && DistinctGroupNames(devices, adj, digest)
    requires forall d :: d in zone ==> devices[d].tier >= 0
    ensures groups == GroupsOf(devices, adj, digest, set d | d in zone && devices[d].tier >= 1)
  {
    groups := {};
    var deviceToGroup := map d | d in zone && devices[d].tier == 0 :: d;
    var todo := set d | d in zone && devices[d].tier >= 1;
    ghost var floor := 1;
    while todo != {}
      invariant todo <= zone && floor >= 1
      invariant forall d :: d in zone ==> (d in todo <==> devices[d].tier >= floor)
      invariant groups == GroupsOf(devices, adj, digest, SwitchesOutside(devices, zone, todo))
      invariant forall d :: d in zone && d !in todo ==> NameOf(deviceToGroup, d) == KnownAs(devices, adj, digest, d)
      decreases todo
    {
      LowestTier(devices, todo);
      var lowest :| lowest in todo && forall e :: e in todo ==> devices[lowest].tier <= devices[e].tier;
      var tier := devices[lowest].tier;
      var tierGroups;
      tierGroups, deviceToGroup := BuildNextTier(devices, adj, zone, tier, deviceToGroup, digest);
      groups := groups + tierGroups;
      TierLeaves(devices, adj, digest, zone, todo, tier);
      todo := WithoutTier(devices, todo, tier);
      floor := tier + 1;
    }
    assert SwitchesOutside(devices, zone, todo) == set d | d in zone && devices[d].tier >= 1;
  }

  function WithoutTier(devices: Devices, todo: set<string>, tier: int): set<string>
    requires todo <= devices.Keys
  {
    set d | d in todo && devices[d].tier != tier
  }

  lemma TierLeaves(devices: Devices, adj: Adjacency, digest: set<string> -> string, zone: set<string>,
                   todo: set<string>, tier: int)
    requires todo <= zone <= devices.Keys && tier >= 1
    requires forall d :: d in zone && devices[d].tier == tier ==> d in todo
    ensures GroupsOf(devices, adj, digest, SwitchesOutside(devices, zone, WithoutTier(devices, todo, tier))) ==
      GroupsOf(devices, adj, digest, SwitchesOutside(devices, zone, todo))
        + GroupsOf(devices, adj, digest, TierOf(devices, zone, tier))
  {
    var rest := SwitchesOutside(devices, zone, WithoutTier(devices, todo, tier));
    assert rest == SwitchesOutside(devices, zone, todo) + TierOf(devices, zone, tier);
  }

  /** The switches of the zone that are not in `todo`. */
  ghost function SwitchesOutside(devices: Devices, zone: set<string>, todo: set<string>): set<string>
    requires zone <= devices.Keys
  {
    set d | d in zone && devices[d].tier >= 1 && d !in todo
  }

  /** Build the groups of one tier and record their names. */
  method BuildNextTier(devices: Devices, adj: Adjacency, zone: set<string>, tier: int, before: map<string, string>,
                       digest: set<string> -> string)
    returns (groups: set<Group>, deviceToGroup: map<string, string>)
    requires Layered(devices, adj) && ClosedZone(devices, adj, zone) && DistinctGroupNames(devices, adj, digest)
      && tier >= 1
    requires forall d :: d in zone && devices[d].tier == tier - 1 ==>
      NameOf(before, d) == KnownAs(devices, adj, digest, d)
    ensures groups == GroupsOf(devices, adj, digest, TierOf(devices, zone, tier))
    ensures forall d :: d in zone ==>
      NameOf(deviceToGroup, d) == if devices[d].tier == tier then KnownAs(devices, adj, digest, d)
        else NameOf(before, d)
  {
    KnownNamesFollowComponents(devices, adj, digest, zone, tier - 1, before);
    groups := BuildTierGroups(devices, adj, zone, tier, before, digest);
    GroupsPartitionTier(devices, adj, digest, zone, tier);
    deviceToGroup := NameMembers(groups, before);
    TierNamesKnown(devices, adj, digest, zone, tier, before, deviceToGroup);
  }

  /** Naming the groups of a tier gives that tier its known names and leaves the rest alone. */
  lemma TierNamesKnown(devices: Devices, adj: Adjacency, digest: set<string> -> string, zone: set<string>, tier: int,
                       before: map<string, string>, after: map<string, string>)
    requires Layered(devices, adj) && ClosedZone(devices, adj, zone) && tier >= 1
    requires var groups := GroupsOf(devices, adj, digest, TierOf(devices, zone, tier));
      && (forall g, m :: g in groups && m in g.members ==> NameOf(after, m) == g.name)
      && (forall d :: (forall g :: g in groups ==> d !in g.members) ==> NameOf(after, d) == NameOf(before, d))
    ensures forall d :: d in zone ==>
      NameOf(after, d) == if devices[d].tier == tier then KnownAs(devices, adj, digest, d) else NameOf(before, d)
  {
    GroupsPartitionTier(devices, adj, digest, zone, tier);
    forall d | d in TierOf(devices, zone, tier)
      ensures NameOf(after, d) == KnownAs(devices, adj, digest, d)
    {
      assert GroupOf(devices, adj, digest, d) in GroupsOf(devices, adj, digest, TierOf(devices, zone, tier));
    }
  }

  /** Record the group of every member of the groups just built. */
  method NameMembers(groups: set<Group>, before: map<string, string>) returns (deviceToGroup: map<string, string>)
    requires DisjointMembers(groups)
    ensures forall g, m :: g in groups && m in g.members ==> NameOf(deviceToGroup, m) == g.name
    ensures forall d :: (forall g :: g in groups ==> d !in g.members) ==> NameOf(deviceToGroup, d) == NameOf(before, d)
  {
    deviceToGroup := before;
    var todo := groups;
    while todo != {}
      invariant todo <= groups
      invariant forall g, m :: g in groups && g !in todo && m in g.members ==> NameOf(deviceToGroup, m) == g.name
      invariant forall d :: (forall g :: g in groups ==> d !in g.members) ==>
        NameOf(deviceToGroup, d) == NameOf(before, d)
      decreases todo
    {
      var group :| group in todo;
      todo := todo - {group};
      assert forall g, m :: g in groups && g != group && m in g.members ==> m !in group.members;
      NameOfUpdate(deviceToGroup, group);
      deviceToGroup := deviceToGroup + map m | m in group.members :: group.name;
    }
  }

  lemma NameOfUpdate(deviceToGroup: map<string, string>, group: Group)
    ensures forall d ::
      NameOf(deviceToGroup + map m | m in group.members :: group.name, d) == if d in group.members then group.name
        else NameOf(deviceToGroup, d)
  {
  }

  ghost predicate DisjointMembers(groups: set<Group>) {
    forall g, h :: g in groups && h in groups && g != h ==> g.members !! h.members
  }

  /** The groups of one tier of a zone are disjoint, stay inside the tier and cover it. */
  lemma GroupsPartitionTier(devices: Devices, adj: Adjacency, digest: set<string> -> string, zone: set<string>,
                            tier: int)
    requires Layered(devices, adj) && ClosedZone(devices, adj, zone) && tier >= 1
    ensures var groups := GroupsOf(devices, adj, digest, TierOf(devices, zone, tier));
      && DisjointMembers(groups)
      && (forall g :: g in groups ==> g.members <= TierOf(devices, zone, tier))
      && (forall d :: d in TierOf(devices, zone, tier) ==> d in GroupOf(devices, adj, digest, d).members)
  {
    var groups := GroupsOf(devices, adj, digest, TierOf(devices, zone, tier));
    forall d | d in TierOf(devices, zone, tier)
      ensures d in GroupOf(devices, adj, digest, d).members
    {
      LinkedUpToSelf(devices, adj, tier, d);
    }
    forall g | g in groups
      ensures g.members <= TierOf(devices, zone, tier)
    {
      var d :| d in TierOf(devices, zone, tier) && g == GroupOf(devices, adj, digest, d);
      forall m | m in g.members
        ensures m in zone
      {
        LinkedStaysInside(adj, UpTo(devices, tier), zone, d, m);
      }
    }
    forall g, h | g in groups && h in groups && g != h
      ensures g.members !! h.members
    {
      var d :| d in TierOf(devices, zone, tier) && g == GroupOf(devices, adj, digest, d);
      var e :| e in TierOf(devices, zone, tier) && h == GroupOf(devices, adj, digest, e);
      forall m | m in g.members && m in h.members
        ensures false
      {
        GroupOfShared(devices, adj, digest, d, m);
        GroupOfShared(devices, adj, digest, e, m);
      }
    }
  }
}
