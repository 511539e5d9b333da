/** The controller's side of a switch stream: snapshots are accepted by generation across
    reconnects, and the stored neighbours are the normalization of the last accepted one. */
module Subscription {
  import opened Wrappers
  import opened Decimal
  import ResourceName

  datatype Kind = KubernetesNode | SwitchSystem

  datatype Entry = Entry(localPort: string, remoteName: string)

  datatype Snapshot = Snapshot(generation: int, entries: seq<Entry>)

  datatype Key = Key(kind: Kind, name: string)

  datatype Neighbor = Neighbor(key: Key, linkCount: int)

  /** How entries are read: which ports are ignored, and which remote names are Nodes. */
  datatype Reading = Reading(ignored: string -> bool, isNode: string -> bool)

  function KeyOf(rd: Reading, e: Entry): Key {
    Key(if rd.isNode(e.remoteName) then KubernetesNode else SwitchSystem, e.remoteName)
  }

  // ------------------------------------------------------------------ specification

  /** The number of entries that are not ignored. */
  ghost function Kept(rd: Reading, entries: seq<Entry>): nat {
    if entries == [] then 0
    else Kept(rd, entries[..|entries| - 1]) + if rd.ignored(entries[|entries| - 1].localPort) then 0 else 1
  }

  ghost predicate Malformed(rd: Reading, e: Entry) {
    !rd.ignored(e.localPort) && e.remoteName == ""
  }

  ghost predicate WellFormed(rd: Reading, entries: seq<Entry>) {
    forall i :: 0 <= i < |entries| ==> !Malformed(rd, entries[i])
  }

  ghost function Total(neighbors: seq<Neighbor>): int {
    if neighbors == [] then 0 else Total(neighbors[..|neighbors| - 1]) + neighbors[|neighbors| - 1].linkCount
  }

  /** The kept entries that report this remote system. */
  ghost function LinksTo(rd: Reading, entries: seq<Entry>, name: string): set<int> {
    set i | 0 <= i < |entries| && !rd.ignored(entries[i].localPort) && entries[i].remoteName == name
  }

  /** The name is listed exactly once. */
  ghost predicate ListedOnce(neighbors: seq<Neighbor>, name: string) {
    exists i :: 0 <= i < |neighbors| && neighbors[i].key.name == name
      && forall j :: 0 <= j < |neighbors| && neighbors[j].key.name == name ==> j == i
  }

  /** A neighbour is a Node exactly when its name says so, and has the number of its links. */
  ghost predicate RightNeighbor(rd: Reading, entries: seq<Entry>, n: Neighbor) {
    && (n.key.kind.KubernetesNode? <==> rd.isNode(n.key.name))
    && n.linkCount == |LinksTo(rd, entries, n.key.name)| >= 1
  }

  /** One neighbour per reported remote system, of the right kind and with the number of links
      to it; over all neighbours these are the kept entries. */
  ghost predicate IsNormalization(rd: Reading, entries: seq<Entry>, neighbors: seq<Neighbor>) {
    && WellFormed(rd, entries)
    && (forall i {:trigger neighbors[i]} :: 0 <= i < |neighbors| ==> RightNeighbor(rd, entries, neighbors[i]))
    && (forall i {:trigger entries[i]} :: 0 <= i < |entries| && !rd.ignored(entries[i].localPort) ==>
          ListedOnce(neighbors, entries[i].remoteName))
    && Total(neighbors) == Kept(rd, entries)
  }

  // -------------------------------------------------------- normalizeSnapshotNeighbors

  /** The number of entries that report `key`. */
  ghost function Reported(rd: Reading, entries: seq<Entry>, key: Key): nat {
    if entries == [] then 0
    else
      var e := entries[|entries| - 1];
      Reported(rd, entries[..|entries| - 1], key) + if !rd.ignored(e.localPort) && KeyOf(rd, e) == key then 1 else 0
  }

  /** Only the key of the right kind is reported, once for every link. */
  lemma {:induction false} ReportedIsLinks(rd: Reading, entries: seq<Entry>, key: Key)
    ensures Reported(rd, entries, key) ==
      if key.kind.KubernetesNode? == rd.isNode(key.name) then |LinksTo(rd, entries, key.name)| else 0
    decreases |entries|
  {
    if entries == [] {
      assert LinksTo(rd, entries, key.name) == {};
    } else {
      var n := |entries| - 1;
      ReportedIsLinks(rd, entries[..n], key);
      LinksGrow(rd, entries[..n], entries[n], key.name);
      assert entries[..n] + [entries[n]] == entries;
    }
  }

  lemma LinksGrow(rd: Reading, entries: seq<Entry>, e: Entry, name: string)
    ensures |LinksTo(rd, entries + [e], name)| ==
      |LinksTo(rd, entries, name)| + if !rd.ignored(e.localPort) && e.remoteName == name then 1 else 0
  {
    var before, after := LinksTo(rd, entries, name), LinksTo(rd, entries + [e], name);
    if !rd.ignored(e.localPort) && e.remoteName == name {
      assert after == before + {|entries|};
    } else {
      assert after == before;
    }
  }

  ghost function SumOver(order: seq<Key>, counts: map<Key, int>): int
    requires forall k :: k in order ==> k in counts
  {
    if order == [] then 0 else SumOver(order[..|order| - 1], counts) + counts[order[|order| - 1]]
  }

  ghost predicate Distinct(order: seq<Key>) {
    forall i, j :: 0 <= i < j < |order| ==> order[i] != order[j]
  }

  lemma {:induction false} SumElsewhere(order: seq<Key>, counts: map<Key, int>, key: Key, v: int)
    requires (forall k :: k in order ==> k in counts) && key !in order
    ensures SumOver(order, counts[key := v]) == SumOver(order, counts)
    decreases |order|
  {
    if order != [] {
      SumElsewhere(order[..|order| - 1], counts, key, v);
    }
  }

  lemma {:induction false} SumBump(order: seq<Key>, counts: map<Key, int>, key: Key, v: int)
    requires (forall k :: k in order ==> k in counts) && key in order && Distinct(order)
    ensures SumOver(order, counts[key := v]) == SumOver(order, counts) - counts[key] + v
    decreases |order|
  {
    var init, last := order[..|order| - 1], order[|order| - 1];
    if last == key {
      SumElsewhere(init, counts, key, v);
    } else {
      assert key in init;
      SumBump(init, counts, key, v);
    }
  }

  /** What the counting loop has established after some entries. */
  ghost predicate Counted(rd: Reading, entries: seq<Entry>, order: seq<Key>, counts: map<Key, int>) {
    && WellFormed(rd, entries) && Distinct(order)
    && (forall k {:trigger k in order} {:trigger k in counts} :: k in order <==> k in counts)
    && (forall k {:trigger Reported(rd, entries, k)} :: CountOf(counts, k) == Reported(rd, entries, k))
    && (forall k {:trigger k in counts} :: k in counts ==> counts[k] >= 1)
    && SumOver(order, counts) == Kept(rd, entries)
  }

  function CountOf(counts: map<Key, int>, key: Key): int {
    if key in counts then counts[key] else 0
  }

  lemma OneMoreEntry(rd: Reading, entries: seq<Entry>, e: Entry)
    requires WellFormed(rd, entries) && !Malformed(rd, e)
    ensures WellFormed(rd, entries + [e])
    ensures Kept(rd, entries + [e]) == Kept(rd, entries) + if rd.ignored(e.localPort) then 0 else 1
    ensures forall k {:trigger Reported(rd, entries + [e], k)} ::
      Reported(rd, entries + [e], k) == Reported(rd, entries, k) + if !rd.ignored(e.localPort) && KeyOf(rd, e) == k
        then 1 else 0
  {
    var more := entries + [e];
    assert more[..|more| - 1] == entries;
    forall i | 0 <= i < |more|
      ensures !Malformed(rd, more[i])
    {
      if i < |entries| {
        assert more[i] == entries[i];
      }
    }
  }

  lemma CountAgain(rd: Reading, entries: seq<Entry>, order: seq<Key>, counts: map<Key, int>, e: Entry)
    requires Counted(rd, entries, order, counts) && !rd.ignored(e.localPort) && e.remoteName != ""
      && KeyOf(rd, e) in counts
    ensures Counted(rd, entries + [e], order, counts[KeyOf(rd, e) := counts[KeyOf(rd, e)] + 1])
  {
    OneMoreEntry(rd, entries, e);
    SumBump(order, counts, KeyOf(rd, e), counts[KeyOf(rd, e)] + 1);
  }

  lemma CountNew(rd: Reading, entries: seq<Entry>, order: seq<Key>, counts: map<Key, int>, e: Entry)
    requires Counted(rd, entries, order, counts) && !rd.ignored(e.localPort) && e.remoteName != ""
      && KeyOf(rd, e) !in counts
    ensures Counted(rd, entries + [e], order + [KeyOf(rd, e)], counts[KeyOf(rd, e) := 1])
  {
    var key := KeyOf(rd, e);
    OneMoreEntry(rd, entries, e);
    OneMoreKey(order, counts, key);
  }

  lemma OneMoreKey(order: seq<Key>, counts: map<Key, int>, key: Key)
    requires Distinct(order) && key !in counts
      && forall k {:trigger k in order} {:trigger k in counts} :: k in order <==> k in counts
    ensures Distinct(order + [key])
      && forall k {:trigger k in order + [key]} :: k in order + [key] <==> k in counts[key := 1]
    ensures SumOver(order + [key], counts[key := 1]) == SumOver(order, counts) + 1
  {
    var more := order + [key];
    assert more[..|more| - 1] == order;
    SumElsewhere(order, counts, key, 1);
    forall i, j | 0 <= i < j < |more|
      ensures more[i] != more[j]
    {
      assert more[i] in order;
    }
  }

  lemma SkipIgnored(rd: Reading, entries: seq<Entry>, order: seq<Key>, counts: map<Key, int>, e: Entry)
    requires Counted(rd, entries, order, counts) && rd.ignored(e.localPort)
    ensures Counted(rd, entries + [e], order, counts)
  {
    OneMoreEntry(rd, entries, e);
  }

  /** No remote system has more links than an int32 can count. */
  ghost predicate FitsInt32(rd: Reading, entries: seq<Entry>) {
    forall name {:trigger LinksTo(rd, entries, name)} :: |LinksTo(rd, entries, name)| <= MAX_INT32
  }

  lemma FitsMeansReported(rd: Reading, entries: seq<Entry>, key: Key)
    requires FitsInt32(rd, entries)
    ensures Reported(rd, entries, key) <= MAX_INT32
  {
    ReportedIsLinks(rd, entries, key);
  }

  ghost predicate InInt32(order: seq<Key>, counts: map<Key, int>) {
    && (forall k {:trigger counts[k]} :: k in counts ==> -MAX_INT32 - 1 <= counts[k] <= MAX_INT32)
    && (forall k {:trigger k in order} :: k in order ==> k in counts)
  }

  lemma FitsBefore(rd: Reading, entries: seq<Entry>, e: Entry)
    requires WellFormed(rd, entries) && !Malformed(rd, e) && FitsInt32(rd, entries + [e])
    ensures FitsInt32(rd, entries) && (!rd.ignored(e.localPort) ==> Reported(rd, entries, KeyOf(rd, e)) < MAX_INT32)
  {
    OneMoreEntry(rd, entries, e);
    forall name
      ensures |LinksTo(rd, entries, name)| <= MAX_INT32
    {
      LinksGrow(rd, entries, e, name);
      assert |LinksTo(rd, entries + [e], name)| <= MAX_INT32;
    }
    FitsMeansReported(rd, entries + [e], KeyOf(rd, e));
  }

  /** One turn of the counting loop, while the counts are in range. */
  lemma CountOne(rd: Reading, entries: seq<Entry>, order: seq<Key>, counts: map<Key, int>, e: Entry)
    requires FitsInt32(rd, entries) ==> Counted(rd, entries, order, counts)
    requires WellFormed(rd, entries) && !Malformed(rd, e) && FitsInt32(rd, entries + [e])
    ensures var key := KeyOf(rd, e);
      if rd.ignored(e.localPort) then Counted(rd, entries + [e], order, counts)
      else if CountOf(counts, key) == 0 then Counted(rd, entries + [e], order + [key], counts[key := 1])
      else
        && CountOf(counts, key) < MAX_INT32
        && Counted(rd, entries + [e], order, counts[key := CountOf(counts, key) + 1])
  {
    var key := KeyOf(rd, e);
    FitsBefore(rd, entries, e);
    assert CountOf(counts, key) == Reported(rd, entries, key);
    if rd.ignored(e.localPort) {
      SkipIgnored(rd, entries, order, counts, e);
    } else if key in counts {
      CountAgain(rd, entries, order, counts, e);
    } else {
      CountNew(rd, entries, order, counts, e);
    }
  }

  /** linkCounts[key]++ on an int32. */
  function Increment32(x: int): int {
    if x == MAX_INT32 then -MAX_INT32 - 1 else x + 1
  }

  /** normalizeSnapshotNeighbors, without the final sort by key: it counts the links right
      exactly when no remote system has more of them than an int32 can hold. */
  method NormalizeNeighbors(rd: Reading, entries: seq<Entry>) returns (r: Result<seq<Neighbor>, string>)
    ensures r.Ok? <==> WellFormed(rd, entries)
    ensures r.Ok? ==> (IsNormalization(rd, entries, r.value) <==> FitsInt32(rd, entries))
  {
    var order: seq<Key>, counts: map<Key, int> := [], map[];
    for i := 0 to |entries|
      invariant WellFormed(rd, entries[..i]) && InInt32(order, counts)
      invariant FitsInt32(rd, entries[..i]) ==> Counted(rd, entries[..i], order, counts)
    {
      var e := entries[i];
      assert entries[..i + 1] == entries[..i] + [e];
      if !rd.ignored(e.localPort) && e.remoteName == "" {
        return Err("malformed");
      }
      OneMoreEntry(rd, entries[..i], e);
      if FitsInt32(rd, entries[..i + 1]) {
        CountOne(rd, entries[..i], order, counts, e);
      }
      if !rd.ignored(e.localPort) {
        var key := KeyOf(rd, e);
        if CountOf(counts, key) == 0 {
          order := order + [key];
        }
        counts := counts[key := Increment32(CountOf(counts, key))];
      }
    }
    assert entries[..|entries|] == entries;
    var neighbors := ListNeighbors(order, counts);
    if FitsInt32(rd, entries) {
      Normalized(rd, entries, order, counts, neighbors);
    } else {
      NotNormalized(rd, entries, order, counts, neighbors);
    }
    r := Ok(neighbors);
  }

  lemma NotNormalized(rd: Reading, entries: seq<Entry>, order: seq<Key>, counts: map<Key, int>,
                      neighbors: seq<Neighbor>)
    requires !FitsInt32(rd, entries) && InInt32(order, counts) && |neighbors| == |order|
    requires forall j {:trigger neighbors[j]} :: 0 <= j < |order| ==>
      order[j] in counts && neighbors[j] == Neighbor(order[j], counts[order[j]])
    ensures !IsNormalization(rd, entries, neighbors)
  {
    var name :| |LinksTo(rd, entries, name)| > MAX_INT32;
    var k :| k in LinksTo(rd, entries, name);
    if ListedOnce(neighbors, entries[k].remoteName) {
      var i :| 0 <= i < |neighbors| && neighbors[i].key.name == name;
      assert !RightNeighbor(rd, entries, neighbors[i]);
    }
  }

  /** The second loop: one neighbour per key, in order of first report. */
  method ListNeighbors(order: seq<Key>, counts: map<Key, int>) returns (neighbors: seq<Neighbor>)
    requires forall k :: k in order ==> k in counts
    ensures |neighbors| == |order| && Total(neighbors) == SumOver(order, counts)
    ensures forall j {:trigger neighbors[j]} :: 0 <= j < |order| ==>
      neighbors[j] == Neighbor(order[j], counts[order[j]])
  {
    neighbors := [];
    for i := 0 to |order|
      invariant |neighbors| == i && Total(neighbors) == SumOver(order[..i], counts)
      invariant forall j {:trigger neighbors[j]} :: 0 <= j < i ==> neighbors[j] == Neighbor(order[j], counts[order[j]])
    {
      var n := Neighbor(order[i], counts[order[i]]);
      assert order[..i + 1][..i] == order[..i] && (neighbors + [n])[..i] == neighbors;
      neighbors := neighbors + [n];
    }
    assert order[..|order|] == order;
  }

  lemma CountedIsRight(rd: Reading, entries: seq<Entry>, order: seq<Key>, counts: map<Key, int>, key: Key)
    requires Counted(rd, entries, order, counts) && key in counts
    ensures RightNeighbor(rd, entries, Neighbor(key, counts[key]))
  {
    assert CountOf(counts, key) == Reported(rd, entries, key);
    ReportedIsLinks(rd, entries, key);
  }

  lemma ReportedIsListed(rd: Reading, entries: seq<Entry>, order: seq<Key>, counts: map<Key, int>, e: Entry)
    requires Counted(rd, entries, order, counts) && e in entries && !rd.ignored(e.localPort)
    ensures KeyOf(rd, e) in order
  {
    var key := KeyOf(rd, e);
    var i :| 0 <= i < |entries| && entries[i] == e;
    assert i in LinksTo(rd, entries, key.name);
    ReportedIsLinks(rd, entries, key);
    assert CountOf(counts, key) == Reported(rd, entries, key);
  }

  lemma Normalized(rd: Reading, entries: seq<Entry>, order: seq<Key>, counts: map<Key, int>, neighbors: seq<Neighbor>)
    requires Counted(rd, entries, order, counts) && |neighbors| == |order| && Total(neighbors) == SumOver(order, counts)
    requires forall j {:trigger neighbors[j]} :: 0 <= j < |order| ==>
      neighbors[j] == Neighbor(order[j], counts[order[j]])
    ensures IsNormalization(rd, entries, neighbors)
  {
    forall i | 0 <= i < |neighbors|
      ensures RightNeighbor(rd, entries, neighbors[i])
    {
      assert order[i] in counts;
      CountedIsRight(rd, entries, order, counts, order[i]);
    }
    forall k | 0 <= k < |entries| && !rd.ignored(entries[k].localPort)
      ensures ListedOnce(neighbors, entries[k].remoteName)
    {
      ReportedIsListed(rd, entries, order, counts, entries[k]);
      var i :| 0 <= i < |order| && order[i] == KeyOf(rd, entries[k]);
      SameNameSameKey(rd, entries, order, counts, neighbors, i);
      assert neighbors[i].key.name == entries[k].remoteName;
    }
  }

  lemma SameNameSameKey(rd: Reading, entries: seq<Entry>, order: seq<Key>, counts: map<Key, int>,
                        neighbors: seq<Neighbor>, i: nat)
    requires Counted(rd, entries, order, counts) && |neighbors| == |order| && i < |order|
    requires forall j {:trigger neighbors[j]} :: 0 <= j < |order| ==>
      neighbors[j] == Neighbor(order[j], counts[order[j]])
    ensures forall j :: 0 <= j < |neighbors| && neighbors[j].key.name == neighbors[i].key.name ==> j == i
  {
    forall j | 0 <= j < |neighbors| && neighbors[j].key.name == neighbors[i].key.name
      ensures j == i
    {
      assert order[i] in counts && order[j] in counts;
      CountedIsRight(rd, entries, order, counts, order[i]);
      CountedIsRight(rd, entries, order, counts, order[j]);
      assert order[i] == order[j];
    }
  }

  // -------------------------------------------------------------- accepting snapshots

  /** Which ports are ignored. */
  type Ports = string -> bool

  /** A received snapshot, the names of the Nodes if they could be listed, and whether the status
      can be written. */
  datatype Event = Event(snapshot: Snapshot, nodes: Option<set<string>>, statusWritten: bool)

  /** classifyRemoteSystemType. */
  predicate IsNodeName(nodes: set<string>, name: string) {
    name in nodes || ResourceName.Normalize(name) in set n | n in nodes :: ResourceName.Normalize(n)
  }

  /** Without the Node list every remote system is read as a switch. */
  function ReadingFor(ignored: Ports, nodes: Option<set<string>>): Reading {
    Reading(ignored, name => nodes.Some? && IsNodeName(nodes.value, name))
  }

  /** Some Node has this name, as far as normalization can tell. */
  ghost predicate SomeNodeSpells(nodes: set<string>, name: string) {
    exists n :: n in nodes && ResourceName.Normalize(n) == ResourceName.Normalize(name)
  }

  /** What the status says of these entries: with the Nodes at hand, a neighbour is a Node exactly
      when a Node has its name; without them, none is. */
  ghost predicate KindsAreRight(nodes: Option<set<string>>, neighbors: seq<Neighbor>) {
    forall i :: 0 <= i < |neighbors| ==>
      (neighbors[i].key.kind.KubernetesNode? <==> nodes.Some? && SomeNodeSpells(nodes.value, neighbors[i].key.name))
  }

  lemma NormalizationHasRightKinds(ignored: Ports, nodes: Option<set<string>>, entries: seq<Entry>,
                                   neighbors: seq<Neighbor>)
    requires IsNormalization(ReadingFor(ignored, nodes), entries, neighbors)
    ensures KindsAreRight(nodes, neighbors)
  {
    var rd := ReadingFor(ignored, nodes);
    forall i | 0 <= i < |neighbors|
      ensures neighbors[i].key.kind.KubernetesNode? <==>
        nodes.Some? && SomeNodeSpells(nodes.value, neighbors[i].key.name)
    {
      assert RightNeighbor(rd, entries, neighbors[i]);
    }
  }

  /** The neighbours are the normalization, as far as an int32 can count links. */
  ghost predicate Normalizes(rd: Reading, entries: seq<Entry>, neighbors: seq<Neighbor>) {
    FitsInt32(rd, entries) <==> IsNormalization(rd, entries, neighbors)
  }

  ghost predicate Acceptable(ignored: Ports, e: Event) {
    WellFormed(ReadingFor(ignored, e.nodes), e.snapshot.entries) && e.statusWritten
  }

  ghost predicate Increasing(accepted: seq<Event>) {
    forall i, j :: 0 <= i < j < |accepted| ==> accepted[i].snapshot.generation < accepted[j].snapshot.generation
  }

  ghost predicate Covered(events: seq<Event>, generation: int) {
    forall i :: 0 <= i < |events| ==> events[i].snapshot.generation <= generation
  }

  /** Event `i` is newer than all before it and cannot be read or stored. */
  ghost predicate FailsAt(ignored: Ports, generation: int, events: seq<Event>, i: int) {
    && 0 <= i < |events| && !Acceptable(ignored, events[i]) && events[i].snapshot.generation > generation
    && forall j :: 0 <= j < i ==> events[j].snapshot.generation < events[i].snapshot.generation
  }

  /** A connection that starts at this generation fails. */
  ghost predicate Fails(ignored: Ports, generation: int, events: seq<Event>) {
    exists i :: FailsAt(ignored, generation, events, i)
  }

  lemma FailsEarlier(ignored: Ports, earlier: int, later: int, events: seq<Event>)
    requires earlier <= later && Fails(ignored, later, events)
    ensures Fails(ignored, earlier, events)
  {
    var i :| FailsAt(ignored, later, events, i);
    assert FailsAt(ignored, earlier, events, i);
  }

  ghost predicate Received(connections: seq<seq<Event>>, e: Event) {
    exists c :: 0 <= c < |connections| && e in connections[c]
  }

  /** The subscription to one Switch, over all its connections. `accepted` is its history. */
  class SwitchSubscription {
    const ignored: Ports
    var lastGeneration: int
    var neighbors: seq<Neighbor>
    ghost var accepted: seq<Event>

    /** Accepted generations strictly increase, and the status holds the normalization of the
        last accepted snapshot. */
    ghost predicate Valid()
      reads this
    {
      && Increasing(accepted)
      && (accepted == [] ==> lastGeneration == 0)
      && (accepted != [] ==>
            var last := accepted[|accepted| - 1];
            && lastGeneration == last.snapshot.generation
            && Normalizes(ReadingFor(ignored, last.nodes), last.snapshot.entries, neighbors))
    }

    constructor (ports: Ports, stored: seq<Neighbor>)
      ensures Valid() && ignored == ports && accepted == [] && neighbors == stored
    {
      ignored, lastGeneration, neighbors, accepted := ports, 0, stored, [];
    }

    /** handleSnapshot. */
    method HandleSnapshot(e: Event) returns (r: Result<bool, string>)
      requires Valid()
      modifies this
      ensures Valid()
      ensures r.Ok? ==> (r.value <==> e.snapshot.generation > old(lastGeneration))
      ensures r.Err? <==> e.snapshot.generation > old(lastGeneration) && !Acceptable(ignored, e)
      ensures r.Ok? && r.value ==> accepted == old(accepted) + [e] && lastGeneration == e.snapshot.generation
      ensures r.Ok? && r.value && FitsInt32(ReadingFor(ignored, e.nodes), e.snapshot.entries) ==>
        KindsAreRight(e.nodes, neighbors)
      ensures r.Err? || !r.value ==>
        accepted == old(accepted) && lastGeneration == old(lastGeneration) && neighbors == old(neighbors)
    {
      if e.snapshot.generation <= lastGeneration {
        return Ok(false);
      }
      var normalized := NormalizeNeighbors(ReadingFor(ignored, e.nodes), e.snapshot.entries);
      match normalized
      case Err(error) =>
        return Err(error);
      case Ok(found) =>
        if !e.statusWritten {
          return Err("status update failed");
        }
        neighbors := found;
        lastGeneration := e.snapshot.generation;
        accepted := accepted + [e];
        if FitsInt32(ReadingFor(ignored, e.nodes), e.snapshot.entries) {
          NormalizationHasRightKinds(ignored, e.nodes, e.snapshot.entries, neighbors);
        }
        r := Ok(true);
    }

    /** subscribeUntilDisconnect: receive until the stream ends or a snapshot cannot be handled. */
    method ReceiveUntilError(events: seq<Event>) returns (failed: bool)
      requires Valid()
      modifies this
      ensures Valid() && old(accepted) <= accepted && lastGeneration >= old(lastGeneration)
      ensures accepted == old(accepted) ==> neighbors == old(neighbors)
      ensures forall i :: |old(accepted)| <= i < |accepted| ==>
        accepted[i] in events && Acceptable(ignored, accepted[i])
      ensures !failed ==> Covered(events, lastGeneration)
      ensures failed <==> Fails(ignored, old(lastGeneration), events)
    {
      for i := 0 to |events|
        invariant Valid() && old(accepted) <= accepted && lastGeneration >= old(lastGeneration)
        invariant accepted == old(accepted) ==> neighbors == old(neighbors)
        invariant forall j :: |old(accepted)| <= j < |accepted| ==>
          accepted[j] in events && Acceptable(ignored, accepted[j])
        invariant Covered(events[..i], lastGeneration)
        invariant lastGeneration == old(lastGeneration)
          || exists j :: 0 <= j < i && events[j].snapshot.generation == lastGeneration
        invariant forall j :: 0 <= j < i ==> !FailsAt(ignored, old(lastGeneration), events, j)
      {
        var handled := HandleSnapshot(events[i]);
        if handled.Err? {
          assert FailsAt(ignored, old(lastGeneration), events, i);
          return true;
        }
        assert events[..i + 1][i] == events[i];
      }
      assert events[..|events|] == events;
      failed := false;
    }

    /** runSubscription: reconnect after every disconnect, keeping the last generation. */
    method RunSubscription(connections: seq<seq<Event>>)
      requires Valid()
      modifies this
      ensures Valid() && old(accepted) <= accepted && lastGeneration >= old(lastGeneration)
      ensures forall i :: |old(accepted)| <= i < |accepted| ==>
        Received(connections, accepted[i]) && Acceptable(ignored, accepted[i])
      ensures forall c :: 0 <= c < |connections| ==>
        Covered(connections[c], lastGeneration) || Fails(ignored, old(lastGeneration), connections[c])
    {
      for c := 0 to |connections|
        invariant Valid() && old(accepted) <= accepted && lastGeneration >= old(lastGeneration)
        invariant forall i :: |old(accepted)| <= i < |accepted| ==>
          Received(connections, accepted[i]) && Acceptable(ignored, accepted[i])
        invariant forall k :: 0 <= k < c ==>
          Covered(connections[k], lastGeneration) || Fails(ignored, old(lastGeneration), connections[k])
      {
        ghost var before := lastGeneration;
        var failed := ReceiveUntilError(connections[c]);
        if failed {
          FailsEarlier(ignored, old(lastGeneration), before, connections[c]);
        }
      }
    }
  }

  // -------------------------------------------------------------------- neighbour events

  ghost function KeySet(neighbors: seq<Neighbor>): set<Key> {
    set i | 0 <= i < |neighbors| :: neighbors[i].key
  }

  method CollectKeys(neighbors: seq<Neighbor>) returns (keys: set<Key>)
    ensures keys == KeySet(neighbors)
  {
    keys := {};
    for i := 0 to |neighbors|
      invariant keys == KeySet(neighbors[..i])
    {
      assert KeySet(neighbors[..i + 1]) == KeySet(neighbors[..i]) + {neighbors[i].key} by {
        KeySetGrows(neighbors, i);
      }
      keys := keys + {neighbors[i].key};
    }
    assert neighbors[..|neighbors|] == neighbors;
  }

  lemma KeySetGrows(neighbors: seq<Neighbor>, i: nat)
    requires i < |neighbors|
    ensures KeySet(neighbors[..i + 1]) == KeySet(neighbors[..i]) + {neighbors[i].key}
  {
    var long, short := neighbors[..i + 1], neighbors[..i];
    forall k | k in KeySet(short) + {neighbors[i].key}
      ensures k in KeySet(long)
    {
      if k in KeySet(short) {
        var j :| 0 <= j < |short| && short[j].key == k;
        assert long[j].key == k;
      } else {
        assert long[i].key == k;
      }
    }
  }

  method CountMissing(from: set<Key>, others: set<Key>) returns (n: nat)
    ensures n == |from - others|
  {
    n := 0;
    var todo := from;
    assert from - todo - others == {};
    while todo != {}
      invariant todo <= from && n == |from - todo - others|
      decreases todo
    {
      var k :| k in todo;
      ghost var before := from - todo - others;
      todo := todo - {k};
      assert from - todo - others == if k in others then before else before + {k};
      if k !in others {
        n := n + 1;
      }
    }
    assert from - todo - others == from - others;
  }

  /** diffNeighborKeys. */
  method DiffNeighborKeys(previous: seq<Neighbor>, current: seq<Neighbor>) returns (added: nat, removed: nat)
    ensures added == |KeySet(current) - KeySet(previous)| && removed == |KeySet(previous) - KeySet(current)|
    ensures added == 0 && removed == 0 <==> KeySet(previous) == KeySet(current)
  {
    var previousKeys := CollectKeys(previous);
    var currentKeys := CollectKeys(current);
    added := CountMissing(currentKeys, previousKeys);
    removed := CountMissing(previousKeys, currentKeys);
    if added == 0 && removed == 0 {
      NothingMissing(previousKeys, currentKeys);
    }
  }

  lemma NothingMissing(a: set<Key>, b: set<Key>)
    requires |a - b| == 0 && |b - a| == 0
    ensures a == b
  {
    forall k
      ensures k in a <==> k in b
    {
      assert k !in a - b && k !in b - a;
    }
  }
}
