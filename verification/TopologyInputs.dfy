/** buildTopologyInputsForRole: hosts and switch neighbours for discovery, from FabricNodes and
    Switches in whatever order they are listed. Names are resolved against a map of switches
    that grows on the way; the result is that of a fixed canonical name per host name. */
module TopologyInputs {
  import opened Wrappers
  import ResourceName

  datatype Nic = Nic(state: string, peer: string, peerPort: string)

  /** A FabricNode with its interfaces for the role. */
  datatype FabricNode = FabricNode(name: string, nics: seq<Nic>)

  datatype LldpNeighbor = LldpNeighbor(isNode: bool, name: string)

  /** The neighbour annotation: absent, not a list of non-empty names, or such a list. */
  datatype Annotation = Absent | Malformed | Listed(names: seq<string>)

  /** A Switch of the role. */
  datatype SwitchInput = SwitchInput(name: string, hostname: string, manual: Annotation, lldp: seq<LldpNeighbor>)

  /** Neighbours by switch, participating hosts, and switches known from hosts only. */
  datatype Inputs = Inputs(hosts: set<string>, switches: map<string, set<string>>, nodeOnly: bool,
    synthetic: set<string>)

  datatype InputError = BadAnnotation(switch: string) | UnknownNeighbor(neighbor: string) | SelfReference(self: string)

  /** Normalization, of which only idempotence is used. */
  type Norm = string -> string

  ghost predicate Idempotent(norm: Norm) {
    forall s {:trigger norm(s)} :: norm(norm(s)) == norm(s)
  }

  lemma RealNormIsIdempotent()
    ensures Idempotent(s => ResourceName.Normalize(s))
  {
    forall s: string
      ensures ResourceName.Normalize(ResourceName.Normalize(s)) == ResourceName.Normalize(s)
    {
      ResourceName.NormalizeIdempotent(s);
    }
  }

  // ---------------------------------------------------------------------- switch names

  /** `key` is the normalized name or host name of the switch. */
  ghost predicate HasKey(norm: Norm, sw: SwitchInput, key: string) {
    norm(sw.name) == key || (sw.hostname != "" && norm(sw.hostname) == key)
  }

  /** No two switches share a normalized name or host name. */
  ghost predicate UniqueKeys(norm: Norm, switches: set<SwitchInput>) {
    forall a, b, key {:trigger HasKey(norm, a, key), HasKey(norm, b, key)} ::
      a in switches && b in switches && HasKey(norm, a, key) && HasKey(norm, b, key) ==> a.name == b.name
  }

  ghost predicate SomeHasKey(norm: Norm, switches: set<SwitchInput>, key: string) {
    exists sw :: sw in switches && HasKey(norm, sw, key)
  }

  /** The normalized names of the switches, each with its switch. */
  ghost predicate IndexesNames(norm: Norm, switches: set<SwitchInput>, byKey: map<string, string>) {
    && (forall sw, key {:trigger HasKey(norm, sw, key)} :: sw in switches && HasKey(norm, sw, key) ==>
          key in byKey && byKey[key] == sw.name)
    && (forall key {:trigger key in byKey} :: key in byKey ==> SomeHasKey(norm, switches, key))
  }

  ghost function ToSet<T>(s: seq<T>): set<T> {
    set i | 0 <= i < |s| :: s[i]
  }

  lemma ToSetGrows<T>(s: seq<T>, i: nat)
    requires i < |s|
    ensures ToSet(s[..i + 1]) == ToSet(s[..i]) + {s[i]}
  {
    var long, short := s[..i + 1], s[..i];
    forall x | x in ToSet(short) + {s[i]}
      ensures x in ToSet(long)
    {
      if x in ToSet(short) {
        var j :| 0 <= j < i && short[j] == x;
        assert long[j] == x;
      } else {
        assert long[i] == x;
      }
    }
  }

  function AddKeys(norm: Norm, byKey: map<string, string>, sw: SwitchInput): map<string, string> {
    var named := byKey[norm(sw.name) := sw.name];
    if sw.hostname != "" then named[norm(sw.hostname) := sw.name] else named
  }

  /** Switch `i` is the last one in the list with this key. */
  ghost predicate LastWith(norm: Norm, switches: seq<SwitchInput>, key: string, i: int) {
    0 <= i < |switches| && HasKey(norm, switches[i], key)
      && forall j :: i < j < |switches| ==> !HasKey(norm, switches[j], key)
  }

  ghost predicate NamedByLast(norm: Norm, switches: seq<SwitchInput>, key: string, name: string) {
    exists i :: LastWith(norm, switches, key, i) && switches[i].name == name
  }

  /** The keys of the listed switches, each with the last switch that has it. */
  ghost predicate IndexesLast(norm: Norm, switches: seq<SwitchInput>, byKey: map<string, string>) {
    && (forall i, key {:trigger HasKey(norm, switches[i], key)} ::
          0 <= i < |switches| && HasKey(norm, switches[i], key) ==> key in byKey)
    && (forall key {:trigger byKey[key]} :: key in byKey ==> NamedByLast(norm, switches, key, byKey[key]))
  }

  lemma AddKeysIndexes(norm: Norm, switches: seq<SwitchInput>, byKey: map<string, string>, sw: SwitchInput)
    requires IndexesLast(norm, switches, byKey)
    ensures IndexesLast(norm, switches + [sw], AddKeys(norm, byKey, sw))
  {
    var more, all := AddKeys(norm, byKey, sw), switches + [sw];
    forall i, key | 0 <= i < |all| && HasKey(norm, all[i], key)
      ensures key in more
    {
      if i < |switches| {
        assert HasKey(norm, switches[i], key);
      }
    }
    forall key | key in more
      ensures NamedByLast(norm, all, key, more[key])
    {
      if HasKey(norm, sw, key) {
        assert LastWith(norm, all, key, |switches|);
      } else {
        assert NamedByLast(norm, switches, key, byKey[key]);
        var i :| LastWith(norm, switches, key, i) && switches[i].name == byKey[key];
        assert LastWith(norm, all, key, i);
      }
    }
  }

  /** The first loop over the switches: a later switch takes over the keys it shares. */
  method IndexNames(norm: Norm, switches: seq<SwitchInput>) returns (byKey: map<string, string>)
    ensures IndexesLast(norm, switches, byKey)
  {
    byKey := map[];
    for i := 0 to |switches|
      invariant IndexesLast(norm, switches[..i], byKey)
    {
      AddKeysIndexes(norm, switches[..i], byKey, switches[i]);
      assert switches[..i + 1] == switches[..i] + [switches[i]];
      byKey := AddKeys(norm, byKey, switches[i]);
    }
    assert switches[..|switches|] == switches;
  }

  /** Where no key is shared, each key names its one switch. */
  lemma UniqueKeysIndex(norm: Norm, switches: seq<SwitchInput>, byKey: map<string, string>)
    requires UniqueKeys(norm, ToSet(switches)) && IndexesLast(norm, switches, byKey)
    ensures IndexesNames(norm, ToSet(switches), byKey)
  {
    var all := ToSet(switches);
    forall sw, key | sw in all && HasKey(norm, sw, key)
      ensures key in byKey && byKey[key] == sw.name
    {
      var i :| 0 <= i < |switches| && switches[i] == sw;
      assert HasKey(norm, switches[i], key);
      assert NamedByLast(norm, switches, key, byKey[key]);
      var j :| LastWith(norm, switches, key, j) && switches[j].name == byKey[key];
      assert switches[j] in all;
    }
    forall key | key in byKey
      ensures SomeHasKey(norm, all, key)
    {
      assert NamedByLast(norm, switches, key, byKey[key]);
      var j :| LastWith(norm, switches, key, j);
      assert switches[j] in all;
    }
  }

  /** Two indexes of the same switches are the same. */
  lemma NamesAreDetermined(norm: Norm, switches: set<SwitchInput>, a: map<string, string>, b: map<string, string>)
    requires IndexesNames(norm, switches, a) && IndexesNames(norm, switches, b)
    ensures a == b
  {
    forall key
      ensures key in a <==> key in b
    {
      KeyInBoth(norm, switches, a, b, key);
      KeyInBoth(norm, switches, b, a, key);
    }
    forall key | key in a
      ensures a[key] == b[key]
    {
      KeyInBoth(norm, switches, a, b, key);
    }
  }

  lemma KeyInBoth(norm: Norm, switches: set<SwitchInput>, a: map<string, string>, b: map<string, string>, key: string)
    requires IndexesNames(norm, switches, a) && IndexesNames(norm, switches, b)
    ensures key in a ==> key in b && a[key] == b[key]
  {
    if key in a {
      assert SomeHasKey(norm, switches, key);
      var sw :| sw in switches && HasKey(norm, sw, key);
    }
  }

  // ------------------------------------------------------------------ canonical names

  /** What names are resolved against: the switches, their normalized names, and whether
      switches may be known from hosts only. */
  datatype Context = Context(norm: Norm, names: set<string>, byKey: map<string, string>, allowed: bool)

  ghost predicate Sound(c: Context) {
    && Idempotent(c.norm)
    && (forall k {:trigger c.byKey[k]} :: k in c.byKey ==> c.byKey[k] in c.names)
    && (forall n {:trigger n in c.names} :: n in c.names ==> c.norm(n) in c.byKey)
  }

  /** A host name that belongs to no Switch and stands for one of its own. */
  predicate IsSynthetic(c: Context, raw: string) {
    raw !in c.names && c.norm(raw) !in c.byKey && c.allowed && c.norm(raw) != ""
  }

  /** The one switch that a host name stands for, whatever was seen before. */
  function Canonical(c: Context, raw: string): Option<string> {
    if raw in c.names then Some(raw)
    else if c.norm(raw) in c.byKey then Some(c.byKey[c.norm(raw)])
    else if IsSynthetic(c, raw) then Some(c.norm(raw))
    else None
  }

  /** resolveSwitchName, against the switches that exist so far. */
  function ResolveSwitchName(c: Context, existing: set<string>, raw: string): Option<string> {
    if raw in existing then Some(raw)
    else if c.norm(raw) !in c.byKey then None
    else if c.byKey[c.norm(raw)] in existing then Some(c.byKey[c.norm(raw)])
    else None
  }

  /** A host seen on a switch: host and the name it saw. */
  type Link = (string, string)

  ghost function SyntheticOf(c: Context, links: set<Link>): set<string> {
    set l | l in links && IsSynthetic(c, l.1) :: c.norm(l.1)
  }

  ghost function HostsOn(c: Context, links: set<Link>, switch: string): set<string> {
    set l | l in links && Canonical(c, l.1) == Some(switch) && l.0 != "" :: l.0
  }

  ghost function BuildersOf(c: Context, links: set<Link>): map<string, set<string>> {
    map k | k in c.names + SyntheticOf(c, links) :: HostsOn(c, links, k)
  }

  ghost function HostsOf(c: Context, links: set<Link>): set<string> {
    set l | l in links && Canonical(c, l.1).Some? :: l.0
  }

  /** Resolving against the growing map gives the canonical name: a synthetic name that is
      already there normalizes to itself. */
  lemma ResolveIsCanonical(c: Context, links: set<Link>, raw: string)
    requires Sound(c)
    ensures var found := ResolveSwitchName(c, c.names + SyntheticOf(c, links), raw);
      && (found.Some? ==> found == Canonical(c, raw))
      && (found.None? ==>
            (IsSynthetic(c, raw) <==> c.allowed && c.norm(raw) != "")
              && (!IsSynthetic(c, raw) ==> Canonical(c, raw).None?))
  {
    if raw in SyntheticOf(c, links) {
      var l :| l in links && IsSynthetic(c, l.1) && c.norm(l.1) == raw;
      assert c.norm(c.norm(l.1)) == c.norm(l.1);
    }
  }

  datatype Progress = Progress(builders: map<string, set<string>>, hosts: set<string>, synthetic: set<string>)

  ghost predicate Built(c: Context, links: set<Link>, p: Progress) {
    p.builders == BuildersOf(c, links) && p.hosts == HostsOf(c, links) && p.synthetic == SyntheticOf(c, links)
  }

  /** ensureSwitchBuilder and addNeighbor. */
  function AddNeighbor(builders: map<string, set<string>>, switch: string, neighbor: string): map<string, set<string>> {
    var before := if switch in builders then builders[switch] else {};
    builders[switch := if neighbor == "" then before else before + {neighbor}]
  }

  /** One interface of a node: the switch it resolves to, if any, gets the node as neighbour. */
  function AddLink(c: Context, p: Progress, link: Link): Progress {
    match ResolveSwitchName(c, p.builders.Keys, link.1)
    case Some(switch) => Progress(AddNeighbor(p.builders, switch, link.0), p.hosts + {link.0}, p.synthetic)
    case None =>
      if c.allowed && c.norm(link.1) != "" then
        Progress(AddNeighbor(p.builders, c.norm(link.1), link.0), p.hosts + {link.0}, p.synthetic + {c.norm(link.1)})
      else p
  }

  lemma SyntheticGrows(c: Context, links: set<Link>, link: Link)
    ensures SyntheticOf(c, links + {link}) == SyntheticOf(c, links) + if IsSynthetic(c, link.1) then {c.norm(link.1)}
      else {}
  {
    var more := links + {link};
    forall x | x in SyntheticOf(c, links)
      ensures x in SyntheticOf(c, more)
    {
      var l :| l in links && IsSynthetic(c, l.1) && c.norm(l.1) == x;
      assert l in more;
    }
    assert link in more;
  }

  lemma HostsGrow(c: Context, links: set<Link>, link: Link)
    ensures HostsOf(c, links + {link}) == HostsOf(c, links) + if Canonical(c, link.1).Some? then {link.0} else {}
  {
    var more := links + {link};
    forall x | x in HostsOf(c, links)
      ensures x in HostsOf(c, more)
    {
      var l :| l in links && Canonical(c, l.1).Some? && l.0 == x;
      assert l in more;
    }
    assert link in more;
  }

  lemma HostsOnGrow(c: Context, links: set<Link>, link: Link, k: string)
    ensures HostsOn(c, links + {link}, k) == HostsOn(c, links, k) + if Canonical(c, link.1) == Some(k) && link.0 != ""
      then {link.0} else {}
  {
    var more := links + {link};
    forall x | x in HostsOn(c, links, k)
      ensures x in HostsOn(c, more, k)
    {
      var l :| l in links && Canonical(c, l.1) == Some(k) && l.0 != "" && l.0 == x;
      assert l in more;
    }
    assert link in more;
  }

  lemma NobodyOnNewSwitch(c: Context, links: set<Link>, k: string)
    requires Sound(c) && k !in c.names + SyntheticOf(c, links)
    ensures HostsOn(c, links, k) == {}
  {
    forall l | l in links
      ensures Canonical(c, l.1) != Some(k)
    {
      assert IsSynthetic(c, l.1) ==> c.norm(l.1) in SyntheticOf(c, links);
    }
  }

  lemma KeysGrow(c: Context, links: set<Link>, link: Link)
    requires Sound(c)
    ensures c.names + SyntheticOf(c, links + {link}) ==
      c.names + SyntheticOf(c, links) + if Canonical(c, link.1).Some? then {Canonical(c, link.1).value} else {}
  {
    SyntheticGrows(c, links, link);
  }

  /** The hosts on switch `k` after one more link. */
  lemma BuilderGrows(c: Context, links: set<Link>, link: Link, switch: string, k: string)
    requires Sound(c) && Canonical(c, link.1) == Some(switch) && k in c.names + SyntheticOf(c, links) + {switch}
    ensures HostsOn(c, links + {link}, k) == AddNeighbor(BuildersOf(c, links), switch, link.0)[k]
  {
    HostsOnGrow(c, links, link, k);
    if k !in c.names + SyntheticOf(c, links) {
      NobodyOnNewSwitch(c, links, k);
    }
  }

  /** A link to a switch adds its host to that switch. */
  lemma BuildersGain(c: Context, links: set<Link>, link: Link, switch: string)
    requires Sound(c) && Canonical(c, link.1) == Some(switch)
    ensures BuildersOf(c, links + {link}) == AddNeighbor(BuildersOf(c, links), switch, link.0)
  {
    KeysGrow(c, links, link);
    var after, added := BuildersOf(c, links + {link}), AddNeighbor(BuildersOf(c, links), switch, link.0);
    assert after.Keys == added.Keys;
    forall k | k in after
      ensures after[k] == added[k]
    {
      BuilderGrows(c, links, link, switch, k);
    }
  }

  /** A link to no switch adds nothing. */
  lemma BuildersStay(c: Context, links: set<Link>, link: Link)
    requires Sound(c) && Canonical(c, link.1).None?
    ensures BuildersOf(c, links + {link}) == BuildersOf(c, links)
  {
    KeysGrow(c, links, link);
    var before, after := BuildersOf(c, links), BuildersOf(c, links + {link});
    assert after.Keys == before.Keys;
    forall k | k in after
      ensures after[k] == before[k]
    {
      HostsOnGrow(c, links, link, k);
    }
  }

  lemma BuildersGrow(c: Context, links: set<Link>, link: Link)
    requires Sound(c)
    ensures BuildersOf(c, links + {link}) ==
      if Canonical(c, link.1).Some? then AddNeighbor(BuildersOf(c, links), Canonical(c, link.1).value, link.0)
        else BuildersOf(c, links)
  {
    if Canonical(c, link.1).Some? {
      BuildersGain(c, links, link, Canonical(c, link.1).value);
    } else {
      BuildersStay(c, links, link);
    }
  }

  /** Adding a link to the growing map is adding it to the set of links. */
  lemma AddLinkBuilds(c: Context, links: set<Link>, p: Progress, link: Link)
    requires Sound(c) && Built(c, links, p)
    ensures Built(c, links + {link}, AddLink(c, p, link))
  {
    assert p.builders.Keys == c.names + SyntheticOf(c, links);
    ResolveIsCanonical(c, links, link.1);
    SyntheticGrows(c, links, link);
    HostsGrow(c, links, link);
    BuildersGrow(c, links, link);
  }

  // --------------------------------------------------------------------------- nodes

  predicate Usable(nic: Nic) {
    nic.state == "up" && nic.peer != "" && nic.peerPort != ""
  }

  ghost function LinksIn(node: FabricNode, n: nat): set<Link>
    requires n <= |node.nics|
  {
    set j | 0 <= j < n && Usable(node.nics[j]) :: (node.name, node.nics[j].peer)
  }

  ghost function LinksOf(nodes: set<FabricNode>): set<Link> {
    set n, l | n in nodes && l in LinksIn(n, |n.nics|) :: l
  }

  lemma LinksInGrow(node: FabricNode, n: nat)
    requires n < |node.nics|
    ensures LinksIn(node, n + 1) == LinksIn(node, n) + if Usable(node.nics[n]) then {(node.name, node.nics[n].peer)}
      else {}
  {
  }

  method AddNode(c: Context, node: FabricNode, before: Progress, ghost links: set<Link>) returns (p: Progress)
    requires Sound(c) && Built(c, links, before)
    ensures Built(c, links + LinksIn(node, |node.nics|), p)
  {
    p := before;
    assert links + LinksIn(node, 0) == links;
    for j := 0 to |node.nics|
      invariant Built(c, links + LinksIn(node, j), p)
    {
      var nic := node.nics[j];
      LinksInGrow(node, j);
      if Usable(nic) {
        var link := (node.name, nic.peer);
        AddLinkBuilds(c, links + LinksIn(node, j), p, link);
        assert links + LinksIn(node, j + 1) == links + LinksIn(node, j) + {link};
        p := AddLink(c, p, link);
      } else {
        assert links + LinksIn(node, j + 1) == links + LinksIn(node, j);
      }
    }
  }

  lemma LinksOfGrow(nodes: set<FabricNode>, node: FabricNode)
    ensures LinksOf(nodes + {node}) == LinksOf(nodes) + LinksIn(node, |node.nics|)
  {
    var more := nodes + {node};
    forall l | l in LinksOf(nodes)
      ensures l in LinksOf(more)
    {
      var n :| n in nodes && l in LinksIn(n, |n.nics|);
      assert n in more;
    }
    forall l | l in LinksIn(node, |node.nics|)
      ensures l in LinksOf(more)
    {
      assert node in more;
    }
  }

  /** The loop over the nodes. */
  method AddNodes(c: Context, nodes: seq<FabricNode>) returns (p: Progress)
    requires Sound(c)
    ensures Built(c, LinksOf(ToSet(nodes)), p)
  {
    p := Progress(map k | k in c.names :: {}, {}, {});
    NothingBuilt(c);
    assert LinksOf(ToSet(nodes[..0])) == {};
    for i := 0 to |nodes|
      invariant Built(c, LinksOf(ToSet(nodes[..i])), p)
    {
      ToSetGrows(nodes, i);
      LinksOfGrow(ToSet(nodes[..i]), nodes[i]);
      p := AddNode(c, nodes[i], p, LinksOf(ToSet(nodes[..i])));
    }
    assert nodes[..|nodes|] == nodes;
  }

  lemma NothingBuilt(c: Context)
    ensures Built(c, {}, Progress(map k | k in c.names :: {}, {}, {}))
  {
    assert SyntheticOf(c, {}) == {} && HostsOf(c, {}) == {};
    assert forall k :: HostsOn(c, {}, k) == {};
  }

  // ------------------------------------------------------------------- switch neighbours

  /** The switch that an annotation entry names, among the switches and the synthetic ones. */
  ghost function Named(c: Context, synthetic: set<string>, raw: string): Option<string> {
    var t := Canonical(c, raw);
    if t.Some? && t.value in c.names + synthetic then t else None
  }

  /** The lookup of the source: among existing switches, else as a synthetic name. */
  function FindManual(c: Context, existing: set<string>, synthetic: set<string>, raw: string): Option<string> {
    match ResolveSwitchName(c, existing, raw)
    case Some(name) => Some(name)
    case None => if c.norm(raw) in synthetic then Some(c.norm(raw)) else None
  }

  lemma FindManualIsNamed(c: Context, links: set<Link>, raw: string)
    requires Sound(c) && c.allowed
    ensures FindManual(c, c.names + SyntheticOf(c, links), SyntheticOf(c, links), raw) ==
      Named(c, SyntheticOf(c, links), raw)
  {
    var synthetic := SyntheticOf(c, links);
    ResolveIsCanonical(c, links, raw);
    assert c.norm(c.norm(raw)) == c.norm(raw);
    if c.norm(raw) in synthetic {
      var l :| l in links && IsSynthetic(c, l.1) && c.norm(l.1) == c.norm(raw);
    }
    if raw in synthetic {
      var l :| l in links && IsSynthetic(c, l.1) && c.norm(l.1) == raw;
      assert c.norm(c.norm(l.1)) == c.norm(l.1);
    }
  }

  /** canonicalRemoteSystemName. */
  function CanonicalRemote(c: Context, managed: set<string>, raw: string): string {
    if raw in managed then raw else if c.norm(raw) in c.byKey then c.byKey[c.norm(raw)] else raw
  }

  /** The neighbours one Switch contributes: its annotation when all Switches have one, else
      its LLDP peers that are not hosts. */
  ghost function NeighboursOf(c: Context, semi: bool, managed: set<string>, synthetic: set<string>,
                              sw: SwitchInput): set<string> {
    if semi then
      if sw.manual.Listed? then set i | 0 <= i < |sw.manual.names| && Named(c, synthetic, sw.manual.names[i]).Some? ::
        Named(c, synthetic, sw.manual.names[i]).value
      else {}
    else
      set i | 0 <= i < |sw.lldp| && Counts(c, managed, sw.lldp[i]) :: CanonicalRemote(c, managed, sw.lldp[i].name)
  }

  predicate Counts(c: Context, managed: set<string>, n: LldpNeighbor) {
    !n.isNode && CanonicalRemote(c, managed, n.name) !in managed && CanonicalRemote(c, managed, n.name) != ""
  }

  ghost predicate ManualOk(c: Context, synthetic: set<string>, sw: SwitchInput) {
    sw.manual.Listed? && forall i :: 0 <= i < |sw.manual.names| ==>
      Named(c, synthetic, sw.manual.names[i]).Some? && Named(c, synthetic, sw.manual.names[i]).value != sw.name
  }

  method ManualNeighbours(c: Context, sw: SwitchInput, existing: set<string>, synthetic: set<string>,
                          ghost links: set<Link>)
    returns (r: Result<set<string>, InputError>)
    requires Sound(c) && c.allowed && synthetic == SyntheticOf(c, links) && existing == c.names + synthetic
    ensures r.Ok? <==> ManualOk(c, synthetic, sw)
    ensures forall managed :: r.Ok? ==> r.value == NeighboursOf(c, true, managed, synthetic, sw)
  {
    if !sw.manual.Listed? {
      return Err(BadAnnotation(sw.name));
    }
    var found: set<string> := {};
    for i := 0 to |sw.manual.names|
      invariant forall j :: 0 <= j < i ==>
        Named(c, synthetic, sw.manual.names[j]).Some? && Named(c, synthetic, sw.manual.names[j]).value != sw.name
      invariant found == set j | 0 <= j < i && Named(c, synthetic, sw.manual.names[j]).Some? ::
        Named(c, synthetic, sw.manual.names[j]).value
    {
      FindManualIsNamed(c, links, sw.manual.names[i]);
      match FindManual(c, existing, synthetic, sw.manual.names[i])
      case None => return Err(UnknownNeighbor(sw.manual.names[i]));
      case Some(name) =>
        if name == sw.name {
          return Err(SelfReference(sw.name));
        }
        found := found + {name};
    }
    r := Ok(found);
  }

  method LldpNeighbours(c: Context, managed: set<string>, sw: SwitchInput) returns (found: set<string>)
    ensures forall synthetic :: found == NeighboursOf(c, false, managed, synthetic, sw)
  {
    found := {};
    for i := 0 to |sw.lldp|
      invariant found == set j | 0 <= j < i && Counts(c, managed, sw.lldp[j]) ::
        CanonicalRemote(c, managed, sw.lldp[j].name)
    {
      if Counts(c, managed, sw.lldp[i]) {
        found := found + {CanonicalRemote(c, managed, sw.lldp[i].name)};
      }
    }
  }

  type Contribution = SwitchInput -> set<string>

  ghost function ContributionOf(c: Context, semi: bool, managed: set<string>, synthetic: set<string>): Contribution {
    sw => NeighboursOf(c, semi, managed, synthetic, sw)
  }

  /** What all Switches together contribute to switch `k`. */
  ghost function NeighboursAt(f: Contribution, switches: set<SwitchInput>, k: string): set<string> {
    set sw, x | sw in switches && sw.name == k && x in f(sw) :: x
  }

  lemma NeighboursAtGrow(f: Contribution, switches: set<SwitchInput>, sw: SwitchInput, k: string)
    ensures NeighboursAt(f, switches + {sw}, k) == if sw.name == k then NeighboursAt(f, switches, k) + f(sw)
      else NeighboursAt(f, switches, k)
  {
    var more := switches + {sw};
    forall x | x in NeighboursAt(f, switches, k)
      ensures x in NeighboursAt(f, more, k)
    {
      var s :| s in switches && s.name == k && x in f(s);
      assert s in more;
    }
    forall x | sw.name == k && x in f(sw)
      ensures x in NeighboursAt(f, more, k)
    {
      assert sw in more;
    }
  }

  ghost function WithNeighbours(f: Contribution, switches: set<SwitchInput>,
                                builders: map<string, set<string>>): map<string, set<string>> {
    map k | k in builders :: builders[k] + NeighboursAt(f, switches, k)
  }

  function AddAll(builders: map<string, set<string>>, switch: string, found: set<string>): map<string, set<string>>
    requires switch in builders
  {
    builders[switch := builders[switch] + found]
  }

  lemma WithNeighboursGrow(f: Contribution, switches: set<SwitchInput>, builders: map<string, set<string>>,
                           sw: SwitchInput)
    requires sw.name in builders
    ensures WithNeighbours(f, switches + {sw}, builders) ==
      AddAll(WithNeighbours(f, switches, builders), sw.name, f(sw))
  {
    var before, after := WithNeighbours(f, switches, builders), WithNeighbours(f, switches + {sw}, builders);
    forall k | k in builders
      ensures after[k] == AddAll(before, sw.name, f(sw))[k]
    {
      NeighboursAtGrow(f, switches, sw, k);
    }
  }

  lemma WithNoNeighbours(f: Contribution, builders: map<string, set<string>>)
    ensures WithNeighbours(f, {}, builders) == builders
  {
    forall k | k in builders
      ensures builders[k] + NeighboursAt(f, {}, k) == builders[k]
    {
      assert NeighboursAt(f, {}, k) == {};
    }
  }

  /** The neighbours of one Switch, from its annotation or its LLDP peers. */
  method NeighboursFor(c: Context, semi: bool, managed: set<string>, sw: SwitchInput, p: Progress,
                       ghost links: set<Link>)
    returns (r: Result<set<string>, InputError>)
    requires Sound(c) && Built(c, links, p) && (semi ==> c.allowed)
    ensures r.Ok? <==> !semi || ManualOk(c, p.synthetic, sw)
    ensures r.Ok? ==> r.value == NeighboursOf(c, semi, managed, p.synthetic, sw)
  {
    if semi {
      r := ManualNeighbours(c, sw, p.builders.Keys, p.synthetic, links);
    } else {
      var found := LldpNeighbours(c, managed, sw);
      r := Ok(found);
    }
  }

  ghost predicate AllManualOk(c: Context, synthetic: set<string>, switches: set<SwitchInput>) {
    forall sw {:trigger ManualOk(c, synthetic, sw)} :: sw in switches ==> ManualOk(c, synthetic, sw)
  }

  /** The last loop over the switches. */
  method AddSwitches(c: Context, semi: bool, managed: set<string>, switches: seq<SwitchInput>, p: Progress,
                     ghost links: set<Link>)
    returns (r: Result<map<string, set<string>>, InputError>)
    requires Sound(c) && Built(c, links, p) && (semi ==> c.allowed)
      && forall sw :: sw in ToSet(switches) ==> sw.name in c.names
    ensures r.Ok? <==> !semi || AllManualOk(c, p.synthetic, ToSet(switches))
    ensures r.Ok? ==>
      r.value == WithNeighbours(ContributionOf(c, semi, managed, p.synthetic), ToSet(switches), p.builders)
  {
    var builders := p.builders;
    ghost var f := ContributionOf(c, semi, managed, p.synthetic);
    assert c.names <= p.builders.Keys;
    WithNoNeighbours(f, builders);
    assert ToSet(switches[..0]) == {};
    for i := 0 to |switches|
      invariant builders == WithNeighbours(f, ToSet(switches[..i]), p.builders)
      invariant semi ==> AllManualOk(c, p.synthetic, ToSet(switches[..i]))
    {
      var sw := switches[i];
      assert sw in ToSet(switches);
      ToSetGrows(switches, i);
      WithNeighboursGrow(f, ToSet(switches[..i]), p.builders, sw);
      var found := NeighboursFor(c, semi, managed, sw, p, links);
      match found
      case Err(e) => return Err(e);
      case Ok(names) => builders := AddAll(builders, sw.name, names);
    }
    assert switches[..|switches|] == switches;
    r := Ok(builders);
  }

  // ---------------------------------------------------------------------- all together

  ghost function SwitchNames(switches: set<SwitchInput>): set<string> {
    set sw | sw in switches :: sw.name
  }

  ghost function NodeNames(nodes: set<FabricNode>): set<string> {
    set n | n in nodes :: n.name
  }

  /** All Switches carry the neighbour annotation, and there is one. */
  ghost predicate SemiAutomatic(switches: set<SwitchInput>) {
    switches != {} && forall sw :: sw in switches ==> !sw.manual.Absent?
  }

  ghost function ContextOf(norm: Norm, switches: set<SwitchInput>, byKey: map<string, string>): Context {
    Context(norm, SwitchNames(switches), byKey, switches == {} || SemiAutomatic(switches))
  }

  /** The inputs as a function of the sets of nodes and switches. */
  ghost function InputsOf(c: Context, nodes: set<FabricNode>, switches: set<SwitchInput>): Inputs {
    var links := LinksOf(nodes);
    var synthetic := SyntheticOf(c, links);
    Inputs(HostsOf(c, links),
           WithNeighbours(ContributionOf(c, SemiAutomatic(switches), NodeNames(nodes), synthetic), switches,
             BuildersOf(c, links)),
           switches == {}, synthetic)
  }

  ghost predicate Resolvable(c: Context, nodes: set<FabricNode>, switches: set<SwitchInput>) {
    SemiAutomatic(switches) ==> AllManualOk(c, SyntheticOf(c, LinksOf(nodes)), switches)
  }

  ghost predicate ResultFor(c: Context, nodes: set<FabricNode>, switches: set<SwitchInput>,
                            r: Result<Inputs, InputError>) {
    (r.Ok? <==> Resolvable(c, nodes, switches)) && (r.Ok? ==> r.value == InputsOf(c, nodes, switches))
  }

  /** What the builder must return: the order of the switches decides shared keys only. */
  ghost predicate IsResult(norm: Norm, nodes: set<FabricNode>, switches: seq<SwitchInput>,
                           r: Result<Inputs, InputError>) {
    exists byKey {:trigger IndexesLast(norm, switches, byKey)} ::
      IndexesLast(norm, switches, byKey)
        && ResultFor(ContextOf(norm, ToSet(switches), byKey), nodes, ToSet(switches), r)
  }

  lemma ContextIsSound(norm: Norm, switches: seq<SwitchInput>, byKey: map<string, string>)
    requires Idempotent(norm) && IndexesLast(norm, switches, byKey)
    ensures Sound(ContextOf(norm, ToSet(switches), byKey))
  {
    var c := ContextOf(norm, ToSet(switches), byKey);
    forall k | k in c.byKey
      ensures c.byKey[k] in c.names
    {
      assert NamedByLast(norm, switches, k, byKey[k]);
      var j :| LastWith(norm, switches, k, j) && switches[j].name == byKey[k];
      assert switches[j] in ToSet(switches);
    }
    forall n | n in c.names
      ensures norm(n) in byKey
    {
      var sw :| sw in ToSet(switches) && sw.name == n;
      var i :| 0 <= i < |switches| && switches[i] == sw;
      assert HasKey(norm, switches[i], norm(n));
    }
  }

  /** semiAutomatic and the names, read off the list of switches. */
  method Survey(switches: seq<SwitchInput>) returns (names: set<string>, semi: bool)
    ensures names == SwitchNames(ToSet(switches)) && (semi <==> SemiAutomatic(ToSet(switches)))
  {
    names := set i | 0 <= i < |switches| :: switches[i].name;
    semi := switches != [];
    for i := 0 to |switches|
      invariant semi <==> switches != [] && forall j :: 0 <= j < i ==> !switches[j].manual.Absent?
    {
      if switches[i].manual.Absent? {
        semi := false;
      }
    }
    SurveyMeans(switches, names, semi);
  }

  lemma SurveyMeans(switches: seq<SwitchInput>, names: set<string>, semi: bool)
    requires names == set i | 0 <= i < |switches| :: switches[i].name
    requires semi <==> switches != [] && forall j :: 0 <= j < |switches| ==> !switches[j].manual.Absent?
    ensures names == SwitchNames(ToSet(switches)) && (semi <==> SemiAutomatic(ToSet(switches)))
  {
    var all := ToSet(switches);
    forall n | n in names
      ensures n in SwitchNames(all)
    {
      var i :| 0 <= i < |switches| && switches[i].name == n;
      assert switches[i] in all;
    }
    if switches != [] {
      assert switches[0] in all;
    }
    forall i | 0 <= i < |switches|
      ensures switches[i] in all
    {
    }
  }

  /** Nodes first, then the neighbours of the Switches. */
  method BuildInContext(c: Context, nodes: seq<FabricNode>, switches: seq<SwitchInput>, semi: bool)
    returns (r: Result<Inputs, InputError>)
    requires Sound(c) && c.names == SwitchNames(ToSet(switches)) && (semi <==> SemiAutomatic(ToSet(switches)))
      && (semi ==> c.allowed)
    ensures ResultFor(c, ToSet(nodes), ToSet(switches), r)
  {
    var p := AddNodes(c, nodes);
    var managed := set i | 0 <= i < |nodes| :: nodes[i].name;
    ManagedNames(nodes);
    var added := AddSwitches(c, semi, managed, switches, p, LinksOf(ToSet(nodes)));
    EmptyLists(switches);
    match added
    case Err(e) => r := Err(e);
    case Ok(builders) => r := Ok(Inputs(p.hosts, builders, switches == [], p.synthetic));
  }

  /** buildTopologyInputsForRole, on the Switches of the role. */
  method BuildTopologyInputs(norm: Norm, nodes: seq<FabricNode>, switches: seq<SwitchInput>)
    returns (r: Result<Inputs, InputError>)
    requires Idempotent(norm)
    ensures IsResult(norm, ToSet(nodes), switches, r)
  {
    var byKey := IndexNames(norm, switches);
    var names, semi := Survey(switches);
    EmptyLists(switches);
    ContextIsSound(norm, switches, byKey);
    r := BuildInContext(Context(norm, names, byKey, switches == [] || semi), nodes, switches, semi);
  }

  lemma EmptyLists(switches: seq<SwitchInput>)
    ensures switches == [] <==> ToSet(switches) == {}
  {
    if switches != [] {
      assert switches[0] in ToSet(switches);
    }
  }

  lemma ManagedNames(nodes: seq<FabricNode>)
    ensures (set i | 0 <= i < |nodes| :: nodes[i].name) == NodeNames(ToSet(nodes))
  {
    var all := ToSet(nodes);
    forall n | n in (set i | 0 <= i < |nodes| :: nodes[i].name)
      ensures n in NodeNames(all)
    {
      var i :| 0 <= i < |nodes| && nodes[i].name == n;
      assert nodes[i] in all;
    }
  }

  /** Unless two switches share a key, the order of nodes and switches does not matter. */
  lemma OrderDoesNotMatter(norm: Norm, nodes: set<FabricNode>, p: seq<SwitchInput>, q: seq<SwitchInput>,
                           a: Result<Inputs, InputError>, b: Result<Inputs, InputError>)
    requires ToSet(p) == ToSet(q) && UniqueKeys(norm, ToSet(p)) && IsResult(norm, nodes, p, a)
      && IsResult(norm, nodes, q, b)
    ensures (a.Ok? <==> b.Ok?) && (a.Ok? ==> a == b)
  {
    var x :| IndexesLast(norm, p, x) && ResultFor(ContextOf(norm, ToSet(p), x), nodes, ToSet(p), a);
    var y :| IndexesLast(norm, q, y) && ResultFor(ContextOf(norm, ToSet(q), y), nodes, ToSet(q), b);
    UniqueKeysIndex(norm, p, x);
    UniqueKeysIndex(norm, q, y);
    NamesAreDetermined(norm, ToSet(p), x, y);
  }

  // ------------------------------------------------------ where the order does matter

  /** Two switches that share a key can be listed so that either comes last. */
  lemma SharedKeyHasTwoOrders(norm: Norm, rest: seq<SwitchInput>, a: SwitchInput, b: SwitchInput, key: string)
    requires HasKey(norm, a, key) && HasKey(norm, b, key)
    ensures ToSet(rest + [a, b]) == ToSet(rest + [b, a]) == ToSet(rest) + {a, b}
    ensures LastWith(norm, rest + [a, b], key, |rest| + 1) && LastWith(norm, rest + [b, a], key, |rest| + 1)
  {
    ListedTwo(rest, a, b);
    ListedTwo(rest, b, a);
  }

  lemma ListedTwo(rest: seq<SwitchInput>, a: SwitchInput, b: SwitchInput)
    ensures ToSet(rest + [a, b]) == ToSet(rest) + {a, b}
  {
    var p := rest + [a, b];
    assert p[|rest|] == a && p[|rest| + 1] == b;
    forall x | x in ToSet(rest)
      ensures x in ToSet(p)
    {
      var i :| 0 <= i < |rest| && rest[i] == x;
      assert p[i] == x;
    }
  }

  ghost predicate IsInputs(norm: Norm, nodes: set<FabricNode>, switches: seq<SwitchInput>, x: Inputs) {
    IsResult(norm, nodes, switches, Ok(x))
  }

  ghost predicate HangsOn(i: Inputs, host: string, switch: string) {
    switch in i.switches && host in i.switches[switch]
  }

  /** The names that a new host must not have. */
  ghost function Taken(norm: Norm, others: set<FabricNode>, switches: set<SwitchInput>): set<string> {
    {""} + SwitchNames(switches) + NodeNames(others) + set l | l in LinksOf(others) :: norm(l.1)
  }

  /** A new host that reports one switch, by a name that is no Switch's own. */
  ghost predicate Tells(norm: Norm, others: set<FabricNode>, node: FabricNode, raw: string,
                        switches: set<SwitchInput>) {
    && LinksOf({node}) == {(node.name, raw)} && raw !in SwitchNames(switches)
    && node.name !in Taken(norm, others, switches)
  }

  lemma LinksWith(others: set<FabricNode>, node: FabricNode)
    ensures LinksOf(others + {node}) == LinksOf(others) + LinksOf({node})
    ensures forall l :: l in LinksOf(others) ==> l.0 in NodeNames(others)
  {
    forall n, l | n in others + {node} && l in LinksIn(n, |n.nics|)
      ensures l in LinksOf(others) + LinksOf({node})
    {
    }
  }

  /** The new host adds no switch that is known from hosts only. */
  lemma NothingSynthetic(c: Context, others: set<FabricNode>, node: FabricNode, raw: string)
    requires LinksOf({node}) == {(node.name, raw)} && c.norm(raw) in c.byKey
    ensures SyntheticOf(c, LinksOf(others + {node})) == SyntheticOf(c, LinksOf(others))
  {
    LinksWith(others, node);
    SyntheticGrows(c, LinksOf(others), (node.name, raw));
  }

  lemma NotANeighbour(c: Context, semi: bool, managed: set<string>, synthetic: set<string>, host: string,
                      sw: SwitchInput)
    requires host in managed && host !in c.names && host !in synthetic
    ensures host !in NeighboursOf(c, semi, managed, synthetic, sw)
  {
  }

  lemma NoNeighbourAnywhere(c: Context, others: set<FabricNode>, node: FabricNode, raw: string,
                            switches: set<SwitchInput>, name: string)
    requires Tells(c.norm, others, node, raw, switches) && c.names == SwitchNames(switches)
    ensures var f := ContributionOf(c, SemiAutomatic(switches), NodeNames(others + {node}),
        SyntheticOf(c, LinksOf(others)));
      node.name !in NeighboursAt(f, switches, name)
  {
    var semi, managed, synthetic :=
      SemiAutomatic(switches), NodeNames(others + {node}), SyntheticOf(c, LinksOf(others));
    assert node in others + {node};
    forall sw
      ensures node.name !in ContributionOf(c, semi, managed, synthetic)(sw)
    {
      NotANeighbour(c, semi, managed, synthetic, node.name, sw);
    }
  }

  lemma HostOnItsSwitch(c: Context, others: set<FabricNode>, node: FabricNode, raw: string,
                        switches: set<SwitchInput>, name: string)
    requires Tells(c.norm, others, node, raw, switches) && c.names == SwitchNames(switches)
    requires c.norm(raw) in c.byKey
    ensures node.name in HostsOn(c, LinksOf(others + {node}), name) <==> c.byKey[c.norm(raw)] == name
  {
    LinksWith(others, node);
    HostsOnGrow(c, LinksOf(others), (node.name, raw), name);
    assert Canonical(c, raw) == Some(c.byKey[c.norm(raw)]);
  }

  /** The new host hangs on the switch that has the key of its report and on no other. */
  lemma HostHangsOn(c: Context, others: set<FabricNode>, node: FabricNode, raw: string, switches: set<SwitchInput>,
                    name: string)
    requires Tells(c.norm, others, node, raw, switches) && c.names == SwitchNames(switches)
    requires c.norm(raw) in c.byKey && name in c.names
    ensures HangsOn(InputsOf(c, others + {node}, switches), node.name, name) <==> c.byKey[c.norm(raw)] == name
  {
    NothingSynthetic(c, others, node, raw);
    NoNeighbourAnywhere(c, others, node, raw, switches, name);
    HostOnItsSwitch(c, others, node, raw, switches, name);
  }

  lemma HangsOnLast(norm: Norm, others: set<FabricNode>, node: FabricNode, raw: string, p: seq<SwitchInput>, i: int,
                    name: string, x: Inputs)
    requires Tells(norm, others, node, raw, ToSet(p)) && name in SwitchNames(ToSet(p))
    requires LastWith(norm, p, norm(raw), i) && IsInputs(norm, others + {node}, p, x)
    ensures HangsOn(x, node.name, name) <==> name == p[i].name
  {
    var byKey :| IndexesLast(norm, p, byKey)
      && ResultFor(ContextOf(norm, ToSet(p), byKey), others + {node}, ToSet(p), Ok(x));
    assert NamedByLast(norm, p, norm(raw), byKey[norm(raw)]);
    HostHangsOn(ContextOf(norm, ToSet(p), byKey), others, node, raw, ToSet(p), name);
  }

  /** Two orders of the same switches that end in different switches with the reported key. */
  ghost predicate Split(norm: Norm, others: set<FabricNode>, node: FabricNode, raw: string, p: seq<SwitchInput>,
                        q: seq<SwitchInput>) {
    && ToSet(p) == ToSet(q) && Tells(norm, others, node, raw, ToSet(p))
    && LastWith(norm, p, norm(raw), |p| - 1) && LastWith(norm, q, norm(raw), |q| - 1)
    && p[|p| - 1].name != q[|q| - 1].name
  }

  /** The new host hangs on whichever switch with the key of its report is listed last. */
  lemma LastSwitchMatters(norm: Norm, others: set<FabricNode>, node: FabricNode, raw: string, p: seq<SwitchInput>,
                          q: seq<SwitchInput>, x: Inputs, y: Inputs)
    requires Split(norm, others, node, raw, p, q)
    requires IsInputs(norm, others + {node}, p, x) && IsInputs(norm, others + {node}, q, y)
    ensures x != y
  {
    var i, j := |p| - 1, |q| - 1;
    assert p[i] in ToSet(p);
    HangsOnLast(norm, others, node, raw, p, i, p[i].name, x);
    HangsOnLast(norm, others, node, raw, q, j, p[i].name, y);
  }

  /** Every key has spellings outside any given set of names. */
  ghost predicate Respellable(norm: Norm) {
    forall key, names {:trigger norm(key), CanSpell(norm, key, names)} :: norm(key) == key ==>
      CanSpell(norm, key, names)
  }

  ghost predicate CanSpell(norm: Norm, key: string, names: set<string>) {
    exists raw :: raw != "" && raw !in names && norm(raw) == key
  }

  lemma {:induction false} LongerThanAll(names: set<string>) returns (n: nat)
    ensures forall x :: x in names ==> |x| < n
    decreases |names|
  {
    if names == {} {
      n := 0;
    } else {
      var x :| x in names;
      var m := LongerThanAll(names - {x});
      n := if |x| < m then m else |x| + 1;
    }
  }

  lemma RealNormIsRespellable()
    ensures Respellable(s => ResourceName.Normalize(s))
  {
    var norm := (s: string) => ResourceName.Normalize(s);
    forall key, names: set<string> | norm(key) == key
      ensures CanSpell(norm, key, names)
    {
      var n := LongerThanAll(names);
      ResourceName.NormalizeIsNormal(key);
      ResourceName.DashesNormalizeAway(key, n + 1);
      var raw := key + ResourceName.Dashes(n + 1);
      assert raw !in names && norm(raw) == key;
    }
  }

  /** There is such a host for every key. */
  lemma SomeHostTells(norm: Norm, others: set<FabricNode>, switches: set<SwitchInput>, key: string)
    returns (node: FabricNode, raw: string)
    requires Respellable(norm) && norm(key) == key
    ensures Tells(norm, others, node, raw, switches) && norm(raw) == key
  {
    assert CanSpell(norm, key, SwitchNames(switches));
    raw :| raw != "" && raw !in SwitchNames(switches) && norm(raw) == key;
    var n := LongerThanAll(Taken(norm, others, switches));
    ResourceName.SqueezeDashes(n);
    node := FabricNode(ResourceName.Dashes(n), [Nic("up", raw, "port")]);
    assert Usable(node.nics[0]);
    assert LinksIn(node, 1) == {(node.name, raw)};
  }

  ghost function Listing<T>(s: set<T>): (list: seq<T>)
    ensures ToSet(list) == s && |list| == |s|
    decreases |s|
  {
    if s == {} then []
    else
      var x :| x in s;
      var rest := Listing(s - {x});
      AppendedSet(rest, x);
      rest + [x]
  }

  lemma AppendedSet<T>(s: seq<T>, x: T)
    ensures ToSet(s + [x]) == ToSet(s) + {x}
  {
    var longer := s + [x];
    ToSetGrows(longer, |s|);
    assert longer[..|s|] == s && longer[..|s| + 1] == longer;
  }

  /** Every switch, each listed once. */
  ghost predicate Lists(switches: set<SwitchInput>, p: seq<SwitchInput>) {
    ToSet(p) == switches && |p| == |switches|
  }

  lemma TwoListings(norm: Norm, switches: set<SwitchInput>, a: SwitchInput, b: SwitchInput, key: string)
    returns (p: seq<SwitchInput>, q: seq<SwitchInput>)
    requires a in switches && b in switches && a != b && HasKey(norm, a, key) && HasKey(norm, b, key)
    ensures Lists(switches, p) && Lists(switches, q) && |p| >= 2 && p[|p| - 1] == b && q[|q| - 1] == a
    ensures LastWith(norm, p, key, |p| - 1) && LastWith(norm, q, key, |q| - 1)
  {
    var rest := Listing(switches - {a, b});
    p, q := rest + [a, b], rest + [b, a];
    SharedKeyHasTwoOrders(norm, rest, a, b, key);
    assert switches == (switches - {a, b}) + {a, b} && |{a, b}| == 2;
  }

  ghost predicate NeverTheSame(norm: Norm, nodes: set<FabricNode>, p: seq<SwitchInput>, q: seq<SwitchInput>) {
    forall x, y {:trigger IsInputs(norm, nodes, p, x), IsInputs(norm, nodes, q, y)} ::
      IsInputs(norm, nodes, p, x) && IsInputs(norm, nodes, q, y) ==> x != y
  }

  lemma LastsDiffer(norm: Norm, others: set<FabricNode>, node: FabricNode, raw: string, p: seq<SwitchInput>,
                    q: seq<SwitchInput>)
    requires Split(norm, others, node, raw, p, q)
    ensures NeverTheSame(norm, others + {node}, p, q)
  {
    var nodes := others + {node};
    forall x, y | IsInputs(norm, nodes, p, x) && IsInputs(norm, nodes, q, y)
      ensures x != y
    {
      LastSwitchMatters(norm, others, node, raw, p, q, x, y);
    }
  }

  /** With a shared key the order does matter: next to any other nodes there are a host and two
      listings of the switches that never give the same inputs. */
  lemma SharedKeyMakesOrderMatter(norm: Norm, others: set<FabricNode>, switches: set<SwitchInput>, a: SwitchInput,
                                  b: SwitchInput, key: string)
    returns (node: FabricNode, raw: string, p: seq<SwitchInput>, q: seq<SwitchInput>)
    requires Idempotent(norm) && Respellable(norm) && a in switches && b in switches && a.name != b.name
    requires HasKey(norm, a, key) && HasKey(norm, b, key)
    ensures Lists(switches, p) && Lists(switches, q) && Tells(norm, others, node, raw, switches) && norm(raw) == key
    ensures NeverTheSame(norm, others + {node}, p, q)
  {
    p, q := TwoListings(norm, switches, a, b, key);
    assert norm(key) == key;
    node, raw := SomeHostTells(norm, others, switches, key);
    LastsDiffer(norm, others, node, raw, p, q);
  }

  /** The index that the loop over the switches builds. */
  ghost function IndexOf(norm: Norm, switches: seq<SwitchInput>): (byKey: map<string, string>)
    ensures IndexesLast(norm, switches, byKey)
  {
    if switches == [] then map[]
    else
      var n := |switches| - 1;
      AddKeysIndexes(norm, switches[..n], IndexOf(norm, switches[..n]), switches[n]);
      assert switches == switches[..n] + [switches[n]];
      AddKeys(norm, IndexOf(norm, switches[..n]), switches[n])
  }

  lemma SomeResult(norm: Norm, nodes: set<FabricNode>, switches: seq<SwitchInput>)
    returns (r: Result<Inputs, InputError>)
    ensures IsResult(norm, nodes, switches, r)
    ensures !SemiAutomatic(ToSet(switches)) ==> r.Ok?
  {
    var byKey := IndexOf(norm, switches);
    var c := ContextOf(norm, ToSet(switches), byKey);
    var error: InputError :| true;
    r := if Resolvable(c, nodes, ToSet(switches)) then Ok(InputsOf(c, nodes, ToSet(switches))) else Err(error);
    assert ResultFor(c, nodes, ToSet(switches), r);
  }

  /** Any two listings of the switches give the same result. */
  ghost predicate OrderFree(norm: Norm, switches: set<SwitchInput>) {
    forall nodes, p, q, x, y {:trigger IsResult(norm, nodes, p, x), IsResult(norm, nodes, q, y)} ::
      Lists(switches, p) && Lists(switches, q) && IsResult(norm, nodes, p, x) && IsResult(norm, nodes, q, y) ==>
      SameResult(x, y)
  }

  ghost predicate SameResult(x: Result<Inputs, InputError>, y: Result<Inputs, InputError>) {
    (x.Ok? <==> y.Ok?) && (x.Ok? ==> x == y)
  }

  ghost predicate Builds(norm: Norm, nodes: set<FabricNode>, p: seq<SwitchInput>) {
    exists x {:trigger IsInputs(norm, nodes, p, x)} :: IsInputs(norm, nodes, p, x)
  }

  /** No nodes and no order satisfy the annotations of the switches. */
  ghost predicate NeverBuilds(norm: Norm, switches: set<SwitchInput>) {
    forall nodes, p {:trigger Builds(norm, nodes, p)} :: Lists(switches, p) ==> !Builds(norm, nodes, p)
  }

  /** The new host makes no annotation unresolvable. */
  lemma NewHostKeepsBuilding(norm: Norm, others: set<FabricNode>, node: FabricNode, raw: string, p: seq<SwitchInput>,
                             a: SwitchInput)
    requires Builds(norm, others, p) && Tells(norm, others, node, raw, ToSet(p))
    requires a in ToSet(p) && HasKey(norm, a, norm(raw))
    ensures Builds(norm, others + {node}, p)
  {
    var x :| IsInputs(norm, others, p, x);
    var byKey :| IndexesLast(norm, p, byKey) && ResultFor(ContextOf(norm, ToSet(p), byKey), others, ToSet(p), Ok(x));
    var i :| 0 <= i < |p| && p[i] == a;
    assert HasKey(norm, p[i], norm(raw));
    var c := ContextOf(norm, ToSet(p), byKey);
    NothingSynthetic(c, others, node, raw);
    var y := InputsOf(c, others + {node}, ToSet(p));
    assert ResultFor(c, others + {node}, ToSet(p), Ok(y));
    assert IsInputs(norm, others + {node}, p, y);
  }

  /** Three listings, one of which builds, cannot all agree. */
  lemma NotAllTheSame(norm: Norm, nodes: set<FabricNode>, switches: set<SwitchInput>, o: seq<SwitchInput>,
                      p: seq<SwitchInput>, q: seq<SwitchInput>)
    requires Lists(switches, o) && Lists(switches, p) && Lists(switches, q) && Builds(norm, nodes, o)
    requires NeverTheSame(norm, nodes, p, q)
    ensures !OrderFree(norm, switches)
  {
    var w :| IsInputs(norm, nodes, o, w);
    var v: Result<Inputs, InputError> := Ok(w);
    var x := SomeResult(norm, nodes, p);
    var y := SomeResult(norm, nodes, q);
    assert IsResult(norm, nodes, o, v);
    assert !(IsInputs(norm, nodes, p, w) && IsInputs(norm, nodes, q, w));
    assert !SameResult(v, x) || !SameResult(v, y);
  }

  lemma SharedKeyBreaksOrder(norm: Norm, others: set<FabricNode>, o: seq<SwitchInput>, switches: set<SwitchInput>,
                             a: SwitchInput, b: SwitchInput, key: string)
    requires Idempotent(norm) && Respellable(norm) && Lists(switches, o) && Builds(norm, others, o)
    requires a in switches && b in switches && a.name != b.name && HasKey(norm, a, key) && HasKey(norm, b, key)
    ensures !OrderFree(norm, switches)
  {
    var node, raw, p, q := SharedKeyMakesOrderMatter(norm, others, switches, a, b, key);
    NewHostKeepsBuilding(norm, others, node, raw, o, a);
    NotAllTheSame(norm, others + {node}, switches, o, p, q);
  }

  lemma NotOrderFree(norm: Norm, switches: set<SwitchInput>)
    requires Idempotent(norm) && Respellable(norm) && !UniqueKeys(norm, switches) && !NeverBuilds(norm, switches)
    ensures !OrderFree(norm, switches)
  {
    var others, o :| Lists(switches, o) && Builds(norm, others, o);
    var a, b, key :| a in switches && b in switches && HasKey(norm, a, key) && HasKey(norm, b, key) && a.name != b.name;
    SharedKeyBreaksOrder(norm, others, o, switches, a, b, key);
  }

  /** The order of the switches does not matter if and only if no two of them share a key, or
      their annotations can never be satisfied. */
  lemma OrderFreeIffUnique(norm: Norm, switches: set<SwitchInput>)
    requires Idempotent(norm) && Respellable(norm)
    ensures OrderFree(norm, switches) <==> UniqueKeys(norm, switches) || NeverBuilds(norm, switches)
  {
    if !UniqueKeys(norm, switches) && !NeverBuilds(norm, switches) {
      NotOrderFree(norm, switches);
    } else {
      forall nodes, p, q, x, y | Lists(switches, p) && Lists(switches, q) && IsResult(norm, nodes, p, x)
          && IsResult(norm, nodes, q, y)
        ensures SameResult(x, y)
      {
        if UniqueKeys(norm, switches) {
          OrderDoesNotMatter(norm, nodes, p, q, x, y);
        } else {
          NeverOk(norm, nodes, p, x);
          NeverOk(norm, nodes, q, y);
        }
      }
    }
  }

  lemma NeverOk(norm: Norm, nodes: set<FabricNode>, p: seq<SwitchInput>, x: Result<Inputs, InputError>)
    requires IsResult(norm, nodes, p, x) && NeverBuilds(norm, ToSet(p)) && Lists(ToSet(p), p)
    ensures x.Err?
  {
    if x.Ok? {
      assert IsInputs(norm, nodes, p, x.value);
      assert Builds(norm, nodes, p);
    }
  }

  /** Only annotations can keep a build from succeeding. */
  lemma NeverBuildsIsSemiAutomatic(norm: Norm, switches: set<SwitchInput>)
    requires NeverBuilds(norm, switches)
    ensures SemiAutomatic(switches)
  {
    var p := Listing(switches);
    var r := SomeResult(norm, {}, p);
    if r.Ok? {
      assert IsInputs(norm, {}, p, r.value);
      assert Builds(norm, {}, p);
    }
  }

  /** All of this for the normalization that the program uses. */
  lemma RealOrderFreeIffUnique(switches: set<SwitchInput>)
    ensures var norm := s => ResourceName.Normalize(s);
      OrderFree(norm, switches) <==> UniqueKeys(norm, switches) || NeverBuilds(norm, switches)
  {
    var norm := (s: string) => ResourceName.Normalize(s);
    RealNormIsRespellable();
    RealNormIsIdempotent();
    OrderFreeIffUnique(norm, switches);
  }
}
