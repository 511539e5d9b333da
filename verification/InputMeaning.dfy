/** What the inputs of discovery are, in terms of the listed objects alone: who is attached where,
    which switches are linked, and when building fails. */
module InputMeaning {
  import opened Wrappers
  import opened TopologyInputs

  // ------------------------------------------------------------------------- the objects

  ghost predicate OwnName(switches: seq<SwitchInput>, raw: string) {
    exists i :: 0 <= i < |switches| && switches[i].name == raw
  }

  ghost predicate Keyed(norm: Norm, switches: seq<SwitchInput>, key: string) {
    exists i :: 0 <= i < |switches| && HasKey(norm, switches[i], key)
  }

  /** A name stands for the Switch that has it, else for the last one with its key. */
  ghost predicate StandsFor(norm: Norm, switches: seq<SwitchInput>, raw: string, name: string) {
    if OwnName(switches, raw) then name == raw else NamedByLast(norm, switches, norm(raw), name)
  }

  ghost predicate Unknown(norm: Norm, switches: seq<SwitchInput>, raw: string) {
    !OwnName(switches, raw) && !Keyed(norm, switches, norm(raw))
  }

  /** An interface of the node is up and reports this host name, and a port. */
  ghost predicate ReportsPeer(node: FabricNode, raw: string) {
    exists j :: 0 <= j < |node.nics| && node.nics[j].state == "up" && node.nics[j].peer == raw && raw != ""
      && node.nics[j].peerPort != ""
  }

  ghost predicate SomeNodeReports(nodes: set<FabricNode>, host: string, raw: string) {
    exists n :: n in nodes && n.name == host && ReportsPeer(n, raw)
  }

  /** All Switches, if any, have the neighbour annotation: then hosts may add switches. */
  ghost predicate HostsMayAdd(switches: seq<SwitchInput>) {
    forall i :: 0 <= i < |switches| ==> !switches[i].manual.Absent?
  }

  /** A switch that only hosts know. */
  ghost predicate Added(norm: Norm, nodes: set<FabricNode>, switches: seq<SwitchInput>, name: string) {
    HostsMayAdd(switches) && name != "" && exists host, raw {:trigger SomeNodeReports(nodes, host, raw)} ::
      SomeNodeReports(nodes, host, raw) && Unknown(norm, switches, raw) && norm(raw) == name
  }

  /** The report `raw` of a host means the switch `name`. */
  ghost predicate Means(norm: Norm, switches: seq<SwitchInput>, raw: string, name: string) {
    StandsFor(norm, switches, raw, name)
      || (HostsMayAdd(switches) && Unknown(norm, switches, raw) && norm(raw) == name && name != "")
  }

  ghost predicate Attached(norm: Norm, nodes: set<FabricNode>, switches: seq<SwitchInput>, name: string, host: string) {
    exists raw {:trigger SomeNodeReports(nodes, host, raw)} ::
      SomeNodeReports(nodes, host, raw) && Means(norm, switches, raw, name)
  }

  /** An LLDP entry that is no host leads to the switch that has its key, else to its own name. */
  ghost predicate LeadsTo(norm: Norm, nodes: set<FabricNode>, switches: seq<SwitchInput>, n: LldpNeighbor, v: string) {
    && !n.isNode && n.name !in NodeNames(nodes) && v !in NodeNames(nodes) && v != ""
    && if Keyed(norm, switches, norm(n.name)) then NamedByLast(norm, switches, norm(n.name), v) else v == n.name
  }

  ghost predicate Peer(norm: Norm, nodes: set<FabricNode>, switches: seq<SwitchInput>, a: string, v: string) {
    exists sw, i ::
      sw in switches && sw.name == a && 0 <= i < |sw.lldp| && LeadsTo(norm, nodes, switches, sw.lldp[i], v)
  }

  /** An annotation entry refers to a Switch or to a switch that hosts have added. */
  ghost predicate Refers(norm: Norm, nodes: set<FabricNode>, switches: seq<SwitchInput>, raw: string, v: string) {
    StandsFor(norm, switches, raw, v)
      || (Unknown(norm, switches, raw) && norm(raw) == v && Added(norm, nodes, switches, v))
  }

  ghost predicate Annotated(norm: Norm, nodes: set<FabricNode>, switches: seq<SwitchInput>, a: string, v: string) {
    exists sw, i :: sw in switches && sw.name == a && sw.manual.Listed? && 0 <= i < |sw.manual.names|
      && Refers(norm, nodes, switches, sw.manual.names[i], v)
  }

  /** The annotation is a list of known switches other than its own. */
  ghost predicate Resolves(norm: Norm, nodes: set<FabricNode>, switches: seq<SwitchInput>, sw: SwitchInput) {
    sw.manual.Listed? && forall i {:trigger sw.manual.names[i]} :: 0 <= i < |sw.manual.names| ==>
      RefersToOther(norm, nodes, switches, sw.manual.names[i], sw.name)
  }

  ghost predicate RefersToOther(norm: Norm, nodes: set<FabricNode>, switches: seq<SwitchInput>, raw: string,
                                self: string) {
    exists v :: v != self && Refers(norm, nodes, switches, raw, v)
  }

  ghost predicate AnnotationsResolve(norm: Norm, nodes: set<FabricNode>, switches: seq<SwitchInput>) {
    forall sw :: sw in switches ==> Resolves(norm, nodes, switches, sw)
  }

  ghost predicate SemiAutomaticList(switches: seq<SwitchInput>) {
    switches != [] && HostsMayAdd(switches)
  }

  /** The neighbours of a switch: hosts that report it, and other switches by annotation or LLDP. */
  ghost predicate Neighbours(norm: Norm, nodes: set<FabricNode>, switches: seq<SwitchInput>, name: string, v: string) {
    || (v != "" && Attached(norm, nodes, switches, name, v))
    || (SemiAutomaticList(switches) && Annotated(norm, nodes, switches, name, v))
    || (!SemiAutomaticList(switches) && Peer(norm, nodes, switches, name, v))
  }

  /** The inputs are what the objects say. */
  ghost predicate InputsMean(norm: Norm, nodes: set<FabricNode>, switches: seq<SwitchInput>, x: Inputs) {
    && (x.nodeOnly <==> switches == [])
    && (forall name {:trigger name in x.synthetic} :: name in x.synthetic <==> Added(norm, nodes, switches, name))
    && (forall name {:trigger name in x.switches} ::
          name in x.switches <==> OwnName(switches, name) || Added(norm, nodes, switches, name))
    && (forall h {:trigger h in x.hosts} :: h in x.hosts <==> exists name :: Attached(norm, nodes, switches, name, h))
    && (forall name, v {:trigger v in x.switches[name]} :: name in x.switches ==>
          (v in x.switches[name] <==> Neighbours(norm, nodes, switches, name, v)))
  }

  // --------------------------------------------------------------------------- the proof

  lemma NamesAreOwn(switches: seq<SwitchInput>, raw: string)
    ensures raw in SwitchNames(ToSet(switches)) <==> OwnName(switches, raw)
  {
    if OwnName(switches, raw) {
      var i :| 0 <= i < |switches| && switches[i].name == raw;
      assert switches[i] in ToSet(switches);
    }
  }

  lemma InToSet(switches: seq<SwitchInput>, sw: SwitchInput)
    ensures sw in ToSet(switches) <==> sw in switches
  {
  }

  lemma LinksAreReports(nodes: set<FabricNode>, host: string, raw: string)
    ensures (host, raw) in LinksOf(nodes) <==> SomeNodeReports(nodes, host, raw)
  {
    if SomeNodeReports(nodes, host, raw) {
      var n :| n in nodes && n.name == host && ReportsPeer(n, raw);
      var j :| 0 <= j < |n.nics| && n.nics[j].state == "up" && n.nics[j].peer == raw && raw != ""
        && n.nics[j].peerPort != "";
      assert Usable(n.nics[j]) && (host, raw) in LinksIn(n, |n.nics|);
    }
    if (host, raw) in LinksOf(nodes) {
      var n :| n in nodes && (host, raw) in LinksIn(n, |n.nics|);
      var j :| 0 <= j < |n.nics| && Usable(n.nics[j]) && (n.name, n.nics[j].peer) == (host, raw);
      assert ReportsPeer(n, raw);
    }
  }

  lemma AllowedIsMayAdd(switches: seq<SwitchInput>)
    ensures (ToSet(switches) == {} || SemiAutomatic(ToSet(switches))) <==> HostsMayAdd(switches)
    ensures SemiAutomatic(ToSet(switches)) <==> SemiAutomaticList(switches)
    ensures ToSet(switches) == {} <==> switches == []
  {
    forall i | 0 <= i < |switches|
      ensures switches[i] in ToSet(switches)
    {
    }
    if switches == [] {
      assert ToSet(switches) == {};
    } else {
      assert switches[0] in ToSet(switches);
    }
  }

  lemma KeyedIsIndexed(norm: Norm, switches: seq<SwitchInput>, byKey: map<string, string>, key: string)
    requires IndexesLast(norm, switches, byKey)
    ensures key in byKey <==> Keyed(norm, switches, key)
    ensures forall name :: key in byKey && byKey[key] == name <==> NamedByLast(norm, switches, key, name)
  {
    if key in byKey {
      assert NamedByLast(norm, switches, key, byKey[key]);
      var i :| LastWith(norm, switches, key, i) && switches[i].name == byKey[key];
      forall name | NamedByLast(norm, switches, key, name)
        ensures name == byKey[key]
      {
        var j :| LastWith(norm, switches, key, j) && switches[j].name == name;
        LastIsUnique(norm, switches, key, i, j);
      }
    }
  }

  lemma LastIsUnique(norm: Norm, switches: seq<SwitchInput>, key: string, i: int, j: int)
    requires LastWith(norm, switches, key, i) && LastWith(norm, switches, key, j)
    ensures i == j
  {
  }

  /** What resolution works with, for these objects. */
  ghost predicate IsContext(norm: Norm, switches: seq<SwitchInput>, byKey: map<string, string>, c: Context) {
    IndexesLast(norm, switches, byKey) && c == ContextOf(norm, ToSet(switches), byKey)
  }

  lemma CanonicalMeans(norm: Norm, switches: seq<SwitchInput>, byKey: map<string, string>, c: Context, raw: string,
                       name: string)
    requires IsContext(norm, switches, byKey, c)
    ensures Canonical(c, raw) == Some(name) <==> Means(norm, switches, raw, name)
    ensures IsSynthetic(c, raw) <==> HostsMayAdd(switches) && Unknown(norm, switches, raw) && norm(raw) != ""
    ensures StandsFor(norm, switches, raw, name) <==> Canonical(c, raw) == Some(name) && !IsSynthetic(c, raw)
  {
    NamesAreOwn(switches, raw);
    AllowedIsMayAdd(switches);
    KeyedIsIndexed(norm, switches, byKey, norm(raw));
  }

  lemma SyntheticIsAdded(norm: Norm, nodes: set<FabricNode>, switches: seq<SwitchInput>, byKey: map<string, string>,
                         c: Context, name: string)
    requires IsContext(norm, switches, byKey, c)
    ensures name in SyntheticOf(c, LinksOf(nodes)) <==> Added(norm, nodes, switches, name)
  {
    if name in SyntheticOf(c, LinksOf(nodes)) {
      var l :| l in LinksOf(nodes) && IsSynthetic(c, l.1) && c.norm(l.1) == name;
      LinksAreReports(nodes, l.0, l.1);
      CanonicalMeans(norm, switches, byKey, c, l.1, name);
      assert SomeNodeReports(nodes, l.0, l.1);
    }
    if Added(norm, nodes, switches, name) {
      var host, raw :| SomeNodeReports(nodes, host, raw) && Unknown(norm, switches, raw) && norm(raw) == name;
      LinksAreReports(nodes, host, raw);
      CanonicalMeans(norm, switches, byKey, c, raw, name);
      assert (host, raw) in LinksOf(nodes);
    }
  }

  lemma HostsAreAttached(norm: Norm, nodes: set<FabricNode>, switches: seq<SwitchInput>, byKey: map<string, string>,
                         c: Context, name: string, host: string)
    requires IsContext(norm, switches, byKey, c)
    ensures host in HostsOn(c, LinksOf(nodes), name) <==> host != "" && Attached(norm, nodes, switches, name, host)
    ensures Attached(norm, nodes, switches, name, host) ==> host in HostsOf(c, LinksOf(nodes))
  {
    if host in HostsOn(c, LinksOf(nodes), name) {
      var l :| l in LinksOf(nodes) && Canonical(c, l.1) == Some(name) && l.0 != "" && l.0 == host;
      LinksAreReports(nodes, l.0, l.1);
      CanonicalMeans(norm, switches, byKey, c, l.1, name);
      assert SomeNodeReports(nodes, host, l.1);
    }
    if Attached(norm, nodes, switches, name, host) {
      var raw :| SomeNodeReports(nodes, host, raw) && Means(norm, switches, raw, name);
      LinksAreReports(nodes, host, raw);
      CanonicalMeans(norm, switches, byKey, c, raw, name);
      assert (host, raw) in LinksOf(nodes);
    }
  }

  lemma HostsParticipate(norm: Norm, nodes: set<FabricNode>, switches: seq<SwitchInput>, byKey: map<string, string>,
                         c: Context, host: string)
    requires IsContext(norm, switches, byKey, c)
    ensures host in HostsOf(c, LinksOf(nodes)) <==> exists name :: Attached(norm, nodes, switches, name, host)
  {
    if host in HostsOf(c, LinksOf(nodes)) {
      var l :| l in LinksOf(nodes) && Canonical(c, l.1).Some? && l.0 == host;
      var name := Canonical(c, l.1).value;
      LinksAreReports(nodes, l.0, l.1);
      CanonicalMeans(norm, switches, byKey, c, l.1, name);
      assert SomeNodeReports(nodes, host, l.1);
      assert Attached(norm, nodes, switches, name, host);
    }
    if name :| Attached(norm, nodes, switches, name, host) {
      HostsAreAttached(norm, nodes, switches, byKey, c, name, host);
    }
  }

  lemma CountsAsLeading(norm: Norm, nodes: set<FabricNode>, switches: seq<SwitchInput>, byKey: map<string, string>,
                        c: Context, n: LldpNeighbor, v: string)
    requires IsContext(norm, switches, byKey, c)
    ensures Counts(c, NodeNames(nodes), n) && CanonicalRemote(c, NodeNames(nodes), n.name) == v <==>
      LeadsTo(norm, nodes, switches, n, v)
  {
    KeyedIsIndexed(norm, switches, byKey, norm(n.name));
  }

  lemma LldpMeansPeer(norm: Norm, nodes: set<FabricNode>, switches: seq<SwitchInput>, byKey: map<string, string>,
                      c: Context, synthetic: set<string>, name: string, v: string)
    requires IsContext(norm, switches, byKey, c)
    ensures v in NeighboursAt(ContributionOf(c, false, NodeNames(nodes), synthetic), ToSet(switches), name) <==>
      Peer(norm, nodes, switches, name, v)
  {
    var managed := NodeNames(nodes);
    var f := ContributionOf(c, false, managed, synthetic);
    if v in NeighboursAt(f, ToSet(switches), name) {
      var sw :| sw in ToSet(switches) && sw.name == name && v in f(sw);
      var i :| 0 <= i < |sw.lldp| && Counts(c, managed, sw.lldp[i])
        && CanonicalRemote(c, managed, sw.lldp[i].name) == v;
      CountsAsLeading(norm, nodes, switches, byKey, c, sw.lldp[i], v);
      InToSet(switches, sw);
    }
    if Peer(norm, nodes, switches, name, v) {
      var sw, i :| sw in switches && sw.name == name && 0 <= i < |sw.lldp|
        && LeadsTo(norm, nodes, switches, sw.lldp[i], v);
      CountsAsLeading(norm, nodes, switches, byKey, c, sw.lldp[i], v);
      InToSet(switches, sw);
      assert v in f(sw);
    }
  }

  lemma NamedRefers(norm: Norm, nodes: set<FabricNode>, switches: seq<SwitchInput>, byKey: map<string, string>,
                    c: Context, raw: string, v: string)
    requires IsContext(norm, switches, byKey, c) && Sound(c)
    ensures Named(c, SyntheticOf(c, LinksOf(nodes)), raw) == Some(v) <==> Refers(norm, nodes, switches, raw, v)
  {
    CanonicalMeans(norm, switches, byKey, c, raw, v);
    SyntheticIsAdded(norm, nodes, switches, byKey, c, v);
    NamesAreOwn(switches, raw);
  }

  lemma ManualMeansAnnotated(norm: Norm, nodes: set<FabricNode>, switches: seq<SwitchInput>, byKey: map<string, string>,
                             c: Context, name: string, v: string)
    requires IsContext(norm, switches, byKey, c) && Sound(c)
    ensures var f := ContributionOf(c, true, NodeNames(nodes), SyntheticOf(c, LinksOf(nodes)));
      v in NeighboursAt(f, ToSet(switches), name) <==> Annotated(norm, nodes, switches, name, v)
  {
    var synthetic := SyntheticOf(c, LinksOf(nodes));
    var f := ContributionOf(c, true, NodeNames(nodes), synthetic);
    if v in NeighboursAt(f, ToSet(switches), name) {
      var sw :| sw in ToSet(switches) && sw.name == name && v in f(sw);
      var i :| 0 <= i < |sw.manual.names| && Named(c, synthetic, sw.manual.names[i]) == Some(v);
      NamedRefers(norm, nodes, switches, byKey, c, sw.manual.names[i], v);
      InToSet(switches, sw);
    }
    if Annotated(norm, nodes, switches, name, v) {
      var sw, i :| sw in switches && sw.name == name && sw.manual.Listed? && 0 <= i < |sw.manual.names|
        && Refers(norm, nodes, switches, sw.manual.names[i], v);
      NamedRefers(norm, nodes, switches, byKey, c, sw.manual.names[i], v);
      InToSet(switches, sw);
      assert v in f(sw);
    }
  }

  lemma ManualOkIsResolves(norm: Norm, nodes: set<FabricNode>, switches: seq<SwitchInput>, byKey: map<string, string>,
                           c: Context, sw: SwitchInput)
    requires IsContext(norm, switches, byKey, c) && Sound(c)
    ensures ManualOk(c, SyntheticOf(c, LinksOf(nodes)), sw) <==> Resolves(norm, nodes, switches, sw)
  {
    var synthetic := SyntheticOf(c, LinksOf(nodes));
    forall raw
      ensures RefersToOther(norm, nodes, switches, raw, sw.name) <==>
        Named(c, synthetic, raw).Some? && Named(c, synthetic, raw).value != sw.name
    {
      OtherIsNamed(norm, nodes, switches, byKey, c, raw, sw.name);
    }
  }

  lemma OtherIsNamed(norm: Norm, nodes: set<FabricNode>, switches: seq<SwitchInput>, byKey: map<string, string>,
                     c: Context, raw: string, self: string)
    requires IsContext(norm, switches, byKey, c) && Sound(c)
    ensures var named := Named(c, SyntheticOf(c, LinksOf(nodes)), raw);
      RefersToOther(norm, nodes, switches, raw, self) <==> named.Some? && named.value != self
  {
    var named := Named(c, SyntheticOf(c, LinksOf(nodes)), raw);
    if named.Some? {
      NamedRefers(norm, nodes, switches, byKey, c, raw, named.value);
    }
    if v :| v != self && Refers(norm, nodes, switches, raw, v) {
      NamedRefers(norm, nodes, switches, byKey, c, raw, v);
    }
  }

  lemma ResolvableMeans(norm: Norm, nodes: set<FabricNode>, switches: seq<SwitchInput>, byKey: map<string, string>,
                        c: Context)
    requires IsContext(norm, switches, byKey, c) && Sound(c)
    ensures Resolvable(c, nodes, ToSet(switches)) <==>
      (SemiAutomaticList(switches) ==> AnnotationsResolve(norm, nodes, switches))
  {
    AllowedIsMayAdd(switches);
    forall sw
      ensures sw in ToSet(switches) <==> sw in switches
      ensures ManualOk(c, SyntheticOf(c, LinksOf(nodes)), sw) <==> Resolves(norm, nodes, switches, sw)
    {
      InToSet(switches, sw);
      ManualOkIsResolves(norm, nodes, switches, byKey, c, sw);
    }
  }

  lemma NeighboursMean(norm: Norm, nodes: set<FabricNode>, switches: seq<SwitchInput>, byKey: map<string, string>,
                       c: Context, name: string, v: string)
    requires IsContext(norm, switches, byKey, c) && Sound(c) && name in InputsOf(c, nodes, ToSet(switches)).switches
    ensures v in InputsOf(c, nodes, ToSet(switches)).switches[name] <==> Neighbours(norm, nodes, switches, name, v)
  {
    AllowedIsMayAdd(switches);
    HostsAreAttached(norm, nodes, switches, byKey, c, name, v);
    LldpMeansPeer(norm, nodes, switches, byKey, c, SyntheticOf(c, LinksOf(nodes)), name, v);
    ManualMeansAnnotated(norm, nodes, switches, byKey, c, name, v);
  }

  lemma InputsOfMean(norm: Norm, nodes: set<FabricNode>, switches: seq<SwitchInput>, byKey: map<string, string>,
                     c: Context)
    requires IsContext(norm, switches, byKey, c) && Sound(c)
    ensures InputsMean(norm, nodes, switches, InputsOf(c, nodes, ToSet(switches)))
  {
    var x := InputsOf(c, nodes, ToSet(switches));
    AllowedIsMayAdd(switches);
    forall name
      ensures name in x.synthetic <==> Added(norm, nodes, switches, name)
      ensures name in x.switches <==> OwnName(switches, name) || Added(norm, nodes, switches, name)
    {
      SyntheticIsAdded(norm, nodes, switches, byKey, c, name);
      NamesAreOwn(switches, name);
    }
    forall h
      ensures h in x.hosts <==> exists name :: Attached(norm, nodes, switches, name, h)
    {
      HostsParticipate(norm, nodes, switches, byKey, c, h);
    }
    forall name, v | name in x.switches
      ensures v in x.switches[name] <==> Neighbours(norm, nodes, switches, name, v)
    {
      NeighboursMean(norm, nodes, switches, byKey, c, name, v);
    }
  }

  /** Building the inputs fails exactly when all Switches have annotations and one of them is no
      list of other known switches; otherwise the inputs are what the objects say. */
  lemma ResultMeans(norm: Norm, nodes: set<FabricNode>, switches: seq<SwitchInput>, r: Result<Inputs, InputError>)
    requires Idempotent(norm) && IsResult(norm, nodes, switches, r)
    ensures r.Ok? <==> (SemiAutomaticList(switches) ==> AnnotationsResolve(norm, nodes, switches))
    ensures r.Ok? ==> InputsMean(norm, nodes, switches, r.value)
  {
    var byKey :| IndexesLast(norm, switches, byKey)
      && ResultFor(ContextOf(norm, ToSet(switches), byKey), nodes, ToSet(switches), r);
    var c := ContextOf(norm, ToSet(switches), byKey);
    ContextIsSound(norm, switches, byKey);
    ResolvableMeans(norm, nodes, switches, byKey, c);
    InputsOfMean(norm, nodes, switches, byKey, c);
  }

  /** Entry `i` of switch `a` is no Node and has the key of switch `b` only. */
  ghost predicate Spells(norm: Norm, nodes: set<FabricNode>, switches: seq<SwitchInput>, a: SwitchInput, i: nat,
                         b: SwitchInput) {
    && a in switches && i < |a.lldp| && !a.lldp[i].isNode && a.lldp[i].name !in NodeNames(nodes)
    && b in switches && HasKey(norm, b, norm(a.lldp[i].name)) && b.name !in NodeNames(nodes) && b.name != ""
    && forall k :: 0 <= k < |switches| && HasKey(norm, switches[k], norm(a.lldp[i].name)) ==>
         switches[k].name == b.name
  }

  lemma SpellingLeads(norm: Norm, nodes: set<FabricNode>, switches: seq<SwitchInput>, a: SwitchInput, i: nat,
                      b: SwitchInput)
    requires Spells(norm, nodes, switches, a, i, b)
    ensures Peer(norm, nodes, switches, a.name, b.name)
  {
    var key := norm(a.lldp[i].name);
    var k :| 0 <= k < |switches| && switches[k] == b;
    assert Keyed(norm, switches, key);
    SomeIsLast(norm, switches, key, k);
    var last :| LastWith(norm, switches, key, last);
    assert NamedByLast(norm, switches, key, b.name);
    assert LeadsTo(norm, nodes, switches, a.lldp[i], b.name);
  }

  /** Then it is a link from `a` to `b`. */
  lemma PeerIsLinked(norm: Norm, nodes: set<FabricNode>, switches: seq<SwitchInput>, x: Inputs, a: SwitchInput,
                     i: nat, b: SwitchInput)
    requires Idempotent(norm) && IsResult(norm, nodes, switches, Ok(x)) && !SemiAutomaticList(switches)
    requires Spells(norm, nodes, switches, a, i, b)
    ensures a.name in x.switches && b.name in x.switches[a.name]
  {
    SpellingLeads(norm, nodes, switches, a, i, b);
    var k :| 0 <= k < |switches| && switches[k] == a;
    assert OwnName(switches, a.name);
    var r: Result<Inputs, InputError> := Ok(x);
    ResultMeans(norm, nodes, switches, r);
    LinkedByMeaning(norm, nodes, switches, x, a.name, b.name);
  }

  lemma LinkedByMeaning(norm: Norm, nodes: set<FabricNode>, switches: seq<SwitchInput>, x: Inputs, a: string, b: string)
    requires InputsMean(norm, nodes, switches, x) && !SemiAutomaticList(switches)
    requires OwnName(switches, a) && Peer(norm, nodes, switches, a, b)
    ensures a in x.switches && b in x.switches[a]
  {
    assert Neighbours(norm, nodes, switches, a, b);
  }

  lemma {:induction false} SomeIsLast(norm: Norm, switches: seq<SwitchInput>, key: string, k: nat)
    requires k < |switches| && HasKey(norm, switches[k], key)
    ensures exists i :: LastWith(norm, switches, key, i)
    decreases |switches| - k
  {
    if j :| k < j < |switches| && HasKey(norm, switches[j], key) {
      SomeIsLast(norm, switches, key, j);
    } else {
      assert LastWith(norm, switches, key, k);
    }
  }
}
