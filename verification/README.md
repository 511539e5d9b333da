# Unifabric topology and telemetry, modelled in Dafny

Unifabric discovers the switch hierarchy of a cluster from LLDP reports, writes it as labels
on Nodes and Switches, reads it back into Topology status objects, and measures RDMA traffic.
This project models the parts of it that carry the most logic and proves what they promise.

- **Discovery** (`Graph`, `TopologySpec`, `Discovery`, `Grouping`, `ParentIndex`,
  `BuildTopology`, `NormalizeGroups`, `GroupHierarchy`, `GroupNaming`). A switch's tier is its
  distance to the nearest host. A group of tier *t* is the tier-*t* part of one connected
  component of the graph cut off above *t*. The parent index has one parent per key, so the
  walk upwards fails only for a host entry that has the name of a switch with something above
  it, and the groups form a hierarchy.
- **Discovery inputs** (`ResourceName`, `TopologyInputs`, `InputMeaning`). Host names are resolved against a
  map of switches that grows on the way. The result depends on the order of the lists if and
  only if two Switches share a name, which then goes to the one listed last.
- **Label language** (`Decimal`, `LabelTemplate`, `DomainName`, `LabelSyntax`). Keys are prefix,
  canonical decimal, suffix. The product search over two automata decides whether two
  templates share a key.
- **Label writer** (`AutoLabel`, `AutoLabelPlan`, `PlanMerge`, `CrashSafety`, `FreshNumbers`,
  `InterruptedRuns`, `MergedPlans`, `Finalizer`, `FinalizerRuns`). A plan exists exactly when the labels already
  written fit the groups and no fresh number runs into a name that the scans do not see. One
  reconcile writes the merged plan of the two topologies it may manage, Nodes before Switches,
  and may stop anywhere. The finalizer protocol is a state machine over API reads and writes.
- **Status** (`Joining`, `Sets`, `StatusPaths`, `StatusForest`, `NodeGroups`, `TopologyStatus`). A status
  exists exactly when the labels describe a forest. Node group names are stable.
- **End to end** (`LabelsToStatus`, `Pipeline`, `FromObjects`). From FabricNodes and Switches to
  status: starting with unlabelled objects, the status mirrors the components of the graph,
  with one domain per group and one Node group per column of groups. It still does after any
  number of interrupted reconciles of both topologies (`MergedPlans`).
- **Streams** (`SwitchAgent`, `Subscription`, `SwitchSync`). One-slot snapshot channels under any
  interleaving, acceptance by generation across reconnects, and both together: when the stored
  neighbours are those of the agent's current snapshot.
- **Telemetry** (`MapSums`, `FlowMetrics`, `FlowLifetimes`, `QpIndex`, `SendPipeline`, `Sinks`,
  `SinkTotals`, `EthtoolCache`). Credits, joins, sampling, aggregation, sink queues, the totals
  from sampled events to each sink, and a counter cache.

## How the model relates to the code

- Lists that the code only sorts for a stable order are sets here, and every loop over a Go
  map or a sorted list takes the elements in any order. What is proved holds for every order.
  Where the order shows (which new Node group gets which number, which error is reported
  first), the contract leaves it open.
- Clocks, API answers, file and network input are parameters or steps that may fail. Errors
  are values; of the message text only the kind is kept.
- Tiers, group numbers and counts are integers. The bounds of 64-bit `int`, `int32` and
  `uint32` are written out where they decide something.
- The name of a group of several switches is a function of the set of its members. Discovery
  assumes that the groups of the graph it works on get different names and that none of these
  is a device name (`UnambiguousNames`, `NamesTellApart`, `DigestFits`). `GroupNaming` gives the
  exact condition for the names that the program makes, which join the members with dashes and
  then append a suffix or take a hash, without any assumption on the hash.
- `Syntax` and `Numbering` are records of functions with laws; `RealIsLawful` and
  `RealNumberingIsLawful` show that the real templates and names satisfy the laws, and
  `ReconcileConfiguredRole` is the whole run with them.
- Concurrent code is a step relation, one step per channel operation, lock, read or write.
  Crashes and other actors are steps too. Theorems are about every state of every run. Where they
  speak of what happened before, they say so in terms of the steps, and histories kept in a state
  are tied to these (`LogIsHonest`, `CurrentIsPublished`, `RowsGoWhereStepsSay`, `WrittenMeansHeld`).

## Results that are not plain yes

- A host entry that has the name of a switch with something above it makes discovery fail
  (`SharedNameBlocks` gives a family of inputs). That, and several tiers in a topology known
  from hosts only, are the only ways to fail once the inputs are built (`ReconcileRole`).
- Two groups get one name if and only if their member names, cut at the dashes, are the same
  pieces, or the hash collides on them (`NamesEqualIffPieces`, `UnambiguousIffPieces`,
  `RunNamesIffPieces`). `DashesMakeNamesClash` gives reports in which two groups of one graph do,
  under the suffix and under any hash; the controller uses the hash.
- The order of the Switches does not decide the inputs if and only if no two of them share a
  normalized name or host name, or their annotations can never be satisfied
  (`OrderFreeIffUnique`). This holds for the real normalization (`RealOrderFreeIffUnique`).
- A fresh group number can run into a name that the scans do not see. This needs a member that
  is a Switch of another role (`OtherRoleNameClashes`, `OwnRoleNeverClashes`); the plan then fails.
- An interrupted reconcile can make the next plan fail. `OneNodeStopsPlanning` and `ForeignLeaf`
  give three groups, one with the hidden number 3: a plan exists, and whatever the numbering,
  the landing of one Node stops all later plans. With *n* groups of a tier unnamed, the next plan
  can be built whatever part of this one lands, if and only if no hidden number lies below the
  highest visible one plus 2*n* and no two hidden ones within *n* of each other
  (`SurvivesIffRoom`). No run of interrupted reconciles ever gets stuck, if and only if both
  distances are above *n* + (*n* - 1) + ... + 1 (`NeverStuckIffSpaced`). With members of the role
  only there are no hidden numbers.
- Plans of two topologies conflict if and only if they want different names for one Switch that is
  a member of groups of both (`RolePlansAgree`).
- A subscription keeps its last generation when it reconnects, and an agent that restarts counts
  from 1 again. Its snapshots are ignored until they pass that generation (`RestartIsIgnored`).
  `Follow` gives the exact condition for the stored neighbours to be those of the current
  snapshot, and `FollowAll` shows that they are while the agent keeps running.
- Two queue pair entries that follow each other between two report rounds, the second with
  larger counters, are credited as one (`HiddenRestartLosesTraffic`). The credit is exact if and
  only if there is no such hidden restart (`CreditIsExactUnlessHidden`), and it never exceeds
  the traffic (`CreditNeverExceedsTraffic`).
- A row's count in an aggregation window restarts at zero when its 32 bits are full
  (`CountIsExactUnlessFull`). Totals are short by 2^32 submissions for each time this happens,
  over any number of events, and exact if and only if it never does (`ExactUnlessWrapped`). It
  never does without aggregation.
- Link counts are exact if and only if none exceeds an int32 (`NormalizeNeighbors`).
- A store can complete between the two halves of a lookup, so a call can return a value that is
  younger than the time it read (`YoungerThanTheRead`). Values stored before that reading are never
  younger, and values stored after it never older (`EarlierStamps`, `LaterStamps`).
- When listing Nodes fails, a snapshot is still accepted, with every neighbour read as a switch.
  The contract of `HandleSnapshot` says which kinds are stored then.

## Model

| member | source | states |
|---|---|---|
| `Discovery.TopologyGraph.constructor` | pkg/topology/topology.go:155-207 | the devices are hosts and switches, a switch winning a shared name; the links are exactly the usable reports, made undirected |
| `Discovery.TopologyGraph.AddUndirectedEdge` | pkg/topology/topology.go:215-221 | adding one edge to the symmetric closure of a set of links gives the closure of one more link |
| `Discovery.LinkedIffReported` | pkg/topology/topology.go:180-221 | two devices are linked exactly when one of them reports the other by name, in an entry for itself or for no device |
| `Discovery.TopologyGraph.InferTiers` | pkg/topology/topology.go:248-291 | every device ends with its shortest distance to a host, -1 when no host is reachable |
| `TopologySpec.LocalRulesGiveDistance` | pkg/topology/topology.go:248-301 | tiers that obey the local rules of the breadth-first search are the host distances |
| `Discovery.TopologyGraph.NormalizeTierEdges` | pkg/topology/topology.go:303-329 | the remaining edges are exactly those between adjacent tiers |
| `Discovery.NormalizedEdges` | pkg/topology/topology.go:303-329 | exactly same-tier and untiered edges go, and every switch of tier t keeps a neighbour of tier t - 1 |
| `Discovery.TopologyGraph.CollectConnectedZones` | pkg/topology/topology.go:444-460 | each host's zone is found once; distinct zones are disjoint |
| `Discovery.TopologyGraph.CollectZone` | pkg/topology/topology.go:475-505 | the devices reached from a host are its connected component |
| `Discovery.ZonesCoverTiered` | pkg/topology/topology.go:444-505 | a device lies in some host's zone if and only if it has a tier |
| `Grouping.BuildLowerGroupToTierDevices` | pkg/topology/topology.go:621-661 | each lower group is filed with exactly the devices of the tier that touch it |
| `Grouping.CollectGroup` | pkg/topology/topology.go:536-619 | the worklist gathers exactly the tier part of the truncated component of its start |
| `Grouping.BuildTierGroups` | pkg/topology/topology.go:536-619 | the groups of a tier are exactly the truncated components of its devices |
| `Grouping.BuildZoneGroups` | pkg/topology/topology.go:383-433 | tier by tier, the groups of a zone are the truncated components of all its switches |
| `Grouping.GroupsPartitionTier` | pkg/topology/topology.go:536-619 | every device of a tier lies in exactly one of its groups |
| `TopologySpec.MergeReachesComponent` | pkg/topology/topology.go:536-661 | merging devices that share lower groups, until nothing changes, fills the truncated component |
| `ParentIndex.IndexDeviceParents` | pkg/topology/topology.go:744-781 | each device is filed under the one group of its upward neighbours |
| `ParentIndex.IndexGroupParents` | pkg/topology/topology.go:783-838 | each group is filed under the one group of its members' upward neighbours |
| `ParentIndex.OneParentPerKey` | pkg/topology/topology.go:707-838 | whatever is filed under one key, the parent is the same |
| `BuildTopology.DeviceToGroupIndex` | pkg/topology/topology.go:719-742 | every member of a group is mapped to that group's name |
| `BuildTopology.Build` | pkg/topology/topology.go:339-442 | over all zones: groups are the truncated components, and every entry of the parent index has one parent, one tier up |
| `NormalizeGroups.WalkHost` | pkg/controller/switchtopology/autolabel_controller.go:390-469 | the walk of a host entry fails if and only if it has the name of a switch with something above it; otherwise it takes none of the four error paths and adds the host to exactly the groups of its components |
| `NormalizeGroups.NormalizeDiscoveredGroups` | pkg/controller/switchtopology/autolabel_controller.go:390-469 | fails if and only if the walk of some host entry does; otherwise each group's nodes are the hosts of its truncated component |
| `GroupHierarchy.HostGroupsFormHierarchy` | pkg/controller/switchtopology/autolabel_controller.go:390-469 | groups are disjoint per tier and non-empty, each host has a gapless column of groups, and a group's hosts share the group above |
| `GroupNaming.DashesMakeNamesClash` | pkg/topology/topology.go:671-705 | reports of which two groups, with different sorted member lists, get one name, with the suffix and with any hash |
| `Joining.JoinsEqualIffPieces` | pkg/topology/topology.go:682 | two joins are equal if and only if the parts, cut at the separator, are the same pieces |
| `GroupNaming.NamesEqualIffPieces` | pkg/topology/topology.go:671-705 | two groups of several switches get one name if and only if their pieces are the same or the hash collides on their joins |
| `GroupNaming.SuffixNeverCollides` | pkg/topology/topology.go:688-692 | the suffix adds no collision of its own |
| `GroupNaming.SuffixedNameIsDevice` | pkg/topology/topology.go:688-692 | a suffixed name is a device name if and only if the device has the pieces of the group and then the suffix |
| `GroupNaming.BeforeIsLexical` | pkg/topology/topology.go:675-676 | the order of member names is that of the first differing character, a proper beginning coming first |
| `GroupNaming.UnambiguousIffPieces` | pkg/topology/topology.go:671-705 | the names of one graph are unambiguous if and only if the pieces of its groups of several switches differ, no hash of them collides and none of these is called like a device |
| `GroupNaming.RunNamesIffPieces` | pkg/topology/topology.go:671-705 | what the whole run needs of the names, if and only if this holds for the graph of the reports |
| `GroupNaming.DashFreeGraph` | pkg/topology/topology.go:671-705 | without dashes in device names, a graph has unambiguous names if and only if no hash of its groups collides and none is called like a device |
| `GroupNaming.IdealIffPieces` | pkg/topology/topology.go:671-705 | names identify all sets of devices if and only if the pieces tell the sets apart, no hash collides and none is a device name |
| `GroupNaming.DashFreeNamesAreIdeal` | pkg/topology/topology.go:671-705 | without dashes in device names, names identify all sets of devices unless a hash collides or is a device name |
| `GroupNaming.DashFreeSuffixIsIdeal` | pkg/topology/topology.go:688-692 | with the suffix, device names without dashes are all it takes |
| `ResourceName.NormalizeResourceName` | pkg/controller/switchtopology/topology_inputs.go:262-277 | the loop computes the normal form: kept characters, single dashes inside |
| `ResourceName.NormalizeIdempotent` | pkg/controller/switchtopology/topology_inputs.go:262-277 | normalizing twice is normalizing once |
| `ResourceName.NormalizedByPosition` | pkg/controller/switchtopology/topology_inputs.go:262-277 | every character of the result has its place in the name: letters and digits from those written so, in order, all of them, side by side only if they are in the name; dashes from anything else, single and inside |
| `ResourceName.DashesNormalizeAway` | pkg/controller/switchtopology/topology_inputs.go:262-277 | every normal name has spellings of any greater length |
| `TopologyInputs.IndexNames` | pkg/controller/switchtopology/topology_inputs.go:37-46 | every normalized name or host name leads to the last listed switch that has it, and nothing else is indexed |
| `TopologyInputs.ResolveIsCanonical` | pkg/controller/switchtopology/topology_inputs.go:250-260 | resolving against the switches seen so far gives the canonical name, which depends on no order |
| `TopologyInputs.AddLinkBuilds` | pkg/controller/switchtopology/topology_inputs.go:81-109 | one interface at a time, builders, hosts and synthetic switches are functions of the set of links |
| `TopologyInputs.AddNodes` | pkg/controller/switchtopology/topology_inputs.go:70-109 | after all nodes they are functions of all usable links |
| `TopologyInputs.FindManualIsNamed` | pkg/controller/switchtopology/topology_inputs.go:118-126 | an annotation entry finds the switch with its canonical name, or nothing |
| `TopologyInputs.ManualNeighbours` | pkg/controller/switchtopology/topology_inputs.go:113-136 | succeeds if and only if the annotation is a list of known switches other than itself, and returns their names |
| `TopologyInputs.LldpNeighbours` | pkg/controller/switchtopology/topology_inputs.go:138-152 | exactly the canonical names of peers that are not hosts; InputMeaning.ResultMeans says which these are |
| `TopologyInputs.BuildTopologyInputs` | pkg/controller/switchtopology/topology_inputs.go:28-177 | success and result are functions of the sets of nodes and switches and of which switch has each name last |
| `InputMeaning.ResultMeans` | pkg/controller/switchtopology/topology_inputs.go:28-177 | in terms of the listed objects alone: building fails exactly when all Switches are annotated and an annotation is no list of other known switches; hosts, switches, switches known from hosts and all neighbours are exactly those that reports, LLDP entries and annotations name |
| `InputMeaning.PeerIsLinked` | pkg/controller/switchtopology/topology_inputs.go:138-152 | a peer that is no Node and has the key of one switch only is a link to that switch |
| `TopologyInputs.OrderDoesNotMatter` | pkg/controller/switchtopology/topology_inputs.go:28-177 | unless two switches share a name, any two orders of nodes and switches give the same result |
| `TopologyInputs.SharedKeyMakesOrderMatter` | pkg/controller/switchtopology/topology_inputs.go:37-177 | if two switches share a name then, next to any other nodes, there are a host and two listings of the switches, each listed once, that never give the same inputs |
| `TopologyInputs.SharedKeyHasTwoOrders` | pkg/controller/switchtopology/topology_inputs.go:37-46 | any two switches that share a name can be listed so that either is last |
| `TopologyInputs.OrderFreeIffUnique` | pkg/controller/switchtopology/topology_inputs.go:28-177 | all orders of the switches give the same result for all nodes, if and only if no two share a name or the annotations can never be satisfied |
| `TopologyInputs.RealOrderFreeIffUnique` | pkg/controller/switchtopology/topology_inputs.go:28-277 | the same for the real normalization |
| `TopologyInputs.NeverBuildsIsSemiAutomatic` | pkg/controller/switchtopology/topology_inputs.go:47-136 | building can fail for all nodes and all orders only where every Switch has the neighbour annotation |
| `Decimal.ValueOfItoa` | pkg/topologylabel/template.go:300-327 | reading a printed number gives the number back |
| `Decimal.ItoaOfParseCanonical` | pkg/topologylabel/template.go:314-327 | a canonical numeral that parses prints as itself |
| `Decimal.AtoiReads` | pkg/controller/topologystatus/build.go:274-284 | a text is read as a number exactly when it is digits after an optional sign, within 64 bits |
| `LabelTemplate.MatchOfRender` | pkg/topologylabel/template.go:300-327 | matching a rendered key gives the tier back, for every 64-bit tier |
| `LabelTemplate.RenderOfMatch` | pkg/topologylabel/template.go:300-327 | a key that matches is the rendering of its tier |
| `LabelTemplate.RunIsLive` | pkg/topologylabel/template.go:134-188 | the simulation holds exactly the states that the read prefix justifies |
| `LabelTemplate.AcceptsIsLanguage` | pkg/topologylabel/template.go:134-193 | the automaton accepts exactly the keys of the template |
| `LabelTemplate.SearchIsComplete` | pkg/topologylabel/template.go:201-250 | when the search ends without an example, no word is in both languages, over all characters |
| `LabelTemplate.IntersectionExample` | pkg/topologylabel/template.go:201-232 | terminates, and returns a word of both languages if and only if there is one |
| `LabelTemplate.CompileSet` | pkg/topologylabel/template.go:105-132 | succeeds if and only if no two templates share a key; the error is a shared key |
| `LabelTemplate.MatchesAtMostOne` | pkg/topologylabel/template.go:105-132 | a key matches at most one of two templates that do not overlap |
| `DomainName.ParseOfName` | pkg/controller/switchtopology/autolabel_controller.go:503-528 | a generated name parses into its tier and group |
| `DomainName.NameOfParse` | pkg/controller/switchtopology/autolabel_controller.go:503-528 | a value that parses is the name of its parts |
| `DomainName.NameIsLabelValue` | pkg/controller/topologystatus/build.go:204-212 | every generated name is a valid label value |
| `DomainName.LabelValueIsSpelled` | pkg/controller/topologystatus/build.go:204-212 | label values are exactly the texts of at most 63 letters, digits and, inside, dashes, underscores and dots |
| `LabelSyntax.RealIsLawful` | pkg/topologylabel/template.go:300-327 | the real keys and names satisfy the laws that the controllers rely on |
| `AutoLabel.ScanNode` | pkg/controller/switchtopology/autolabel_controller.go:471-486 | succeeds if and only if every matching label names the tier of its key; the maxima then cover all numbers seen and are numbers in use |
| `AutoLabel.Scan` | pkg/controller/switchtopology/autolabel_controller.go:471-501 | the same for all Nodes and the Switches of the role: the maxima are exactly the highest numbers in use |
| `AutoLabel.CollectLocked` | pkg/controller/switchtopology/autolabel_controller.go:310-338 | succeeds if and only if the group's objects exist and its names fit its tier; returns the names already on it |
| `AutoLabel.FreshName` | pkg/controller/switchtopology/autolabel_controller.go:342-347 | the next number of a tier gives a name of that tier that the scans have not seen |
| `AutoLabel.AssignName` | pkg/controller/switchtopology/autolabel_controller.go:297-352 | a group keeps the name written on it, else gets the next number of its tier; it fails only on inconsistent labels or when a fresh number runs into a name of another role |
| `AutoLabel.OwnRoleNeverClashes` | pkg/controller/switchtopology/autolabel_controller.go:235-352 | when all members are Switches of the role, no fresh number runs into a written name |
| `AutoLabel.OtherRoleNameClashes` | pkg/controller/switchtopology/autolabel_controller.go:326-352 | labels on a Switch of another role that a fresh number runs into |
| `AutoLabelPlan.PlanNodes` | pkg/controller/switchtopology/autolabel_controller.go:354-365 | exactly the Nodes of the group without the key get it |
| `AutoLabelPlan.PlanSwitches` | pkg/controller/switchtopology/autolabel_controller.go:366-383 | exactly the member Switches without a domain get it |
| `AutoLabelPlan.BuildAutoLabelPlan` | pkg/controller/switchtopology/autolabel_controller.go:235-388 | succeeds if and only if the labels fit the groups and no fresh number runs into a name that the scans do not see; names are sound and pairwise different, fresh ones are numbered from the highest number in use without a gap, and the plan holds exactly the missing labels |
| `AutoLabelPlan.AgreementIsConsistent` | pkg/controller/switchtopology/autolabel_controller.go:235-388 | labels that agree with some sound naming fit the groups |
| `PlanMerge.MergePlans` | pkg/controller/switchtopology/autolabel_controller.go:213-229 | succeeds if and only if the plans want no different values for one label, and returns their union |
| `PlanMerge.RolePlansAgree` | pkg/controller/switchtopology/autolabel_controller.go:160-177 | plans under templates that share no key agree if and only if they want the same name for every unnamed Switch that is a member of groups of both |
| `PlanMerge.ApartPlansAgree` | pkg/controller/switchtopology/autolabel_controller.go:160-177 | without a common member they always agree |
| `PlanMerge.CompiledTemplatesAreSeparate` | pkg/topologylabel/template.go:105-132 | templates that do not overlap give the separation that the finalizer protocol needs |
| `PlanMerge.RolePlanIsStep` | pkg/controller/switchtopology/autolabel_controller.go:160-177 | every plan of a role is a plan that the state machine allows for it |
| `CrashSafety.ReconcileLabelMap` | pkg/controller/switchtopology/autolabel_controller.go:687-715 | succeeds if and only if no written value would be replaced; the result fills in only what is missing |
| `CrashSafety.ApplyPlan` | pkg/controller/switchtopology/autolabel_controller.go:530-559 | any plan of missing labels, stopped after any number of writes: some objects carry their planned labels, all others are untouched, and no Switch is written before all Nodes are |
| `CrashSafety.LandKeepsLabels` | pkg/controller/switchtopology/autolabel_controller.go:530-559 | no landed subset of any plan of missing labels changes a value that was there |
| `CrashSafety.LandKeepsConsistent` | pkg/controller/switchtopology/autolabel_controller.go:235-388 | with one managed topology: after any landed subset the labels still fit the groups; with members of the role only, the next plan succeeds |
| `CrashSafety.NextPlanKeepsNames` | pkg/controller/switchtopology/autolabel_controller.go:235-388 | with one managed topology: the next plan keeps every name already written |
| `CrashSafety.FullyAppliedIsQuiet` | pkg/controller/switchtopology/autolabel_controller.go:231-388 | with one managed topology: after a full application the next plan is empty |
| `CrashSafety.UnlabelledIsConsistent` | pkg/controller/switchtopology/autolabel_controller.go:235-388 | a cluster without these labels fits any groups whose objects exist |
| `CrashSafety.RunKeepsLabels` | pkg/controller/switchtopology/autolabel_controller.go:113-185 | with one managed topology: over every run of interrupted reconciles no written value changes and the labels keep fitting; with members of the role only, every next plan succeeds |
| `FreshNumbers.LandKeepsSpaced` | pkg/controller/switchtopology/autolabel_controller.go:235-388 | members of any role: hidden numbers that keep their distance still do after any landed part, so the next plan succeeds |
| `FreshNumbers.SurvivesIffRoom` | pkg/controller/switchtopology/autolabel_controller.go:342-352 | members of any role: the next plan succeeds whatever part of this one lands, if and only if no hidden number is near the highest visible one or another hidden one |
| `InterruptedRuns.PlanExists` | pkg/controller/switchtopology/autolabel_controller.go:235-388 | labels that fit, without a clash, have a plan |
| `InterruptedRuns.NeverStuckIffSpaced` | pkg/controller/switchtopology/autolabel_controller.go:113-185 | members of any role: no run of interrupted reconciles ends where no plan can be built, if and only if the hidden numbers keep their distance |
| `InterruptedRuns.OneNodeStopsPlanning` | pkg/controller/switchtopology/autolabel_controller.go:342-352 | three groups, one with hidden number 3: a plan exists and none survives the landing of every part of it |
| `InterruptedRuns.ForeignLeaf` | pkg/controller/switchtopology/autolabel_controller.go:326-352 | clusters with three leaf switches in which this happens |
| `MergedPlans.LandView` | pkg/controller/switchtopology/autolabel_controller.go:160-179 | where the other topology labels nothing that this one reads: whatever part of the merged plan lands, it sees its own labels and Switches as if that part of its own plan had landed alone |
| `MergedPlans.MergedFits` | pkg/controller/switchtopology/autolabel_controller.go:213-229 | the merged plan names existing objects and labels they lack |
| `MergedPlans.MergedLandIsSafe` | pkg/controller/switchtopology/autolabel_controller.go:160-185 | for any two topologies: after any landed subset of the merged plan no value has changed and the labels of each still fit its groups; with members of the role only, its next plan succeeds |
| `MergedPlans.MergedLandStaysHealthy` | pkg/controller/switchtopology/autolabel_controller.go:160-185 | topologies that are apart, members of any role: with hidden numbers that keep their distance, each next plan succeeds after any landed part of the merged plan |
| `MergedPlans.MergedNextPlanKeepsNames` | pkg/controller/switchtopology/autolabel_controller.go:160-185 | for any two topologies: after any landed subset of the merged plan the next plan of each keeps every name already written |
| `MergedPlans.MergedFullyAppliedIsQuiet` | pkg/controller/switchtopology/autolabel_controller.go:160-185 | for any two topologies: after the whole merged plan the next plan of each is empty |
| `MergedPlans.PlanBoth` | pkg/controller/switchtopology/autolabel_controller.go:160-177 | planning and merging both topologies succeeds if and only if each can be planned and they want the same name for every common member; the latter holds when they are apart |
| `MergedPlans.LandOnGroups` | pkg/controller/switchtopology/autolabel_controller.go:160-179 | for any two topologies: whatever part of the merged plan lands, the groups of each carry what they would if that part of its own plan had landed alone |
| `MergedPlans.ConfiguredTogether` | pkg/topologylabel/template.go:105-132 | templates that do not overlap share no key, and their names are the same |
| `MergedPlans.ReconcileBoth` | pkg/controller/switchtopology/autolabel_controller.go:160-185 | one reconcile of both, stopped after any number of writes, is a step of the runs below; when they are apart it succeeds if and only if each can be planned |
| `MergedPlans.MergedRunIsSafe` | pkg/controller/switchtopology/autolabel_controller.go:113-185 | for any two topologies: over every run of interrupted reconciles no written value changes, and the labels of both keep fitting |
| `MergedPlans.MergedRunKeepsOwn` | pkg/controller/switchtopology/autolabel_controller.go:113-185 | topologies that are apart never label each other's objects, over every such run |
| `MergedPlans.MergedRunGoesOn` | pkg/controller/switchtopology/autolabel_controller.go:113-185 | topologies that are apart, members of any role: with hidden numbers that keep their distance, both can be planned in every state of every such run |
| `MergedPlans.MergedRunThenStatusMirrors` | pkg/controller/switchtopology/autolabel_controller.go:113-185 | topologies that are apart: from unlabelled objects, after every such run and one complete reconcile, the status of each mirrors its discovery |
| `MergedPlans.ReconcileUntilDone` | pkg/controller/switchtopology/autolabel_controller.go:113-185 | topologies that are apart: any number of interrupted reconciles of both, a complete one, and both statuses: nothing fails, and each status mirrors its discovery |
| `MergedPlans.FreshRolesGo` | pkg/controller/switchtopology/autolabel_controller.go:113-185 | unlabelled topologies of two roles, with members of the role, meet its condition |
| `Finalizer.StepKeepsInv` | pkg/controller/switchtopology/autolabel_controller.go:113-185 | every read, write, crash and foreign step keeps the protocol invariant |
| `Finalizer.ReleaseKeepsInv` | pkg/controller/switchtopology/autolabel_controller.go:618-648 | when the finalizer goes, no label written for that topology is left |
| `Finalizer.ClaimKeepsInv` | pkg/controller/switchtopology/autolabel_controller.go:561-585 | the object that a plan relies on exists and carries the finalizer, or the reconcile ends |
| `Finalizer.WrittenLabelsAreCovered` | pkg/controller/switchtopology/autolabel_controller.go:113-185 | in every state of every run a Node label the controller wrote belongs to a topology whose object exists with the finalizer |
| `Finalizer.ControllerKeepsOtherLabels` | pkg/controller/switchtopology/autolabel_controller.go:650-668 | a write never lands on labels it has not read, so nothing but a reset removes or replaces a value |
| `Finalizer.ResetLeavesOthersAlone` | pkg/controller/switchtopology/autolabel_controller.go:618-668 | over every run, resetting one topology leaves the Node labels of the others untouched |
| `FinalizerRuns.WrittenMeansHeld` | pkg/controller/switchtopology/autolabel_controller.go:113-185 | in every state of every run a Node label that the controller wrote, and that has stayed since, belongs to a topology whose object exists with the finalizer |
| `FinalizerRuns.OnlyApplyWrites` | pkg/controller/switchtopology/autolabel_controller.go:530-559 | the controller puts labels on Nodes by applying a plan and in no other way |
| `FinalizerRuns.DeletionComesFirst` | pkg/controller/switchtopology/autolabel_controller.go:126-143 | a topology that is seen to be deleted is reset if it has the finalizer, and nothing more is planned or written in that reconcile |
| `FinalizerRuns.PlansForTheLiving` | pkg/controller/switchtopology/autolabel_controller.go:126-159 | plans are made only when every managed topology was seen alive in this reconcile |
| `FinalizerRuns.FinishedMeansWritten` | pkg/controller/switchtopology/autolabel_controller.go:160-185 | when a reconcile finishes, every label of every plan made in it was on its Node when the Nodes were listed, or was written to it |
| `FinalizerRuns.ReleaseMeansStripped` | pkg/controller/switchtopology/autolabel_controller.go:618-648 | the finalizer goes only after every listed Node had been found without labels of the topology or stripped of them |
| `FinalizerRuns.ResetReleases` | pkg/controller/switchtopology/autolabel_controller.go:618-648 | a reset that ends with the object as it was seen takes the finalizer away, and leaves other objects alone |
| `FinalizerRuns.GivesUpOnlyWhenDisturbed` | pkg/controller/switchtopology/autolabel_controller.go:113-185 | the controller gives up a reconcile only because an object is going away, has changed since it was read, or carries another value than planned |
| `FinalizerRuns.WritesOnlyWhatItMust` | pkg/controller/switchtopology/autolabel_controller.go:687-715 | a reset writes no Node that had no label of the topology, and a plan none that had all its labels |
| `FinalizerRuns.ReconcileGetsDone` | pkg/controller/switchtopology/autolabel_controller.go:113-185 | every step of a reconcile leaves less to do, so it ends, wherever it is disturbed |
| `FinalizerRuns.NoReconcileIsStuck` | pkg/controller/switchtopology/autolabel_controller.go:113-185 | in every state of every run the controller can go on, in any order of what is left |
| `FinalizerRuns.WritesWhenAllArePlanned` | pkg/controller/switchtopology/autolabel_controller.go:160-185 | nothing is written before every managed topology has been planned for in this reconcile |
| `FinalizerRuns.ClaimMakes` | pkg/controller/switchtopology/autolabel_controller.go:561-585 | a claim that lands leaves the object with the finalizer and changes nothing else about it, or about others |
| `FinalizerRuns.WritesLandOnWhatWasRead` | pkg/controller/switchtopology/autolabel_controller.go:561-648 | a claim or a release lands only on an object that is still as the controller read it |
| `StatusPaths.LabelsByTier` | pkg/controller/topologystatus/build.go:162-184 | the non-empty values by tier; the error for two keys of one tier cannot occur |
| `StatusPaths.ReadPath` | pkg/controller/topologystatus/build.go:57-69 | succeeds if and only if no tier with a value lies above a gap, and returns the path |
| `StatusForest.AddDomains` | pkg/controller/topologystatus/build.go:66-77 | records the tier of every domain on the path; fails only on two tiers or a tier beyond int32 |
| `StatusForest.AddParents` | pkg/controller/topologystatus/build.go:79-86 | records exactly the parent links; fails only on a second parent |
| `StatusForest.DomainsMeanForest` | pkg/controller/topologystatus/build.go:66-86 | domains that could be recorded prove one tier and at most one parent each |
| `NodeGroups.PathKeyInjective` | pkg/controller/topologystatus/build.go:270-272 | different paths of valid names have different keys |
| `NodeGroups.RealNumberingIsLawful` | pkg/controller/topologystatus/build.go:274-284 | the number of a numbered name reads back |
| `NodeGroups.NumberIsRead` | pkg/controller/topologystatus/build.go:274-284 | a name carries a number exactly when it is the prefix followed by a positive one |
| `NodeGroups.AssignNodeGroupNames` | pkg/controller/topologystatus/build.go:241-268 | known paths keep their names; each new one gets the least number that neither the previous status nor an earlier new group has |
| `NodeGroups.SkipUsed` | pkg/controller/topologystatus/build.go:258-263 | the first number from a start that is not in use |
| `NodeGroups.NamesStayDistinct` | pkg/controller/topologystatus/build.go:241-268 | distinct names stay distinct, whatever paths appear and disappear |
| `NodeGroups.HistoryIsWellNamed` | pkg/controller/topologystatus/build.go:241-284 | over every sequence of builds from empty, names are pairwise distinct |
| `NodeGroups.SurvivorKeepsName` | pkg/controller/topologystatus/build.go:241-268 | a path of the previous status keeps its name |
| `NodeGroups.NameOrigin` | pkg/controller/topologystatus/build.go:241-268 | a new path never takes a number in use in the previous status |
| `TopologyStatus.AddNodes` | pkg/controller/topologystatus/build.go:56-99 | succeeds if and only if the Node labels are valid and describe a forest; domains and groups are those of the paths |
| `TopologyStatus.AddSwitches` | pkg/controller/topologystatus/build.go:101-118 | succeeds if and only if all domain values are valid; members and pending Switches are exact |
| `TopologyStatus.BuildTopologyStatus` | pkg/controller/topologystatus/build.go:46-160 | succeeds if and only if the labels describe a forest; domains, parents, members, pending Switches and groups are exactly those of the labels |
| `TopologyStatus.NodeInOneGroup` | pkg/controller/topologystatus/build.go:88-98 | each labelled Node lies in exactly one group, the one with its path |
| `TopologyStatus.GroupPathFollowsParents` | pkg/controller/topologystatus/build.go:79-98 | a group's path goes from a domain to its child, with tiers falling by one |
| `TopologyStatus.DomainsAreDetermined` | pkg/controller/topologystatus/build.go:124-130 | the labels determine the domains |
| `TopologyStatus.StatusContinuesHistory` | pkg/controller/topologystatus/build.go:156-268 | a status built on the last one of a history continues it, with distinct names |
| `TopologyStatus.RebuildChangesNothing` | pkg/controller/topologystatus/build.go:46-160 | building again on one's own output with the same labels changes nothing |
| `LabelsToStatus.PathIsColumn` | pkg/controller/topologystatus/build.go:56-99 | the written labels of a Node read back as its gapless column of groups |
| `LabelsToStatus.ColumnsHaveOneParent` | pkg/controller/topologystatus/build.go:79-86 | columns of a hierarchy give every domain at most one parent |
| `LabelsToStatus.DiscoveryIsAcceptable` | pkg/controller/topologystatus/build.go:46-118 | the written labels of a discovered topology always build a status |
| `LabelsToStatus.StatusMirrorsDiscovery` | pkg/controller/topologystatus/build.go:46-160 | one domain per group and different domains for different groups, each with its tier, its member Switches of the role and the group above as parent; nothing pending; every host of a group in exactly one Node group, whose path is its column of names, highest tier first; two Nodes share a Node group if and only if they lie in the same groups, and no other Node is listed |
| `LabelsToStatus.SamePathMeansSameGroups` | pkg/controller/topologystatus/build.go:88-98 | two Nodes have the same label path if and only if they lie in the same discovered groups |
| `LabelsToStatus.RunThenStatusMirrors` | pkg/controller/switchtopology/autolabel_controller.go:113-185 | with one managed topology: from unlabelled objects, after every run of interrupted reconciles and one complete one, the status mirrors the discovery |
| `Pipeline.DiscoverGraph` | pkg/topology/topology.go:135-153 | the graph that discovery works on: host distances as tiers, links between adjacent tiers only |
| `Pipeline.DiscoverGroups` | pkg/controller/switchtopology/autolabel_controller.go:270-274 | fails if and only if a host entry has the name of a switch with something above it; otherwise the groups are the truncated components of the reported graph and form a hierarchy over the hosts |
| `Pipeline.LabelAndReport` | pkg/controller/switchtopology/autolabel_controller.go:113-185 | plan, write and report: fails if and only if no plan can be built; otherwise the status mirrors the groups and continues the previous one |
| `Pipeline.TiersFitDevices` | pkg/topology/topology.go:248-291 | no tier exceeds the number of devices |
| `Pipeline.IdealTellsApart` | pkg/topology/topology.go:671-705 | names that identify all sets of devices are unambiguous in every graph of them |
| `Pipeline.DiscoverLabelReport` | pkg/controller/switchtopology/autolabel_controller.go:113-185 | discover, plan, write and report from objects of the role without labels: fails if and only if the walk does or no plan can be built, which for switches without names means that a topology known from hosts only has several tiers; otherwise the status mirrors the reported graph and continues the previous one |
| `Pipeline.SharedNameBlocks` | pkg/controller/switchtopology/autolabel_controller.go:390-469 | a family of inputs, a host with the name of a lower switch, on which the walk fails |
| `Pipeline.AllSeeHostsGivesOneTier` | pkg/controller/switchtopology/autolabel_controller.go:297-299 | where every switch reports a host that is no switch, all groups are of tier 1, so the error for an unexpected tier cannot occur |
| `FromObjects.NodeOnlySeesHosts` | pkg/controller/switchtopology/topology_inputs.go:47-109 | without Switches of the role, every switch of the inputs has a host as neighbour |
| `FromObjects.DiscoverRole` | pkg/controller/switchtopology/autolabel_controller.go:235-274 | fails if and only if the inputs cannot be built or the walk fails; otherwise the topology is that of the graph of the inputs |
| `FromObjects.ReconcileRole` | pkg/controller/switchtopology/autolabel_controller.go:235-388 | from FabricNodes and Switches to status: fails if and only if the inputs cannot be built, the walk fails, or no plan can be built; the first alone when no name is both a node's and a switch's and no switch carries a name; otherwise the status mirrors the graph of the inputs |
| `FromObjects.EligibleNodes` | pkg/controller/switchtopology/autolabel_controller.go:252-261 | exactly the FabricNodes that are Nodes are used |
| `FromObjects.ReconcileConfiguredRole` | pkg/controller/switchtopology/autolabel_controller.go:235-388 | the same run with the configured template, numbering and normalization; Node group names stay distinct |
| `FromObjects.ReconcileBothRoles` | pkg/controller/switchtopology/autolabel_controller.go:113-185 | from FabricNodes and Switches of two roles, through any number of interrupted reconciles and a complete one, to both statuses: only discovery can fail, and each status mirrors its discovered groups |
| `FromObjects.CleanRolesGoTogether` | pkg/controller/switchtopology/autolabel_controller.go:113-185 | two roles whose templates share no key meet its condition, if no node has the name of a switch and no Switch of another role is mistaken for one of the role |
| `FromObjects.ReconcileCleanRoles` | pkg/controller/switchtopology/autolabel_controller.go:113-185 | on such inputs nothing fails but the building of the inputs |
| `SwitchAgent.RunKeepsInv` | pkg/switchagent/agent.go:111-225 | every interleaving of refresher and subscribers keeps the channel invariant |
| `SwitchAgent.SendNeverBlocks` | pkg/switchagent/agent.go:187-197 | the replacing send finds its channel empty, whatever subscribers do in between |
| `SwitchAgent.NobodyMissesTheCurrent` | pkg/switchagent/agent.go:166-213 | while the lock is free each channel holds the current snapshot, or is empty and it was taken |
| `SwitchAgent.StreamsIncrease` | pkg/switchagent/agent.go:111-142 | the generations sent on each stream strictly increase |
| `SwitchAgent.CurrentIsPublished` | pkg/switchagent/agent.go:166-199 | in every state of every run the current snapshot holds the entries last collected and compared, and its generation is the number of times that these changed |
| `SwitchAgent.OnlyCurrentIsSent` | pkg/switchagent/agent.go:111-142 | every snapshot that a stream sends or holds was the current one at some time |
| `SwitchAgent.BeginsWithTheCurrent` | pkg/switchagent/agent.go:111-127 | a stream begins with the snapshot that was current when it subscribed, or ends if there was none |
| `SwitchAgent.StepTouchesOne` | pkg/switchagent/agent.go:187-225 | a step changes no subscriber but its own, and none goes but by its own leave |
| `SwitchAgent.ChannelsKeep` | pkg/switchagent/agent.go:187-197 | what is in a channel leaves it only when it is received or drained |
| `SwitchAgent.WhatIsReceivedIsSent` | pkg/switchagent/agent.go:128-141 | a stream sends every snapshot that it takes from its channel, one at a time |
| `SwitchAgent.BroadcastGetsDone` | pkg/switchagent/agent.go:187-197 | every step of a broadcast leaves less of it, whatever the subscribers do |
| `SwitchAgent.BroadcastGoesOn` | pkg/switchagent/agent.go:187-197 | a broadcast always has a next step, to any subscriber that is left |
| `SwitchAgent.NobodyIsBlocked` | pkg/switchagent/agent.go:111-225 | while no broadcast is under way the refresher can go on with whatever it collects and anybody can subscribe; streams can always send, receive and leave |
| `SwitchAgent.DeliveredIsCurrent` | pkg/switchagent/agent.go:111-213 | a stream that waits with an empty channel while no broadcast is under way has sent the current snapshot last |
| `Subscription.NormalizeNeighbors` | pkg/controller/switchtopology/subscription_manager.go:371-413 | fails if and only if a kept entry has no name; else, if and only if no number exceeds an int32, every reported name is listed once, as a Node exactly when it is one, with the number of kept entries that report it |
| `Subscription.NormalizationHasRightKinds` | pkg/controller/switchtopology/subscription_manager.go:415-436 | with the Nodes listed, a neighbour is stored as a Node exactly when a Node has its name up to normalization; without them none is |
| `Subscription.SwitchSubscription.HandleSnapshot` | pkg/controller/switchtopology/subscription_manager.go:262-318 | accepts exactly newer generations that can be read and stored; keeps accepted generations increasing and the status equal to the last accepted snapshot, with kinds by the Nodes listed then |
| `Subscription.SwitchSubscription.ReceiveUntilError` | pkg/controller/switchtopology/subscription_manager.go:246-259 | fails if and only if an event that is newer than all before it cannot be read or stored; otherwise no received generation is above the last accepted one |
| `Subscription.SwitchSubscription.RunSubscription` | pkg/controller/switchtopology/subscription_manager.go:196-214 | across any number of reconnects: accepted generations increase, accepted events come from the connections, and a connection that does not fail leaves no generation above the last accepted one |
| `SwitchSync.Follow` | pkg/controller/switchtopology/subscription_manager.go:196-318 | once a stream has delivered, the last accepted snapshot is the agent's current one if and only if it already was or its generation was not reached before; else nothing is stored |
| `SwitchSync.FollowAll` | pkg/controller/switchtopology/subscription_manager.go:196-318 | a new subscription to an agent that keeps running, after any connections cut anywhere: once the last stream has delivered, the stored neighbours are those of the entries that the agent last collected and compared, unless an event of that stream could not be handled |
| `SwitchSync.RestartIsIgnored` | pkg/controller/switchtopology/subscription_manager.go:196-214 | whatever a restarted agent reports first, a subscription that has accepted a snapshot keeps its neighbours |
| `Subscription.DiffNeighborKeys` | pkg/controller/switchtopology/subscription_manager.go:341-362 | the numbers of keys only in one list; both zero if and only if the key sets are equal |
| `FlowMetrics.Metrics.Observe` | pkg/agent/ebpfflow/metrics.go:204-225 | an unresolved flow changes nothing; a resolved one credits the gain since the baseline, or everything after a reset, to its flow only |
| `FlowMetrics.Metrics.EndReport` | pkg/agent/ebpfflow/metrics.go:229-234 | every queue pair that was seen keeps its baseline and every other one has none |
| `FlowMetrics.Metrics.Report` | pkg/agent/ebpfflow/component.go:611-680 | one round, in any order: every queue pair's account moves by its own observation only, the counters of every flow grow by the gains of its queue pairs, and over all flows they hold what the queue pairs were credited |
| `FlowMetrics.Metrics.RunReports` | pkg/agent/ebpfflow/component.go:611-717 | after any rounds each account is the fold of that queue pair's observations, and the counters over all flows hold the sum of the credits |
| `FlowLifetimes.CreditNeverExceedsTraffic` | pkg/agent/ebpfflow/metrics.go:204-234 | credited bytes and work requests never exceed the sum over the lifetimes of the counter when it was last seen |
| `FlowLifetimes.CreditIsExactUnlessHidden` | pkg/agent/ebpfflow/metrics.go:204-234 | the credit is the sum over the lifetimes of the counter when it was last resolved if and only if no entry was replaced, between two resolved rounds without a gap, by one whose counters had passed it |
| `FlowLifetimes.FinalsAreLast` | pkg/agent/ebpfflow/metrics.go:204-234 | the summed counters are those of the last sample, and the last resolved sample, of each lifetime |
| `FlowLifetimes.HiddenRestartLosesTraffic` | pkg/agent/ebpfflow/metrics.go:204-225 | histories whose credit falls short by the first lifetime's counters |
| `FlowLifetimes.OneLifetimeIsExact` | pkg/agent/ebpfflow/metrics.go:196-225 | within one lifetime the credit is the counter at the latest resolved round |
| `QpIndex.QpInfoIndex.Add` | pkg/agent/ebpfflow/component.go:537-544 | keeps the index exact for distinct keys; a repeated number becomes ambiguous |
| `QpIndex.QpInfoIndex.Lookup` | pkg/agent/ebpfflow/component.go:546-555 | the exact entry, else the only entry with that number, else nothing |
| `QpIndex.BuildIndex` | pkg/agent/ebpfflow/component.go:616-632 | filled in any order, the index is that of the map |
| `QpIndex.CleanupDeadQps` | pkg/agent/ebpfflow/component.go:567-606 | exactly the entries of dead processes go, infos only when no live counter has their number; nothing goes when the counters cannot be read |
| `QpIndex.CleanupKeepsLookups` | pkg/agent/ebpfflow/component.go:567-606 | the lookup of every live counter is unchanged by cleanup |
| `SendPipeline.Pipeline.FlushWindow` | pkg/agent/ebpfflow/sends.go:371-376 | the window empties into exactly its rows, each once, and its weight moves to them |
| `SendPipeline.Pipeline.Aggregate` | pkg/agent/ebpfflow/sends.go:350-368 | the window's end and the flushed rows; the open window has one row for every kind of event in it, five properties alike, with the number of such events up to 2^32; submissions and bytes stay accounted for |
| `SendPipeline.Pipeline.Consume` | pkg/agent/ebpfflow/sends.go:307-345 | one in every sample events is stored, as a row of its own without aggregation; the window tallies the last stored events, none past its end; rows handed out, the open window and the counts that started over account for all stored events and bytes, over any number of events |
| `SendPipeline.Pipeline.ConsumeAll` | pkg/agent/ebpfflow/sends.go:307-345 | floor(received / sample) events are stored; after a close the rows handed out hold them all, less 2^32 for every count that started over; none has without aggregation or within 2^32 - 1 events |
| `SendPipeline.CountIsExactUnlessFull` | pkg/agent/ebpfflow/sends.go:367 | counting is exact if and only if the row's 32-bit count is not full |
| `SendPipeline.ExactUnlessWrapped` | pkg/agent/ebpfflow/sends.go:307-376 | submissions are exact if and only if no count ever started over, bytes if and only if none of submissions with bytes did |
| `Sinks.EveryRowIsAccountedFor` | pkg/agent/ebpfflow/sends.go:149-235 | in every state of every run each offered row is queued, pending, inserted, failed or dropped; nothing is queued or pending after the loop has left |
| `Sinks.RowsGoWhereStepsSay` | pkg/agent/ebpfflow/sends.go:149-235 | dropped are exactly the rows that met a full queue and those of flushes without a connection, inserted and failed exactly those of the flushes that succeeded and failed |
| `Sinks.RowsKeepTheirOrder` | pkg/agent/ebpfflow/sends.go:149-235 | the rows that found room leave in the order in which they came |
| `Sinks.SmoothRunDelivers` | pkg/agent/ebpfflow/sends.go:149-235 | when the queue is never full and every flush succeeds, everything handed over is inserted once the loop has left |
| `Sinks.LosingTheSinkTakesAFailure` | pkg/agent/ebpfflow/sends.go:164-222 | between a flush that succeeded and one without a connection, one has failed |
| `Sinks.ClosedAndLeft` | pkg/agent/ebpfflow/sends.go:149-235 | the queue is closed and the loop has left exactly after those steps, and nothing is enqueued after a close |
| `Sinks.NobodyIsBlocked` | pkg/agent/ebpfflow/sends.go:149-235 | the consumer is never blocked, and the flush loop can always take, flush and, once closed and empty, leave |
| `Sinks.StepKeepsBounds` | pkg/agent/ebpfflow/sends.go:149-235 | the queue never exceeds its capacity and the batch never its size |
| `SinkTotals.SinkHoldsSampledTotal` | pkg/agent/ebpfflow/sends.go:149-376 | in every state of every run of a sink its queued, pending, inserted, failed and dropped rows, with the open window and the counts that started over, add up to the sampled submissions and bytes |
| `SinkTotals.NothingIsLeftBehind` | pkg/agent/ebpfflow/sends.go:149-376 | after a close and the end of the flush loop, every sampled submission and byte was inserted, failed or dropped, if no count started over |
| `SinkTotals.SmoothSinkInsertsAll` | pkg/agent/ebpfflow/sends.go:149-376 | then all sampled submissions and bytes are inserted |
| `EthtoolCache.RunKeepsInv` | pkg/agent/rdmascraper/ethtool.go:83-145 | every interleaving of Stats calls keeps the cache invariant |
| `EthtoolCache.StoreIsRight` | pkg/agent/rdmascraper/ethtool.go:130-145 | after a store the cache holds, for every key, the last value stored for it, unless it was as old as the retention time at the last store |
| `EthtoolCache.LogIsHonest` | pkg/agent/rdmascraper/ethtool.go:103-137 | stores carry what the call's own fetch answered and the clock at that time |
| `EthtoolCache.OneFetchAtATime` | pkg/agent/rdmascraper/ethtool.go:83-109 | at most one fetch runs |
| `EthtoolCache.ReturnedValues` | pkg/agent/rdmascraper/ethtool.go:83-145 | a returned value was answered to some fetch for that namespace and interface; unless the call fetched it itself, the clock at its last lookup was less than the time to live after the clock at that store, or it had found another call holding the fetch lock |
| `EthtoolCache.LookupDecides` | pkg/agent/rdmascraper/ethtool.go:83-127 | a call returns from a lookup exactly when every name can be served, with the last stored value of each; else it goes on to the lock, to wait, or to its fetch |
| `EthtoolCache.FetchesWhatIsNotFresh` | pkg/agent/rdmascraper/ethtool.go:83-109 | a fetch is asked for exactly the names without a fresh stored value |
| `EthtoolCache.AsksWhatItBegan` | pkg/agent/rdmascraper/ethtool.go:83-109 | a call keeps the namespace and the names it began with |
| `EthtoolCache.NoCallIsStuck` | pkg/agent/rdmascraper/ethtool.go:83-109 | every call that has not returned can take its next step, or waits for a lock that another one holds |
| `EthtoolCache.YoungerThanTheRead` | pkg/agent/rdmascraper/ethtool.go:113-127 | a run in which a call returns a value stored after it read the clock |
| `EthtoolCache.EarlierStamps` | pkg/agent/rdmascraper/ethtool.go:113-145 | what was stamped before a step is no later than the clock then |
| `EthtoolCache.LaterStamps` | pkg/agent/rdmascraper/ethtool.go:113-145 | what was stamped after a step is no earlier than the clock then |
| `EthtoolCache.MissingValues` | pkg/agent/rdmascraper/ethtool.go:78-109 | the requested names missing from a result are exactly those that the call's own fetch was asked for and did not answer |

## Left out

- Kubernetes clients, watches, events, metrics registration, gRPC and TLS setup, logging: they are parameters, failing steps, or absent.
- BPF programs, process and namespace inspection, LLDP parsing, sFlow decoding, configuration, HTTP API, dashboards: foreign interfaces, or easy members.
- SHA-1, template parsing and key validation: a compiled template is a prefix and a suffix; strings are sequences of characters.
- Topology edges, node lists by tier, lower group names and the parent chain query: views of what is modelled.
- Release of finalizers of topologies that are no longer managed: the set of managed topologies is fixed.
- Finalizer.WrittenLabelsAreCovered: covers Node labels; the reset of Switch labels is not a step, and other finalizers or a second controller instance are assumed absent.
- AutoLabelPlan.BuildAutoLabelPlan: assumes that the next group numbers do not exceed 64 bits.
- InterruptedRuns.NeverStuckIffSpaced: assumes that the numbers of all later plans fit 64 bits too.
- BuildTopology.Build: assumes unambiguous group names, for which GroupNaming.UnambiguousIffPieces gives the exact condition; what discovery returns when two groups get one name is not modelled.
- MergedPlans.MergedRunGoesOn: for the two topologies the controller can manage, when they are apart: neither labels a Switch that the other one reads, as with different roles and members of the role (MergedPlans.RolesAreApart). Of others only MergedRunIsSafe and what leads to it is proved.
- EthtoolCache.ReturnedValues: age is measured at the last lookup, not at return.
- EthtoolCache.MissingValues: the error that comes with an incomplete answer is not modelled.
- FromObjects.ReconcileRole: for one role, from objects of the role without labels, in a graph with unambiguous group names.
- FromObjects.ReconcileBothRoles: discovery is the same in every reconcile of the run; changes of the objects between reconciles are not steps.
- TopologyInputs.BuildTopologyInputs: the choice of interfaces by role and the JSON of the annotation are inputs.
- SwitchAgent.StreamsIncrease: generations are unbounded integers; the wrap of 64 bits is not modelled.
- SwitchSync.FollowAll: of a snapshot only the generation and the entries are compared and stored, not the switch name.
- Subscription.SwitchSubscription.HandleSnapshot: assumes an existing Switch object, and that a failed status write stores nothing; Healthy and conditions are not modelled.
- FlowMetrics.Metrics.Report: assumes that an iteration visits every entry once; counters are exact integers, not floating point.
- QpIndex.CleanupKeepsLookups: assumes that no entry changes during the cleanup.
- SendPipeline.Pipeline.ConsumeAll: the attribution of an event is an input.
- Sinks.EveryRowIsAccountedFor: taking a row from the queue and appending it to the batch is one step; a queue of capacity 0 holds nothing, so it drops every row.
- Subscription.NormalizeNeighbors: what a link count beyond an int32 is, and the order of the list, are not stated.
