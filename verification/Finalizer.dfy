/** The finalizer protocol of the auto-label controller as a state machine over API reads and
    writes. Between any two of its steps the controller may crash, and users and other
    controllers may delete, create or touch Topology objects and change Nodes. Writes carry
    the version that was read and fail when the object has changed since. */
module Finalizer {
  import opened Wrappers
  import opened LabelSyntax
  import opened CrashSafety

  /** A Topology object. It has no finalizer but the controller's. */
  datatype TopologyObject = TopologyObject(deleting: bool, finalizer: bool, version: int)

  datatype NodeObject = NodeObject(labels: Labels, version: int)

  /** A label that the controller wrote and that nobody has changed since. */
  datatype Mark = Mark(node: string, key: string, value: string)

  type NodeList = map<string, NodeObject>

  /** The label keys of each managed topology. */
  type Templates = map<string, string -> bool>

  /** Where the controller is in Reconcile. */
  datatype Phase =
    | Idle
    | Checking(rest: set<string>)
    | Resetting(topology: string, seen: int)
    | Stripping(topology: string, seen: int, listed: NodeList, todo: set<string>)
    | Planning(rest: set<string>, ensured: set<string>, listed: NodeList, plan: map<string, Labels>)
    | Claiming(topology: string, read: Option<int>, rest: set<string>, ensured: set<string>, listed: NodeList,
    plan: map<string, Labels>)
    | Applying(ensured: set<string>, listed: NodeList, plan: map<string, Labels>, todo: set<string>)

  /** API state, controller state, and the marks. `clock` is larger than any version. */
  datatype State = State(objects: map<string, TopologyObject>, nodes: NodeList, clock: int, phase: Phase,
    marks: set<Mark>)

  datatype Step =
    | Start | CheckOne(checked: string) | ListForReset | Strip(stripped: string) | Release
    | ListForPlan | PlanRole(role: string, rolePlan: map<string, Labels>) | Claim | StartApply
    | ApplyOne(applied: string) | Finish | Stop
    | DeleteTopology(deleted: string) | CreateTopology(created: string) | TouchTopology(touched: string)
    | ChangeNode(changed: string, labels: Labels) | DeleteNode(gone: string)

  /** No key belongs to two topologies. */
  ghost predicate Separate(templates: Templates) {
    forall t, u, k {:trigger templates[t](k), templates[u](k)} ::
      t in templates && u in templates && templates[t](k) && templates[u](k) ==> t == u
  }

  // ------------------------------------------------------------------- controller steps

  /** The first loop of Reconcile. */
  ghost predicate ChecksOne(s: State, t: string, s': State) {
    s.phase.Checking? && t in s.phase.rest && s' == s.(phase :=
      if t !in s.objects || !s.objects[t].deleting then Checking(s.phase.rest - {t})
      else if s.objects[t].finalizer then Resetting(t, s.objects[t].version)
      else Idle)
  }

  ghost predicate HasKeyOf(template: string -> bool, labels: Labels) {
    exists k :: k in labels && template(k)
  }

  /** Whether a write that was based on `read` still finds the object unchanged. */
  ghost predicate NodeUnchanged(s: State, listed: NodeList, n: string) {
    n in listed && n in s.nodes && s.nodes[n].version == listed[n].version
  }

  /** resetTopology on one Node. */
  ghost predicate StripsOne(templates: Templates, s: State, n: string, s': State) {
    && s.phase.Stripping? && n in s.phase.todo && n in s.phase.listed && s.phase.topology in templates
    && var t, listed := s.phase.topology, s.phase.listed;
    var next := Stripping(t, s.phase.seen, listed, s.phase.todo - {n});
    if !HasKeyOf(templates[t], listed[n].labels) then s' == s.(phase := next)
    else if !NodeUnchanged(s, listed, n) then s' == s.(phase := Idle)
    else
      && n in s'.nodes && Reconciled(listed[n].labels, map[], templates[t], s'.nodes[n].labels)
      && s' == State(s.objects, s.nodes[n := NodeObject(s'.nodes[n].labels, s.clock)], s.clock + 1, next, s'.marks)
      && s'.marks == set m | m in s.marks && !(m.node == n && templates[t](m.key))
  }

  /** The last write of resetTopology. An object that is being deleted goes with its last finalizer. */
  ghost predicate Releases(s: State, s': State) {
    && s.phase.Stripping? && s.phase.todo == {}
    && var t := s.phase.topology;
    if t !in s.objects || s.objects[t].version != s.phase.seen then s' == s.(phase := Idle)
    else if s.objects[t].deleting then s' == s.(phase := Idle, objects := s.objects - {t})
    else s' == s.(phase := Idle, objects := s.objects[t := TopologyObject(false, false, s.clock)], clock := s.clock + 1)
  }

  /** A plan for one topology holds names under keys of that topology. */
  ghost predicate KeysOf(template: string -> bool, plan: map<string, Labels>) {
    forall n, k {:trigger k in plan[n]} :: n in plan && k in plan[n] ==> template(k) && plan[n][k] != ""
  }

  /** merge, where the two plans name different keys. */
  ghost function Merge(plan: map<string, Labels>, more: map<string, Labels>): map<string, Labels> {
    map n | n in plan.Keys + more.Keys ::
      if n !in more then plan[n] else if n !in plan then more[n] else plan[n] + more[n]
  }

  /** One turn of the second loop of Reconcile, up to the read in ensureTopologyFinalizer. */
  ghost predicate PlansRole(templates: Templates, s: State, t: string, rolePlan: map<string, Labels>, s': State) {
    && s.phase.Planning? && t in s.phase.rest && t in templates && KeysOf(templates[t], rolePlan)
    && var (rest, ensured, listed, plan) :=
       (s.phase.rest - {t}, s.phase.ensured, s.phase.listed, Merge(s.phase.plan, rolePlan));
    s' == s.(phase :=
      if t !in s.objects then
        if rolePlan == map[] then Planning(rest, ensured, listed, s.phase.plan)
          else Claiming(t, None, rest, ensured, listed, plan)
      else if s.objects[t].deleting || s.objects[t].finalizer then Planning(rest, ensured + {t}, listed, plan)
      else Claiming(t, Some(s.objects[t].version), rest, ensured, listed, plan))
  }

  /** The write of ensureTopologyFinalizer: create the object or patch the one that was read. */
  ghost predicate Claims(s: State, s': State) {
    && s.phase.Claiming?
    && var t := s.phase.topology;
    var next := Planning(s.phase.rest, s.phase.ensured + {t}, s.phase.listed, s.phase.plan);
    if s.phase.read.None? && t !in s.objects then
      s' == s.(phase := next, objects := s.objects[t := TopologyObject(false, true, s.clock)], clock := s.clock + 1)
    else if s.phase.read.Some? && t in s.objects && s.objects[t].version == s.phase.read.value then
      s' == s.(phase := next, objects := s.objects[t := s.objects[t].(finalizer := true, version := s.clock)],
        clock := s.clock + 1)
    else s' == s.(phase := Idle)
  }

  ghost predicate NothingToAdd(labels: Labels, desired: Labels) {
    forall k :: k in desired ==> k in labels && labels[k] != ""
  }

  ghost function MarksFor(n: string, desired: Labels): set<Mark> {
    set k | k in desired :: Mark(n, k, desired[k])
  }

  /** applyPlan on one Node. */
  ghost predicate AppliesOne(s: State, n: string, s': State) {
    && s.phase.Applying? && n in s.phase.todo && n in s.phase.plan
    && var listed, desired := s.phase.listed, s.phase.plan[n];
    var next := Applying(s.phase.ensured, listed, s.phase.plan, s.phase.todo - {n});
    if n !in listed || !Compatible(listed[n].labels, desired, NO_LABEL) then s' == s.(phase := Idle)
    else if NothingToAdd(listed[n].labels, desired) then s' == s.(phase := next)
    else if !NodeUnchanged(s, listed, n) then s' == s.(phase := Idle)
    else
      && n in s'.nodes && Reconciled(listed[n].labels, desired, NO_LABEL, s'.nodes[n].labels)
      && s' == State(s.objects, s.nodes[n := NodeObject(s'.nodes[n].labels, s.clock)], s.clock + 1, next, s.marks
         + MarksFor(n, desired))
  }

  ghost predicate ControllerStep(templates: Templates, s: State, step: Step, s': State) {
    match step
    case Start => s.phase.Idle? && s' == s.(phase := Checking(templates.Keys))
    case CheckOne(t) => ChecksOne(s, t, s')
    case ListForReset =>
      s.phase.Resetting? && s' == s.(phase := Stripping(s.phase.topology, s.phase.seen, s.nodes, s.nodes.Keys))
    case Strip(n) => StripsOne(templates, s, n, s')
    case Release => Releases(s, s')
    case ListForPlan => s.phase == Checking({}) && s' == s.(phase := Planning(templates.Keys, {}, s.nodes, map[]))
    case PlanRole(t, rolePlan) => PlansRole(templates, s, t, rolePlan, s')
    case Claim => Claims(s, s')
    case StartApply =>
      s.phase.Planning? && s.phase.rest == {}
        && s' == s.(phase := Applying(s.phase.ensured, s.phase.listed, s.phase.plan, s.phase.plan.Keys))
    case ApplyOne(n) => AppliesOne(s, n, s')
    case Finish => s.phase.Applying? && s.phase.todo == {} && s' == s.(phase := Idle)
    case Stop => s' == s.(phase := Idle)
    case _ => false
  }

  // ------------------------------------------------------------------ everybody else

  /** Deleting an object with a finalizer only marks it. */
  ghost predicate Deletes(s: State, t: string, s': State) {
    t in s.objects &&
    if s.objects[t].finalizer then
      s' == s.(objects := s.objects[t := s.objects[t].(deleting := true, version := s.clock)], clock := s.clock + 1)
    else s' == s.(objects := s.objects - {t})
  }

  ghost function MarksAfter(s: State, n: string, labels: Labels): set<Mark> {
    set m | m in s.marks && (m.node != n || (m.key in labels && labels[m.key] == m.value))
  }

  ghost predicate OtherStep(s: State, step: Step, s': State) {
    match step
    case DeleteTopology(t) => Deletes(s, t, s')
    case CreateTopology(t) =>
      t !in s.objects
        && s' == s.(objects := s.objects[t := TopologyObject(false, false, s.clock)], clock := s.clock + 1)
    case TouchTopology(t) =>
      t in s.objects && s' == s.(objects := s.objects[t := s.objects[t].(version := s.clock)], clock := s.clock + 1)
    case ChangeNode(n, labels) =>
      s' == s.(nodes := s.nodes[n := NodeObject(labels, s.clock)], clock := s.clock
        + 1, marks := MarksAfter(s, n, labels))
    case DeleteNode(n) => s' == s.(nodes := s.nodes - {n}, marks := MarksAfter(s, n, map[]))
    case _ => false
  }

  ghost predicate Next(templates: Templates, s: State, step: Step, s': State) {
    ControllerStep(templates, s, step, s') || OtherStep(s, step, s')
  }

  // ---------------------------------------------------------------------- the invariant

  /** The topology object exists and carries the finalizer. */
  ghost predicate Held(s: State, t: string) {
    t in s.objects && s.objects[t].finalizer
  }

  /** Some topology with this key is held. */
  ghost predicate Owned(templates: Templates, s: State, key: string) {
    exists t :: t in templates && templates[t](key) && Held(s, t)
  }

  ghost predicate MarkOn(nodes: NodeList, m: Mark) {
    m.value != "" && m.node in nodes && m.key in nodes[m.node].labels && nodes[m.node].labels[m.key] == m.value
  }

  ghost predicate MarksPresent(s: State) {
    forall m {:trigger m in s.marks} :: m in s.marks ==> MarkOn(s.nodes, m)
  }

  /** What the protocol is for: a label the controller wrote is covered by a finalizer. */
  ghost predicate MarksOwned(templates: Templates, s: State) {
    forall m {:trigger m in s.marks} :: m in s.marks ==> Owned(templates, s, m.key)
  }

  ghost predicate DeletionWaits(s: State) {
    forall t {:trigger s.objects[t]} :: t in s.objects && s.objects[t].deleting ==> s.objects[t].finalizer
  }

  ghost predicate EnsuredHeld(s: State, ensured: set<string>) {
    forall t {:trigger t in ensured} :: t in ensured ==> Held(s, t)
  }

  /** Every planned key belongs to a topology in `ensured`. */
  ghost predicate PlanCovered(templates: Templates, ensured: set<string>, plan: map<string, Labels>) {
    forall n, k {:trigger k in plan[n]} :: n in plan && k in plan[n] ==>
      KeyCovered(templates, ensured, k) && plan[n][k] != ""
  }

  ghost predicate KeyCovered(templates: Templates, ensured: set<string>, k: string) {
    exists t :: t in ensured && t in templates && templates[t](k)
  }

  ghost predicate PhaseOk(templates: Templates, s: State) {
    match s.phase
    case Idle => true
    case Checking(rest) => rest <= templates.Keys
    case Resetting(t, seen) => t in templates && Held(s, t)
    case Stripping(t, seen, listed, todo) =>
      && t in templates && Held(s, t)
      && (forall m {:trigger m in s.marks} :: m in s.marks ==>
            MarkOn(listed, m) && (templates[t](m.key) ==> m.node in todo))
    case Planning(rest, ensured, listed, plan) =>
      && EnsuredHeld(s, ensured) && PlanCovered(templates, ensured, plan)
      && (forall m {:trigger m in s.marks} :: m in s.marks ==> MarkOn(listed, m))
    case Claiming(t, read, rest, ensured, listed, plan) =>
      && t in templates && EnsuredHeld(s, ensured) && PlanCovered(templates, ensured + {t}, plan)
      && (forall m {:trigger m in s.marks} :: m in s.marks ==> MarkOn(listed, m))
    case Applying(ensured, listed, plan, todo) =>
      && EnsuredHeld(s, ensured) && PlanCovered(templates, ensured, plan)
      && (forall m {:trigger m in s.marks} :: m in s.marks && m.node in todo ==> MarkOn(listed, m))
  }

  ghost predicate Inv(templates: Templates, s: State) {
    MarksPresent(s) && MarksOwned(templates, s) && DeletionWaits(s) && PhaseOk(templates, s)
  }

  ghost predicate Init(s: State) {
    && s.phase.Idle? && s.marks == {} && DeletionWaits(s)
    && (forall n {:trigger s.nodes[n]} :: n in s.nodes ==> s.nodes[n].version < s.clock)
    && (forall t {:trigger s.objects[t]} :: t in s.objects ==> s.objects[t].version < s.clock)
  }

  // ----------------------------------------------------------------- every step keeps it

  /** Steps that change neither Nodes nor marks, and release nothing, keep the claims on marks. */
  lemma StillOwned(templates: Templates, s: State, s': State)
    requires MarksOwned(templates, s) && s'.marks <= s.marks
      && forall t {:trigger Held(s', t)} :: Held(s, t) ==> Held(s', t)
    ensures MarksOwned(templates, s')
  {
    forall m | m in s'.marks
      ensures Owned(templates, s', m.key)
    {
      var t :| t in templates && templates[t](m.key) && Held(s, t);
      assert Held(s', t);
    }
  }

  lemma CheckKeepsInv(templates: Templates, s: State, t: string, s': State)
    requires Inv(templates, s) && ChecksOne(s, t, s')
    ensures Inv(templates, s')
  {
    StillOwned(templates, s, s');
  }

  lemma StripKeepsInv(templates: Templates, s: State, n: string, s': State)
    requires Inv(templates, s) && StripsOne(templates, s, n, s')
    ensures Inv(templates, s')
  {
    StillOwned(templates, s, s');
    var t, listed := s.phase.topology, s.phase.listed;
    forall m | m in s'.marks
      ensures MarkOn(s'.nodes, m)
    {
      assert m in s.marks;
      assert MarkOn(listed, m);
    }
  }

  /** When every listed Node is stripped, no mark of the topology is left. */
  lemma ReleaseKeepsInv(templates: Templates, s: State, s': State)
    requires Inv(templates, s) && Releases(s, s')
    ensures Inv(templates, s')
  {
    var t := s.phase.topology;
    forall m | m in s'.marks
      ensures Owned(templates, s', m.key)
    {
      var u :| u in templates && templates[u](m.key) && Held(s, u);
      assert u != t;
      assert Held(s', u);
    }
  }

  lemma MergeCovered(templates: Templates, ensured: set<string>, plan: map<string, Labels>, t: string,
                     rolePlan: map<string, Labels>)
    requires PlanCovered(templates, ensured, plan) && t in templates && KeysOf(templates[t], rolePlan)
    ensures PlanCovered(templates, ensured + {t}, Merge(plan, rolePlan))
  {
    var merged := Merge(plan, rolePlan);
    forall n, k | n in merged && k in merged[n]
      ensures KeyCovered(templates, ensured + {t}, k) && merged[n][k] != ""
    {
      if n in rolePlan && k in rolePlan[n] {
        assert t in ensured + {t} && templates[t](k);
      } else {
        assert k in plan[n] && KeyCovered(templates, ensured, k);
        var u :| u in ensured && u in templates && templates[u](k);
        assert u in ensured + {t};
      }
    }
  }

  lemma PlanKeepsInv(templates: Templates, s: State, t: string, rolePlan: map<string, Labels>, s': State)
    requires Inv(templates, s) && PlansRole(templates, s, t, rolePlan, s')
    ensures Inv(templates, s')
  {
    StillOwned(templates, s, s');
    MergeCovered(templates, s.phase.ensured, s.phase.plan, t, rolePlan);
  }

  lemma ClaimKeepsInv(templates: Templates, s: State, s': State)
    requires Inv(templates, s) && Claims(s, s')
    ensures Inv(templates, s')
  {
    StillOwned(templates, s, s');
  }

  lemma AppliedMark(templates: Templates, s: State, n: string, s': State, m: Mark)
    requires Inv(templates, s) && AppliesOne(s, n, s') && m in s'.marks
    ensures Owned(templates, s', m.key) && MarkOn(s'.nodes, m)
  {
    if m in s.marks {
      OldMark(templates, s, n, s', m);
    } else {
      NewMark(templates, s, n, s', m);
    }
  }

  lemma OldMark(templates: Templates, s: State, n: string, s': State, m: Mark)
    requires Inv(templates, s) && AppliesOne(s, n, s') && m in s.marks
    ensures Owned(templates, s', m.key) && MarkOn(s'.nodes, m)
  {
    var t :| t in templates && templates[t](m.key) && Held(s, t);
    assert Held(s', t);
    if m.node == n {
      assert MarkOn(s.phase.listed, m);
      assert s'.nodes != s.nodes ==> m.key in s'.nodes[n].labels;
    }
  }

  lemma NewMark(templates: Templates, s: State, n: string, s': State, m: Mark)
    requires Inv(templates, s) && AppliesOne(s, n, s') && m in s'.marks && m !in s.marks
    ensures m.node == n && Owned(templates, s', m.key)
    ensures MarkOn(s'.nodes, m)
  {
    assert m in MarksFor(n, s.phase.plan[n]);
    assert KeyCovered(templates, s.phase.ensured, m.key);
    var t :| t in s.phase.ensured && t in templates && templates[t](m.key);
    assert Held(s', t);
  }

  lemma ApplyKeepsInv(templates: Templates, s: State, n: string, s': State)
    requires Inv(templates, s) && AppliesOne(s, n, s')
    ensures Inv(templates, s')
  {
    forall m | m in s'.marks
      ensures Owned(templates, s', m.key)
      ensures MarkOn(s'.nodes, m)
    {
      AppliedMark(templates, s, n, s', m);
    }
    ApplyKeepsPhase(templates, s, n, s');
  }

  lemma ApplyKeepsPhase(templates: Templates, s: State, n: string, s': State)
    requires Inv(templates, s) && AppliesOne(s, n, s')
    ensures PhaseOk(templates, s') && DeletionWaits(s')
  {
  }

  /** Nothing the others do to Topology objects takes a finalizer away. */
  lemma TopologyStepKeepsInv(templates: Templates, s: State, step: Step, s': State)
    requires Inv(templates, s) && OtherStep(s, step, s') && !step.ChangeNode? && !step.DeleteNode?
    ensures Inv(templates, s')
  {
    assert s'.marks == s.marks && s'.nodes == s.nodes && s'.phase == s.phase;
    assert forall t :: Held(s, t) ==> Held(s', t);
    StillOwned(templates, s, s');
  }

  lemma NodeStepKeepsInv(templates: Templates, s: State, step: Step, s': State)
    requires Inv(templates, s) && OtherStep(s, step, s') && (step.ChangeNode? || step.DeleteNode?)
    ensures Inv(templates, s')
  {
    assert s'.marks <= s.marks && s'.objects == s.objects && s'.phase == s.phase;
    StillOwned(templates, s, s');
  }

  lemma StepKeepsInv(templates: Templates, s: State, step: Step, s': State)
    requires Inv(templates, s) && Next(templates, s, step, s')
    ensures Inv(templates, s')
  {
    if OtherStep(s, step, s') {
      if step.ChangeNode? || step.DeleteNode? {
        NodeStepKeepsInv(templates, s, step, s');
      } else {
        TopologyStepKeepsInv(templates, s, step, s');
      }
    } else {
      ControllerKeepsInv(templates, s, step, s');
    }
  }

  lemma ControllerKeepsInv(templates: Templates, s: State, step: Step, s': State)
    requires Inv(templates, s) && ControllerStep(templates, s, step, s')
    ensures Inv(templates, s')
  {
    match step {
      case CheckOne(t) => CheckKeepsInv(templates, s, t, s');
      case Strip(n) => StripKeepsInv(templates, s, n, s');
      case Release => ReleaseKeepsInv(templates, s, s');
      case PlanRole(t, rolePlan) => PlanKeepsInv(templates, s, t, rolePlan, s');
      case Claim => ClaimKeepsInv(templates, s, s');
      case ApplyOne(n) => ApplyKeepsInv(templates, s, n, s');
      case _ => QuietStepKeepsInv(templates, s, step, s');
    }
  }

  lemma QuietStepKeepsInv(templates: Templates, s: State, step: Step, s': State)
    requires Inv(templates, s) && ControllerStep(templates, s, step, s')
    requires step.Start? || step.ListForReset? || step.ListForPlan? || step.StartApply? || step.Finish? || step.Stop?
    ensures Inv(templates, s')
  {
    StillOwned(templates, s, s');
  }

  // ------------------------------------------------------------------------- whole runs

  ghost predicate StepAt(templates: Templates, run: seq<State>, steps: seq<Step>, i: int)
    requires 0 <= i < |steps| && |run| == |steps| + 1
  {
    Next(templates, run[i], steps[i], run[i + 1])
  }

  ghost predicate IsRun(templates: Templates, run: seq<State>, steps: seq<Step>) {
    && |run| == |steps| + 1 && Init(run[0])
    && forall i {:trigger StepAt(templates, run, steps, i)} :: 0 <= i < |steps| ==> StepAt(templates, run, steps, i)
  }

  /** In every state of every run a label the controller wrote belongs to a topology whose
      object exists and carries the finalizer. */
  lemma {:induction false} WrittenLabelsAreCovered(templates: Templates, run: seq<State>, steps: seq<Step>, i: nat)
    requires IsRun(templates, run, steps) && i < |run|
    ensures Inv(templates, run[i])
    ensures forall m :: m in run[i].marks ==>
      exists t :: t in templates && templates[t](m.key) && t in run[i].objects && run[i].objects[t].finalizer
    decreases i
  {
    if i > 0 {
      WrittenLabelsAreCovered(templates, run, steps, i - 1);
      var step := steps[i - 1];
      assert StepAt(templates, run, steps, i - 1);
      StepKeepsInv(templates, run[i - 1], step, run[i]);
    }
    forall m | m in run[i].marks
      ensures exists t :: t in templates && templates[t](m.key) && t in run[i].objects && run[i].objects[t].finalizer
    {
      assert Owned(templates, run[i], m.key);
    }
  }

  // ---------------------------------------------------------------------- no lost update

  ghost function Listed(phase: Phase): NodeList {
    match phase
    case Stripping(_, _, listed, _) => listed
    case Planning(_, _, listed, _) => listed
    case Claiming(_, _, _, _, listed, _) => listed
    case Applying(_, listed, _, _) => listed
    case _ => map[]
  }

  /** Equal versions mean equal Nodes, so a write never lands on labels it has not seen. */
  ghost predicate Locked(s: State, listed: NodeList) {
    && (forall n {:trigger s.nodes[n]} :: n in s.nodes ==> s.nodes[n].version < s.clock)
    && (forall n {:trigger listed[n]} :: n in listed ==>
          listed[n].version < s.clock
            && (n in s.nodes && s.nodes[n].version == listed[n].version ==> s.nodes[n] == listed[n]))
  }

  lemma StepKeepsLocks(templates: Templates, s: State, step: Step, s': State)
    requires Locked(s, Listed(s.phase)) && Next(templates, s, step, s')
    ensures Locked(s', Listed(s'.phase))
  {
    if ControllerStep(templates, s, step, s') {
      ControllerKeepsLocks(templates, s, step, s');
    }
  }

  lemma ControllerKeepsLocks(templates: Templates, s: State, step: Step, s': State)
    requires Locked(s, Listed(s.phase)) && ControllerStep(templates, s, step, s')
    ensures Locked(s', Listed(s'.phase))
  {
    match step {
      case PlanRole(t, rolePlan) => PlanKeepsList(templates, s, t, rolePlan, s');
      case Strip(n) => StripKeepsLocks(templates, s, n, s');
      case ApplyOne(n) => ApplyKeepsLocks(s, n, s');
      case _ =>
    }
  }

  lemma StripKeepsLocks(templates: Templates, s: State, n: string, s': State)
    requires Locked(s, Listed(s.phase)) && StripsOne(templates, s, n, s')
    ensures Locked(s', Listed(s'.phase))
  {
  }

  lemma ApplyKeepsLocks(s: State, n: string, s': State)
    requires Locked(s, Listed(s.phase)) && AppliesOne(s, n, s')
    ensures Locked(s', Listed(s'.phase))
  {
  }

  lemma PlanKeepsList(templates: Templates, s: State, t: string, rolePlan: map<string, Labels>, s': State)
    requires PlansRole(templates, s, t, rolePlan, s')
    ensures Listed(s'.phase) == Listed(s.phase) && s'.nodes == s.nodes && s'.clock == s.clock
  {
  }

  /** Whether `key` belongs to the topology that is being reset. */
  ghost predicate BeingReset(templates: Templates, s: State, key: string) {
    s.phase.Stripping? && s.phase.topology in templates && templates[s.phase.topology](key)
  }

  ghost predicate Label(s: State, n: string, k: string, v: string) {
    n in s.nodes && k in s.nodes[n].labels && s.nodes[n].labels[k] == v
  }

  /** A controller step changes or removes no written label, except labels of the topology
      whose reset is under way; and a reset adds none. */
  lemma ControllerKeepsOtherLabels(templates: Templates, s: State, step: Step, s': State, n: string, k: string,
                                   v: string)
    requires Locked(s, Listed(s.phase)) && ControllerStep(templates, s, step, s')
    ensures Label(s, n, k, v) && v != "" && !BeingReset(templates, s, k) ==> Label(s', n, k, v)
    ensures s.phase.Stripping? && Label(s', n, k, v) ==> Label(s, n, k, v)
  {
    match step {
      case Strip(x) => StripKeepsOthers(templates, s, x, s', n, k, v);
      case ApplyOne(x) => ApplyKeepsOthers(s, x, s', n, k, v);
      case PlanRole(t, rolePlan) => PlanKeepsList(templates, s, t, rolePlan, s');
      case _ =>
    }
  }

  lemma StripKeepsOthers(templates: Templates, s: State, x: string, s': State, n: string, k: string, v: string)
    requires Locked(s, Listed(s.phase)) && StripsOne(templates, s, x, s')
    ensures Label(s, n, k, v) && !BeingReset(templates, s, k) ==> Label(s', n, k, v)
    ensures Label(s', n, k, v) ==> Label(s, n, k, v)
  {
  }

  lemma ApplyKeepsOthers(s: State, x: string, s': State, n: string, k: string, v: string)
    requires Locked(s, Listed(s.phase)) && AppliesOne(s, x, s')
    ensures Label(s, n, k, v) && v != "" ==> Label(s', n, k, v)
  {
    if Label(s, n, k, v) && n == x && s'.nodes != s.nodes {
      assert k in s'.nodes[n].labels;
    }
  }

  /** Over every run: whatever the controller does next, the non-empty Node labels of all
      topologies but the one being reset stay as they are. */
  lemma {:induction false} ResetLeavesOthersAlone(templates: Templates, run: seq<State>, steps: seq<Step>, i: nat,
                                                  u: string, n: string, k: string, v: string)
    requires Separate(templates) && IsRun(templates, run, steps) && i < |steps|
      && ControllerStep(templates, run[i], steps[i], run[i + 1])
    requires u in templates && templates[u](k) && Label(run[i], n, k, v) && v != ""
    ensures !(run[i].phase.Stripping? && run[i].phase.topology == u) ==> Label(run[i + 1], n, k, v)
  {
    RunIsLocked(templates, run, steps, i);
    ControllerKeepsOtherLabels(templates, run[i], steps[i], run[i + 1], n, k, v);
  }

  lemma {:induction false} RunIsLocked(templates: Templates, run: seq<State>, steps: seq<Step>, i: nat)
    requires IsRun(templates, run, steps) && i < |run|
    ensures Locked(run[i], Listed(run[i].phase))
    decreases i
  {
    if i > 0 {
      RunIsLocked(templates, run, steps, i - 1);
      var step := steps[i - 1];
      assert StepAt(templates, run, steps, i - 1);
      StepKeepsLocks(templates, run[i - 1], step, run[i]);
    }
  }
}
