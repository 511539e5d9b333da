/** The finalizer protocol over whole runs, in terms of labels and steps only: what the controller
    wrote is covered, what is being deleted is never planned for, and what a finished reconcile
    or reset has done. */
module FinalizerRuns {
  import opened Wrappers
  import opened LabelSyntax
  import opened Finalizer

  // ---------------------------------------------------------------------- written labels

  /** In step `k` the label appears on the Node by a write of the controller. */
  ghost predicate WroteAt(run: seq<State>, steps: seq<Step>, k: int, n: string, key: string, v: string)
    requires |run| == |steps| + 1
  {
    0 <= k < |steps| && steps[k] == ApplyOne(n) && !Label(run[k], n, key, v) && Label(run[k + 1], n, key, v)
  }

  /** It is there from then on up to state `i`. */
  ghost predicate StayedOn(run: seq<State>, k: int, i: nat, n: string, key: string, v: string) {
    forall j :: 0 <= k < j <= i && j < |run| ==> Label(run[j], n, key, v)
  }

  lemma WriteMarks(s: State, n: string, s': State, key: string, v: string)
    requires Locked(s, Listed(s.phase)) && AppliesOne(s, n, s') && !Label(s, n, key, v) && Label(s', n, key, v)
    ensures Mark(n, key, v) in s'.marks
  {
    var desired := s.phase.plan[n];
    assert key in desired && desired[key] == v;
    assert Mark(n, key, v) in MarksFor(n, desired);
  }

  lemma MarkStays(templates: Templates, s: State, step: Step, s': State, n: string, key: string, v: string)
    requires Next(templates, s, step, s') && Mark(n, key, v) in s.marks && Label(s', n, key, v)
    requires Locked(s, Listed(s.phase))
    ensures Mark(n, key, v) in s'.marks
  {
    if ControllerStep(templates, s, step, s') && step.Strip? {
      StripsMarks(templates, s, step.stripped, s', n, key, v);
    }
  }

  lemma StripsMarks(templates: Templates, s: State, x: string, s': State, n: string, key: string, v: string)
    requires StripsOne(templates, s, x, s') && Mark(n, key, v) in s.marks && Label(s', n, key, v)
    ensures Mark(n, key, v) in s'.marks
  {
    if s'.marks != s.marks && n == x {
      assert key in s'.nodes[n].labels;
    }
  }

  /** What the controller wrote and nobody has changed since is marked. */
  lemma {:induction false} WrittenIsMarked(templates: Templates, run: seq<State>, steps: seq<Step>, k: nat, i: nat,
                                           n: string, key: string, v: string)
    requires IsRun(templates, run, steps) && k < i < |run| && WroteAt(run, steps, k, n, key, v)
    requires StayedOn(run, k, i, n, key, v)
    ensures Mark(n, key, v) in run[i].marks
    decreases i
  {
    RunIsLocked(templates, run, steps, i - 1);
    assert StepAt(templates, run, steps, i - 1) && Label(run[i], n, key, v);
    if k == i - 1 {
      WriteMarks(run[k], n, run[k + 1], key, v);
    } else {
      WrittenIsMarked(templates, run, steps, k, i - 1, n, key, v);
      MarkStays(templates, run[i - 1], steps[i - 1], run[i], n, key, v);
    }
  }

  /** In every state of every run a Node label that the controller wrote, and that has stayed since,
      belongs to a topology whose object exists with the finalizer. */
  lemma WrittenMeansHeld(templates: Templates, run: seq<State>, steps: seq<Step>, k: nat, i: nat, n: string,
                         key: string, v: string)
    requires IsRun(templates, run, steps) && k < i < |run| && WroteAt(run, steps, k, n, key, v)
    requires StayedOn(run, k, i, n, key, v)
    ensures exists t :: t in templates && templates[t](key) && t in run[i].objects && run[i].objects[t].finalizer
  {
    WrittenIsMarked(templates, run, steps, k, i, n, key, v);
    WrittenLabelsAreCovered(templates, run, steps, i);
    assert Mark(n, key, v).key == key;
  }

  /** The controller puts labels on Nodes in no other way. */
  lemma OnlyApplyWrites(templates: Templates, s: State, step: Step, s': State, n: string, key: string, v: string)
    requires Locked(s, Listed(s.phase)) && ControllerStep(templates, s, step, s')
    requires !Label(s, n, key, v) && Label(s', n, key, v)
    ensures step == ApplyOne(n)
  {
    if step.Strip? {
      StripKeepsOthers(templates, s, step.stripped, s', n, key, v);
    }
  }

  // --------------------------------------------------------------------------- deletion

  /** The reconcile is over, or is resetting a topology. */
  ghost predicate Ending(p: Phase) {
    p.Idle? || p.Resetting? || p.Stripping?
  }

  ghost predicate NoStart(steps: seq<Step>, k: int, i: nat) {
    forall j :: 0 <= k < j < i && j < |steps| ==> !steps[j].Start?
  }

  lemma EndingStays(templates: Templates, s: State, step: Step, s': State)
    requires Next(templates, s, step, s') && Ending(s.phase) && !step.Start?
    ensures Ending(s'.phase)
  {
  }

  ghost predicate SeenDeleting(run: seq<State>, steps: seq<Step>, k: int, t: string)
    requires |run| == |steps| + 1
  {
    0 <= k < |steps| && steps[k] == CheckOne(t) && t in run[k].objects && run[k].objects[t].deleting
  }

  lemma DeletingEnds(templates: Templates, run: seq<State>, steps: seq<Step>, k: nat, t: string)
    requires IsRun(templates, run, steps) && SeenDeleting(run, steps, k, t)
    ensures Ending(run[k + 1].phase)
    ensures run[k].objects[t].finalizer ==> run[k + 1].phase == Resetting(t, run[k].objects[t].version)
  {
    assert StepAt(templates, run, steps, k);
  }

  /** A topology that is seen to be deleted is reset if it has the finalizer, and in that reconcile
      nothing is planned or written any more. */
  lemma {:induction false} DeletionComesFirst(templates: Templates, run: seq<State>, steps: seq<Step>, k: nat, i: nat,
                                              t: string)
    requires IsRun(templates, run, steps) && k < i < |run| && SeenDeleting(run, steps, k, t) && NoStart(steps, k, i)
    ensures Ending(run[i].phase)
    ensures run[k].objects[t].finalizer ==> run[k + 1].phase == Resetting(t, run[k].objects[t].version)
    decreases i
  {
    DeletingEnds(templates, run, steps, k, t);
    if k + 1 < i {
      DeletionComesFirst(templates, run, steps, k, i - 1, t);
      assert StepAt(templates, run, steps, i - 1);
      assert !steps[i - 1].Start?;
      EndingStays(templates, run[i - 1], steps[i - 1], run[i]);
    }
  }

  /** In step `k` the topology was looked at and not being deleted, and no reconcile has begun since. */
  ghost predicate SeenAlive(run: seq<State>, steps: seq<Step>, k: int, i: nat, t: string)
    requires |run| == |steps| + 1
  {
    && 0 <= k < i <= |steps| && steps[k] == CheckOne(t) && (t in run[k].objects ==> !run[k].objects[t].deleting)
    && NoStart(steps, k, i)
  }

  ghost predicate AllSeenAlive(templates: Templates, run: seq<State>, steps: seq<Step>, i: nat)
    requires |run| == |steps| + 1 && i < |run|
  {
    run[i].phase.Checking? ==> forall t :: t in templates && t !in run[i].phase.rest ==>
      exists k :: SeenAlive(run, steps, k, i, t)
  }

  lemma {:induction false} CheckedAreAlive(templates: Templates, run: seq<State>, steps: seq<Step>, i: nat)
    requires IsRun(templates, run, steps) && i < |run|
    ensures AllSeenAlive(templates, run, steps, i)
    decreases i
  {
    if i > 0 && run[i].phase.Checking? {
      CheckedAreAlive(templates, run, steps, i - 1);
      var s, step, s' := run[i - 1], steps[i - 1], run[i];
      assert StepAt(templates, run, steps, i - 1);
      CheckingStep(templates, s, step, s');
      forall t | t in templates && t !in s'.phase.rest
        ensures exists k :: SeenAlive(run, steps, k, i, t)
      {
        if step == CheckOne(t) {
          assert SeenAlive(run, steps, i - 1, i, t);
        } else {
          var k :| SeenAlive(run, steps, k, i - 1, t);
          assert SeenAlive(run, steps, k, i, t);
        }
      }
    }
  }

  /** How the first loop goes on. */
  lemma CheckingStep(templates: Templates, s: State, step: Step, s': State)
    requires Next(templates, s, step, s') && s'.phase.Checking?
    ensures step.Start? ==> s'.phase.rest == templates.Keys
    ensures !step.Start? ==> s.phase.Checking? && s'.phase.rest == s.phase.rest - if step.CheckOne? then {step.checked}
      else {}
    ensures step.CheckOne? && step.checked in s.objects ==> !s.objects[step.checked].deleting
  {
  }

  /** Plans are made only when all topologies were seen alive in this reconcile. */
  lemma PlansForTheLiving(templates: Templates, run: seq<State>, steps: seq<Step>, i: nat, t: string)
    requires IsRun(templates, run, steps) && i < |steps| && steps[i] == ListForPlan && t in templates
    ensures exists k :: SeenAlive(run, steps, k, i, t)
  {
    CheckedAreAlive(templates, run, steps, i);
    assert StepAt(templates, run, steps, i);
    assert run[i].phase == Checking({});
  }

  // ------------------------------------------------------------- what a reconcile achieves

  /** What the controller has planned so far, and which topologies it has yet to plan for. */
  ghost function PlanOf(p: Phase): map<string, Labels> {
    match p
    case Planning(_, _, _, plan) => plan
    case Claiming(_, _, _, _, _, plan) => plan
    case Applying(_, _, plan, _) => plan
    case _ => map[]
  }

  ghost function Rest(p: Phase): set<string> {
    match p
    case Planning(rest, _, _, _) => rest
    case Claiming(_, _, rest, _, _, _) => rest
    case _ => {}
  }

  ghost predicate Works(p: Phase) {
    p.Planning? || p.Claiming? || p.Applying?
  }

  ghost predicate Plans(plan: map<string, Labels>, n: string, key: string, v: string) {
    n in plan && key in plan[n] && plan[n][key] == v
  }

  lemma MergeKeeps(plan: map<string, Labels>, more: map<string, Labels>, n: string, key: string, v: string)
    ensures Plans(more, n, key, v) ==> Plans(Merge(plan, more), n, key, v)
    ensures Plans(plan, n, key, v) && !(n in more && key in more[n]) ==> Plans(Merge(plan, more), n, key, v)
  {
  }

  lemma NotItsKey(templates: Templates, t: string, u: string, more: map<string, Labels>, n: string, key: string)
    requires Separate(templates) && t in templates && u in templates && t != u
    requires templates[t](key) && KeysOf(templates[u], more)
    ensures !(n in more && key in more[n])
  {
  }

  /** A step after which the controller is still at work keeps an entry of a topology that it has
      planned for. */
  lemma PlanEntryStays(templates: Templates, s: State, step: Step, s': State, t: string, n: string, key: string,
                       v: string)
    requires Separate(templates) && Next(templates, s, step, s') && Works(s.phase) && Works(s'.phase)
    requires t in templates && templates[t](key) && t !in Rest(s.phase) && Plans(PlanOf(s.phase), n, key, v)
    ensures t !in Rest(s'.phase) && Plans(PlanOf(s'.phase), n, key, v)
  {
    if ControllerStep(templates, s, step, s') && step.PlanRole? {
      var u, more := step.role, step.rolePlan;
      MergeKeeps(s.phase.plan, more, n, key, v);
      NotItsKey(templates, t, u, more, n, key);
    }
  }

  lemma PlanEntryEnters(templates: Templates, s: State, t: string, rolePlan: map<string, Labels>, s': State, n: string,
                        key: string, v: string)
    requires PlansRole(templates, s, t, rolePlan, s') && Plans(rolePlan, n, key, v)
    ensures templates[t](key) && t !in Rest(s'.phase) && Works(s'.phase) && Plans(PlanOf(s'.phase), n, key, v)
  {
    MergeKeeps(s.phase.plan, rolePlan, n, key, v);
  }

  lemma WorkBeganEarlier(templates: Templates, s: State, step: Step, s': State)
    requires Next(templates, s, step, s') && Works(s'.phase) && step != ListForPlan
    ensures Works(s.phase)
  {
  }

  /** The role's plan was made in step `k`, in the reconcile that is under way in state `i`. */
  ghost predicate PlannedAt(run: seq<State>, steps: seq<Step>, k: int, i: nat, t: string,
                            rolePlan: map<string, Labels>) {
    0 <= k < i <= |steps| && steps[k] == PlanRole(t, rolePlan) && forall j :: k < j < i ==> steps[j] != ListForPlan
  }

  lemma {:induction false} PlannedStays(templates: Templates, run: seq<State>, steps: seq<Step>, k: nat, i: nat,
                                        t: string, rolePlan: map<string, Labels>, n: string, key: string, v: string)
    requires Separate(templates) && IsRun(templates, run, steps) && PlannedAt(run, steps, k, i, t, rolePlan)
    requires Plans(rolePlan, n, key, v) && Works(run[i].phase)
    ensures t in templates && templates[t](key) && t !in Rest(run[i].phase) && Plans(PlanOf(run[i].phase), n, key, v)
    decreases i
  {
    assert StepAt(templates, run, steps, i - 1);
    if k == i - 1 {
      PlanEntryEnters(templates, run[k], t, rolePlan, run[i], n, key, v);
    } else {
      WorkBeganEarlier(templates, run[i - 1], steps[i - 1], run[i]);
      PlannedStays(templates, run, steps, k, i - 1, t, rolePlan, n, key, v);
      PlanEntryStays(templates, run[i - 1], steps[i - 1], run[i], t, n, key, v);
    }
  }

  /** In step `k` the Node was visited: the label was on it when the Nodes were listed, or is
      after that step. */
  ghost predicate AppliedAt(run: seq<State>, steps: seq<Step>, k: int, i: nat, listed: NodeList, n: string, key: string,
                            v: string)
    requires |run| == |steps| + 1
  {
    && 0 <= k < i <= |steps| && steps[k] == ApplyOne(n)
    && ((n in listed && key in listed[n].labels && listed[n].labels[key] == v) || Label(run[k + 1], n, key, v))
  }

  ghost predicate AllApplied(run: seq<State>, steps: seq<Step>, i: nat)
    requires |run| == |steps| + 1 && i < |run|
  {
    run[i].phase.Applying? ==> forall n, key, v {:trigger Plans(run[i].phase.plan, n, key, v)} ::
      Plans(run[i].phase.plan, n, key, v) && n !in run[i].phase.todo ==>
      exists k :: AppliedAt(run, steps, k, i, run[i].phase.listed, n, key, v)
  }

  lemma ApplyLeavesLabel(s: State, n: string, s': State, key: string, v: string)
    requires AppliesOne(s, n, s') && s'.phase.Applying? && Plans(s.phase.plan, n, key, v) && v != ""
    ensures s'.phase.listed == s.phase.listed && n in s.phase.listed
    ensures (key in s.phase.listed[n].labels && s.phase.listed[n].labels[key] == v) || Label(s', n, key, v)
  {
  }

  lemma ApplyingStep(templates: Templates, s: State, step: Step, s': State)
    requires Next(templates, s, step, s') && s'.phase.Applying?
    ensures step.StartApply? ==> s'.phase.todo == s'.phase.plan.Keys
    ensures !step.StartApply? ==>
      s.phase.Applying? && s'.phase.plan == s.phase.plan && s'.phase.listed == s.phase.listed
    ensures !step.StartApply? ==> s'.phase.todo == s.phase.todo - if step.ApplyOne? then {step.applied} else {}
    ensures step.ApplyOne? ==> AppliesOne(s, step.applied, s')
  {
  }

  lemma {:induction false} VisitedAreApplied(templates: Templates, run: seq<State>, steps: seq<Step>, i: nat)
    requires IsRun(templates, run, steps) && i < |run|
    ensures AllApplied(run, steps, i)
    decreases i
  {
    if i > 0 && run[i].phase.Applying? {
      VisitedAreApplied(templates, run, steps, i - 1);
      WrittenLabelsAreCovered(templates, run, steps, i - 1);
      var s, step, s' := run[i - 1], steps[i - 1], run[i];
      assert StepAt(templates, run, steps, i - 1);
      ApplyingStep(templates, s, step, s');
      forall n, key, v | Plans(s'.phase.plan, n, key, v) && n !in s'.phase.todo
        ensures exists k :: AppliedAt(run, steps, k, i, s'.phase.listed, n, key, v)
      {
        if step == ApplyOne(n) {
          assert key in s.phase.plan[n];
          ApplyLeavesLabel(s, n, s', key, v);
          assert AppliedAt(run, steps, i - 1, i, s'.phase.listed, n, key, v);
        } else {
          assert Plans(s.phase.plan, n, key, v);
          var k :| AppliedAt(run, steps, k, i - 1, s.phase.listed, n, key, v);
          assert AppliedAt(run, steps, k, i, s'.phase.listed, n, key, v);
        }
      }
    }
  }

  /** When a reconcile finishes, every label of every plan made in it was found on its Node or
      was written to it. */
  lemma FinishedMeansWritten(templates: Templates, run: seq<State>, steps: seq<Step>, k: nat, i: nat, t: string,
                             rolePlan: map<string, Labels>, n: string, key: string, v: string)
    requires Separate(templates) && IsRun(templates, run, steps) && i < |steps| && steps[i] == Finish
    requires PlannedAt(run, steps, k, i, t, rolePlan) && Plans(rolePlan, n, key, v)
    ensures run[i].phase.Applying? && exists j :: AppliedAt(run, steps, j, i, run[i].phase.listed, n, key, v)
  {
    assert StepAt(templates, run, steps, i);
    PlannedStays(templates, run, steps, k, i, t, rolePlan, n, key, v);
    VisitedAreApplied(templates, run, steps, i);
    assert Plans(run[i].phase.plan, n, key, v);
  }

  // ------------------------------------------------------------------ what a reset achieves

  ghost predicate FreeOf(template: string -> bool, labels: Labels) {
    forall k :: k in labels ==> !template(k)
  }

  /** In step `k` the Node was visited: it had no label of the topology when the Nodes were
      listed, or has none after that step. */
  ghost predicate StrippedAt(template: string -> bool, run: seq<State>, steps: seq<Step>, k: int, i: nat,
                             listed: NodeList, n: string)
    requires |run| == |steps| + 1
  {
    && 0 <= k < i <= |steps| && steps[k] == Strip(n)
    && ((n in listed && FreeOf(template, listed[n].labels))
          || (n in run[k + 1].nodes && FreeOf(template, run[k + 1].nodes[n].labels)))
  }

  ghost predicate AllStripped(templates: Templates, run: seq<State>, steps: seq<Step>, i: nat)
    requires |run| == |steps| + 1 && i < |run|
  {
    run[i].phase.Stripping? && run[i].phase.topology in templates ==>
      forall n {:trigger n in run[i].phase.listed} :: n in run[i].phase.listed && n !in run[i].phase.todo ==>
        exists k :: StrippedAt(templates[run[i].phase.topology], run, steps, k, i, run[i].phase.listed, n)
  }

  lemma StrippingStep(templates: Templates, s: State, step: Step, s': State)
    requires Next(templates, s, step, s') && s'.phase.Stripping?
    ensures step.ListForReset? ==> s'.phase.listed == s.nodes && s'.phase.todo == s.nodes.Keys
    ensures !step.ListForReset? ==>
      s.phase.Stripping? && s'.phase.topology == s.phase.topology && s'.phase.listed == s.phase.listed
    ensures !step.ListForReset? ==> s'.phase.todo == s.phase.todo - if step.Strip? then {step.stripped} else {}
    ensures step.Strip? ==> StripsOne(templates, s, step.stripped, s')
  {
  }

  lemma StripLeavesNothing(templates: Templates, s: State, n: string, s': State)
    requires StripsOne(templates, s, n, s') && s'.phase.Stripping?
    ensures var template := templates[s.phase.topology];
      || (n in s.phase.listed && FreeOf(template, s.phase.listed[n].labels))
      || (n in s'.nodes && FreeOf(template, s'.nodes[n].labels))
  {
    var template := templates[s.phase.topology];
    if HasKeyOf(template, s.phase.listed[n].labels) {
      forall k | k in s'.nodes[n].labels
        ensures !template(k)
      {
      }
    }
  }

  lemma {:induction false} VisitedAreStripped(templates: Templates, run: seq<State>, steps: seq<Step>, i: nat)
    requires IsRun(templates, run, steps) && i < |run|
    ensures AllStripped(templates, run, steps, i)
    decreases i
  {
    if i > 0 && run[i].phase.Stripping? && run[i].phase.topology in templates {
      VisitedAreStripped(templates, run, steps, i - 1);
      var s, step, s' := run[i - 1], steps[i - 1], run[i];
      var template := templates[s'.phase.topology];
      assert StepAt(templates, run, steps, i - 1);
      StrippingStep(templates, s, step, s');
      forall n | n in s'.phase.listed && n !in s'.phase.todo
        ensures exists k :: StrippedAt(template, run, steps, k, i, s'.phase.listed, n)
      {
        if step == Strip(n) {
          StripLeavesNothing(templates, s, n, s');
          assert StrippedAt(template, run, steps, i - 1, i, s'.phase.listed, n);
        } else {
          var k :| StrippedAt(template, run, steps, k, i - 1, s.phase.listed, n);
          assert StrippedAt(template, run, steps, k, i, s'.phase.listed, n);
        }
      }
    }
  }

  /** The finalizer goes only after every Node that was listed had been found without labels of
      the topology, or stripped of them. */
  lemma ReleaseMeansStripped(templates: Templates, run: seq<State>, steps: seq<Step>, i: nat, n: string)
    requires IsRun(templates, run, steps) && i < |steps| && steps[i] == Release && run[i].phase.Stripping?
    requires run[i].phase.topology in templates && n in run[i].phase.listed
    ensures exists k :: StrippedAt(templates[run[i].phase.topology], run, steps, k, i, run[i].phase.listed, n)
  {
    assert StepAt(templates, run, steps, i);
    VisitedAreStripped(templates, run, steps, i);
  }

  // --------------------------------------------------------------- what ends a reconcile early

  /** The Node is not as it was listed, or carries another value for a planned label. */
  ghost predicate Disturbed(s: State, listed: NodeList, desired: Labels, n: string) {
    || n !in listed || n !in s.nodes || s.nodes[n] != listed[n]
    || exists k ::
      k in desired && k in listed[n].labels && listed[n].labels[k] != "" && listed[n].labels[k] != desired[k]
  }

  /** Unless it stops or is done, the controller gives up only because an object is going away,
      has changed since it was read, or carries another value than planned. */
  lemma GivesUpOnlyWhenDisturbed(templates: Templates, s: State, step: Step, s': State)
    requires ControllerStep(templates, s, step, s') && s'.phase.Idle? && !step.Stop? && !step.Finish?
    ensures match step
      case CheckOne(t) => t in s.objects && s.objects[t].deleting && !s.objects[t].finalizer
      case Strip(n) => s.phase.Stripping? && Disturbed(s, s.phase.listed, map[], n)
      case Release => true
      case Claim => s.phase.Claiming? && if s.phase.read.None? then s.phase.topology in s.objects
        else s.phase.topology !in s.objects || s.objects[s.phase.topology].version != s.phase.read.value
      case ApplyOne(n) => s.phase.Applying? && n in s.phase.plan && Disturbed(s, s.phase.listed, s.phase.plan[n], n)
      case _ => false
  {
  }

  /** A reset that reaches its end with the object as it was seen takes the finalizer away. */
  lemma ResetReleases(s: State, s': State)
    requires Releases(s, s') && s.phase.topology in s.objects && s.objects[s.phase.topology].version == s.phase.seen
    ensures s.phase.topology in s'.objects ==>
      !s.objects[s.phase.topology].deleting && !s'.objects[s.phase.topology].finalizer
    ensures forall t :: t in s.objects && t != s.phase.topology ==> t in s'.objects && s'.objects[t] == s.objects[t]
  {
  }

  /** A reset writes no Node that had no label of the topology, and a plan none that had all. */
  lemma WritesOnlyWhatItMust(templates: Templates, s: State, step: Step, s': State, n: string)
    requires ControllerStep(templates, s, step, s') && n in s.nodes
    requires step == Strip(n) ==> n in s.phase.listed && FreeOf(templates[s.phase.topology], s.phase.listed[n].labels)
    requires step == ApplyOne(n) ==> n in s.phase.listed && forall k :: k in s.phase.plan[n] ==>
      k in s.phase.listed[n].labels && s.phase.listed[n].labels[k] != ""
    ensures n in s'.nodes && s'.nodes[n] == s.nodes[n]
  {
  }

  // ------------------------------------------------------------------ every reconcile ends

  /** How much of a reconcile is left: the stage, and the work in it. */
  ghost function Stage(p: Phase): nat {
    match p
    case Idle => 0
    case Applying(_, _, _, _) => 1
    case Planning(_, _, _, _) => 2
    case Claiming(_, _, _, _, _, _) => 2
    case Stripping(_, _, _, _) => 3
    case Resetting(_, _) => 4
    case Checking(_) => 5
  }

  ghost function Left(p: Phase): nat {
    match p
    case Idle => 0
    case Applying(_, _, _, todo) => |todo|
    case Planning(rest, _, _, _) => 2 * |rest|
    case Claiming(_, _, rest, _, _, _) => 2 * |rest| + 1
    case Stripping(_, _, _, todo) => |todo|
    case Resetting(_, _) => 0
    case Checking(rest) => |rest|
  }

  lemma OneLess<T>(s: set<T>, x: T)
    requires x in s
    ensures |s - {x}| == |s| - 1
  {
  }

  ghost predicate LessLeft(p: Phase, p': Phase) {
    Stage(p') < Stage(p) || (Stage(p') == Stage(p) && Left(p') < Left(p))
  }

  lemma CheckLess(s: State, t: string, s': State)
    requires ChecksOne(s, t, s')
    ensures LessLeft(s.phase, s'.phase)
  {
    OneLess(s.phase.rest, t);
  }

  lemma StripLess(templates: Templates, s: State, n: string, s': State)
    requires StripsOne(templates, s, n, s')
    ensures LessLeft(s.phase, s'.phase)
  {
    OneLess(s.phase.todo, n);
  }

  lemma PlanLess(templates: Templates, s: State, t: string, rolePlan: map<string, Labels>, s': State)
    requires PlansRole(templates, s, t, rolePlan, s')
    ensures LessLeft(s.phase, s'.phase)
  {
    OneLess(s.phase.rest, t);
  }

  lemma ApplyLess(s: State, n: string, s': State)
    requires AppliesOne(s, n, s')
    ensures LessLeft(s.phase, s'.phase)
  {
    OneLess(s.phase.todo, n);
  }

  /** Every step of a reconcile leaves less to do, so it ends, wherever it is disturbed. */
  lemma ReconcileGetsDone(templates: Templates, s: State, step: Step, s': State)
    requires ControllerStep(templates, s, step, s') && !step.Start? && !step.Stop?
    ensures LessLeft(s.phase, s'.phase)
  {
    match step {
      case CheckOne(t) => CheckLess(s, t, s');
      case Strip(n) => StripLess(templates, s, n, s');
      case PlanRole(t, rolePlan) => PlanLess(templates, s, t, rolePlan, s');
      case ApplyOne(n) => ApplyLess(s, n, s');
      case _ =>
    }
  }

  ghost predicate CanDo(templates: Templates, s: State, step: Step) {
    exists s' :: ControllerStep(templates, s, step, s')
  }

  ghost function Without(labels: Labels, template: string -> bool): Labels {
    map k | k in labels && !template(k) :: labels[k]
  }

  ghost function Filled(labels: Labels, desired: Labels): Labels {
    map k | k in labels.Keys + desired.Keys ::
      if k in labels && (labels[k] != "" || k !in desired) then labels[k] else desired[k]
  }

  lemma StripCanGoOn(templates: Templates, s: State, n: string)
    requires s.phase.Stripping? && s.phase.topology in templates && n in s.phase.todo && n in s.phase.listed
    ensures CanDo(templates, s, Strip(n))
  {
    var t, listed := s.phase.topology, s.phase.listed;
    var next := Stripping(t, s.phase.seen, listed, s.phase.todo - {n});
    if !HasKeyOf(templates[t], listed[n].labels) {
      assert ControllerStep(templates, s, Strip(n), s.(phase := next));
    } else if !NodeUnchanged(s, listed, n) {
      assert ControllerStep(templates, s, Strip(n), s.(phase := Idle));
    } else {
      var marks := set m | m in s.marks && !(m.node == n && templates[t](m.key));
      var s' :=
        State(s.objects, s.nodes[n := NodeObject(Without(listed[n].labels, templates[t]), s.clock)], s.clock + 1,
        next, marks);
      assert ControllerStep(templates, s, Strip(n), s');
    }
  }

  lemma ApplyCanGoOn(templates: Templates, s: State, n: string)
    requires s.phase.Applying? && n in s.phase.todo && n in s.phase.plan
    ensures CanDo(templates, s, ApplyOne(n))
  {
    var listed, desired := s.phase.listed, s.phase.plan[n];
    var next := Applying(s.phase.ensured, listed, s.phase.plan, s.phase.todo - {n});
    if n in listed && NodeUnchanged(s, listed, n) {
      var s' :=
        State(s.objects, s.nodes[n := NodeObject(Filled(listed[n].labels, desired), s.clock)], s.clock + 1, next,
        s.marks + MarksFor(n, desired));
      assert AppliesOne(s, n, s') || AppliesOne(s, n, s.(phase := next)) || AppliesOne(s, n, s.(phase := Idle));
      assert ControllerStep(templates, s, ApplyOne(n), s')
        || ControllerStep(templates, s, ApplyOne(n), s.(phase := next))
        || ControllerStep(templates, s, ApplyOne(n), s.(phase := Idle));
    } else {
      assert AppliesOne(s, n, s.(phase := next)) || AppliesOne(s, n, s.(phase := Idle));
      assert ControllerStep(templates, s, ApplyOne(n), s.(phase := next))
        || ControllerStep(templates, s, ApplyOne(n), s.(phase := Idle));
    }
  }

  // ------------------------------------------------------------- writes to topology objects

  ghost predicate ObjectsOlder(s: State) {
    forall t {:trigger s.objects[t]} :: t in s.objects ==> s.objects[t].version < s.clock
  }

  lemma StepAges(templates: Templates, s: State, step: Step, s': State)
    requires Next(templates, s, step, s') && ObjectsOlder(s)
    ensures ObjectsOlder(s') && s.clock <= s'.clock
    ensures forall t {:trigger s'.objects[t]} :: t in s'.objects ==>
      (t in s.objects && s'.objects[t] == s.objects[t]) || s'.objects[t].version >= s.clock
  {
  }

  lemma {:induction false} RunAges(templates: Templates, run: seq<State>, steps: seq<Step>, i: nat)
    requires IsRun(templates, run, steps) && i < |run|
    ensures ObjectsOlder(run[i])
    decreases i
  {
    if i > 0 {
      RunAges(templates, run, steps, i - 1);
      assert StepAt(templates, run, steps, i - 1);
      StepAges(templates, run[i - 1], steps[i - 1], run[i]);
    }
  }

  /** An object that has its old version has not changed in between. */
  lemma {:induction false} SameVersionSameObject(templates: Templates, run: seq<State>, steps: seq<Step>, k: nat,
                                                 i: nat,
                                                 t: string)
    requires IsRun(templates, run, steps) && k <= i < |run| && t in run[k].objects && t in run[i].objects
    ensures run[i].objects[t] == run[k].objects[t] || run[i].objects[t].version >= run[k].clock
    ensures run[k].clock <= run[i].clock
    ensures run[k].objects[t].version < run[k].clock
    decreases i
  {
    RunAges(templates, run, steps, k);
    if k < i {
      RunAges(templates, run, steps, i - 1);
      assert StepAt(templates, run, steps, i - 1);
      StepAges(templates, run[i - 1], steps[i - 1], run[i]);
      ClockRises(templates, run, steps, k, i - 1);
      if t in run[i - 1].objects {
        SameVersionSameObject(templates, run, steps, k, i - 1, t);
      }
    }
  }

  lemma {:induction false} ClockRises(templates: Templates, run: seq<State>, steps: seq<Step>, k: nat, i: nat)
    requires IsRun(templates, run, steps) && k <= i < |run|
    ensures run[k].clock <= run[i].clock
    decreases i
  {
    if k < i {
      ClockRises(templates, run, steps, k, i - 1);
      RunAges(templates, run, steps, i - 1);
      assert StepAt(templates, run, steps, i - 1);
      StepAges(templates, run[i - 1], steps[i - 1], run[i]);
    }
  }

  /** The write that ends this claim lands on the object: it exists and carries the finalizer. */
  lemma ClaimMakes(templates: Templates, s: State, s': State)
    requires Claims(s, s') && !s'.phase.Idle?
    ensures var t := s.phase.topology;
      && t in s'.objects && s'.objects[t].finalizer && s'.phase.Planning? && t in s'.phase.ensured
      && (s'.objects[t].deleting <==> t in s.objects && s.objects[t].deleting)
      && (forall u :: u in s.objects && u != t ==> u in s'.objects && s'.objects[u] == s.objects[u])
  {
  }

  /** The controller read the object of the topology in step `k`, with this version. */
  ghost predicate ReadAt(run: seq<State>, steps: seq<Step>, k: int, i: nat, t: string, version: int)
    requires |run| == |steps| + 1
  {
    && 0 <= k < i <= |steps| && t in run[k].objects && run[k].objects[t].version == version
    && (steps[k] == CheckOne(t) || (steps[k].PlanRole? && steps[k].role == t))
  }

  /** The version that the next write to a topology object relies on. */
  ghost predicate ReliesOn(p: Phase, t: string, version: int) {
    || (p.Claiming? && p.topology == t && p.read == Some(version))
    || (p.Resetting? && p.topology == t && p.seen == version)
    || (p.Stripping? && p.topology == t && p.seen == version)
  }

  lemma ReliesOnRead(templates: Templates, s: State, step: Step, s': State, t: string, version: int)
    requires Next(templates, s, step, s') && ReliesOn(s'.phase, t, version) && !ReliesOn(s.phase, t, version)
    ensures t in s.objects && s.objects[t].version == version
    ensures step == CheckOne(t) || (step.PlanRole? && step.role == t)
  {
  }

  lemma {:induction false} VersionsWereRead(templates: Templates, run: seq<State>, steps: seq<Step>, i: nat, t: string,
                                            version: int)
    requires IsRun(templates, run, steps) && i < |run| && ReliesOn(run[i].phase, t, version)
    ensures exists k :: ReadAt(run, steps, k, i, t, version)
    decreases i
  {
    if i > 0 {
      assert StepAt(templates, run, steps, i - 1);
      if ReliesOn(run[i - 1].phase, t, version) {
        VersionsWereRead(templates, run, steps, i - 1, t, version);
        var k :| ReadAt(run, steps, k, i - 1, t, version);
        assert ReadAt(run, steps, k, i, t, version);
      } else {
        ReliesOnRead(templates, run[i - 1], steps[i - 1], run[i], t, version);
        assert ReadAt(run, steps, i - 1, i, t, version);
      }
    }
  }

  /** A claim or a release lands only on an object that is still as the controller read it. */
  lemma WritesLandOnWhatWasRead(templates: Templates, run: seq<State>, steps: seq<Step>, i: nat, t: string)
    requires IsRun(templates, run, steps) && i < |run| && t in run[i].objects
    requires ReliesOn(run[i].phase, t, run[i].objects[t].version)
    ensures exists k :: ReadAt(run, steps, k, i, t, run[i].objects[t].version) && run[k].objects[t] == run[i].objects[t]
  {
    var version := run[i].objects[t].version;
    VersionsWereRead(templates, run, steps, i, t, version);
    var k :| ReadAt(run, steps, k, i, t, version);
    SameVersionSameObject(templates, run, steps, k, i, t);
  }

  // --------------------------------------------------------------- all topologies are planned

  ghost predicate PlannedSince(steps: seq<Step>, k: int, i: nat, t: string) {
    && 0 <= k < i <= |steps| && steps[k].PlanRole? && steps[k].role == t
    && forall j :: k < j < i ==> steps[j] != ListForPlan
  }

  ghost predicate AllPlannedBut(templates: Templates, steps: seq<Step>, p: Phase, i: nat) {
    Works(p) ==> forall t :: t in templates && t !in Rest(p) ==> exists k :: PlannedSince(steps, k, i, t)
  }

  lemma WorkingStep(templates: Templates, s: State, step: Step, s': State)
    requires Next(templates, s, step, s') && Works(s'.phase)
    ensures step == ListForPlan ==> Rest(s'.phase) == templates.Keys
    ensures step != ListForPlan ==> Works(s.phase)
    ensures step != ListForPlan ==> Rest(s'.phase) == Rest(s.phase) - if step.PlanRole? then {step.role} else {}
  {
  }

  lemma {:induction false} PlannedOneByOne(templates: Templates, run: seq<State>, steps: seq<Step>, i: nat)
    requires IsRun(templates, run, steps) && i < |run|
    ensures AllPlannedBut(templates, steps, run[i].phase, i)
    decreases i
  {
    if i > 0 && Works(run[i].phase) {
      PlannedOneByOne(templates, run, steps, i - 1);
      assert StepAt(templates, run, steps, i - 1);
      var step := steps[i - 1];
      WorkingStep(templates, run[i - 1], step, run[i]);
      forall t | t in templates && t !in Rest(run[i].phase)
        ensures exists k :: PlannedSince(steps, k, i, t)
      {
        if step.PlanRole? && step.role == t {
          assert PlannedSince(steps, i - 1, i, t);
        } else {
          var k :| PlannedSince(steps, k, i - 1, t);
          assert PlannedSince(steps, k, i, t);
        }
      }
    }
  }

  /** Nothing is written before every managed topology has been planned for. */
  lemma WritesWhenAllArePlanned(templates: Templates, run: seq<State>, steps: seq<Step>, i: nat, t: string)
    requires IsRun(templates, run, steps) && i < |run| && run[i].phase.Applying? && t in templates
    ensures exists k :: PlannedSince(steps, k, i, t)
  {
    PlannedOneByOne(templates, run, steps, i);
  }

  // ------------------------------------------------------------- no reconcile is stuck

  /** The next step of a reconcile, for every topology or Node that is left in its stage. */
  ghost predicate CanGoOn(templates: Templates, s: State) {
    match s.phase
    case Idle => CanDo(templates, s, Start)
    case Checking(rest) =>
      (rest == {} ==> CanDo(templates, s, ListForPlan)) && forall t :: t in rest ==> CanDo(templates, s, CheckOne(t))
    case Resetting(_, _) => CanDo(templates, s, ListForReset)
    case Stripping(_, _, _, todo) =>
      (todo == {} ==> CanDo(templates, s, Release)) && forall n :: n in todo ==> CanDo(templates, s, Strip(n))
    case Planning(rest, _, _, _) =>
      && (rest == {} ==> CanDo(templates, s, StartApply))
      && forall t, rolePlan {:trigger PlanRole(t, rolePlan)} ::
           t in rest && t in templates && KeysOf(templates[t], rolePlan) ==> CanDo(templates, s, PlanRole(t, rolePlan))
    case Claiming(_, _, _, _, _, _) => CanDo(templates, s, Claim)
    case Applying(_, _, _, todo) =>
      (todo == {} ==> CanDo(templates, s, Finish)) && forall n :: n in todo ==> CanDo(templates, s, ApplyOne(n))
  }

  /** What the phases keep in hand. */
  ghost predicate InHand(templates: Templates, p: Phase) {
    match p
    case Stripping(t, _, listed, todo) => t in templates && todo <= listed.Keys
    case Applying(_, _, plan, todo) => todo <= plan.Keys
    case Resetting(t, _) => t in templates
    case Checking(rest) => rest <= templates.Keys
    case _ => true
  }

  lemma StepKeepsInHand(templates: Templates, s: State, step: Step, s': State)
    requires Next(templates, s, step, s') && InHand(templates, s.phase)
    ensures InHand(templates, s'.phase)
  {
  }

  lemma ChecksGoOn(templates: Templates, s: State)
    requires s.phase.Checking?
    ensures CanGoOn(templates, s)
  {
    assert s.phase.rest == {} ==>
      ControllerStep(templates, s, ListForPlan, s.(phase := Planning(templates.Keys, {}, s.nodes, map[])));
    forall t | t in s.phase.rest
      ensures CanDo(templates, s, CheckOne(t))
    {
      var next :=
        if t !in s.objects || !s.objects[t].deleting then Checking(s.phase.rest - {t})
        else if s.objects[t].finalizer then Resetting(t, s.objects[t].version)
        else Idle;
      assert ControllerStep(templates, s, CheckOne(t), s.(phase := next));
    }
  }

  lemma PlansGoOn(templates: Templates, s: State)
    requires s.phase.Planning?
    ensures CanGoOn(templates, s)
  {
    var p := s.phase;
    assert p.rest == {} ==>
      ControllerStep(templates, s, StartApply, s.(phase := Applying(p.ensured, p.listed, p.plan, p.plan.Keys)));
    forall t, rolePlan | t in p.rest && t in templates && KeysOf(templates[t], rolePlan)
      ensures CanDo(templates, s, PlanRole(t, rolePlan))
    {
      var rest, plan := p.rest - {t}, Merge(p.plan, rolePlan);
      var next :=
        if t !in s.objects then
          if rolePlan == map[] then Planning(rest, p.ensured, p.listed, p.plan)
          else Claiming(t, None, rest, p.ensured, p.listed, plan)
        else if s.objects[t].deleting || s.objects[t].finalizer then Planning(rest, p.ensured + {t}, p.listed, plan)
        else Claiming(t, Some(s.objects[t].version), rest, p.ensured, p.listed, plan);
      assert ControllerStep(templates, s, PlanRole(t, rolePlan), s.(phase := next));
    }
  }

  lemma ClaimGoesOn(templates: Templates, s: State)
    requires s.phase.Claiming?
    ensures CanGoOn(templates, s)
  {
    var t := s.phase.topology;
    var next := Planning(s.phase.rest, s.phase.ensured + {t}, s.phase.listed, s.phase.plan);
    var created := s.(phase := next, objects := s.objects[t := TopologyObject(false, true, s.clock)],
      clock := s.clock + 1);
    if t in s.objects {
      var patched := s.(phase := next, objects := s.objects[t := s.objects[t].(finalizer := true, version := s.clock)],
        clock := s.clock + 1);
      assert ControllerStep(templates, s, Claim, patched) || ControllerStep(templates, s, Claim, s.(phase := Idle));
    } else {
      assert ControllerStep(templates, s, Claim, created) || ControllerStep(templates, s, Claim, s.(phase := Idle));
    }
  }

  lemma ResetGoesOn(templates: Templates, s: State)
    requires s.phase.Resetting? || (s.phase.Stripping? && InHand(templates, s.phase))
    ensures CanGoOn(templates, s)
  {
    if s.phase.Resetting? {
      var next := Stripping(s.phase.topology, s.phase.seen, s.nodes, s.nodes.Keys);
      assert ControllerStep(templates, s, ListForReset, s.(phase := next));
    } else {
      var t := s.phase.topology;
      var gone := s.(phase := Idle, objects := s.objects - {t});
      var freed := s.(phase := Idle, objects := s.objects[t := TopologyObject(false, false, s.clock)],
        clock := s.clock + 1);
      if s.phase.todo == {} {
        assert Releases(s, s.(phase := Idle)) || Releases(s, gone) || Releases(s, freed);
        assert ControllerStep(templates, s, Release, s.(phase := Idle)) || ControllerStep(templates, s, Release, gone)
          || ControllerStep(templates, s, Release, freed);
      }
      forall n | n in s.phase.todo
        ensures CanDo(templates, s, Strip(n))
      {
        StripCanGoOn(templates, s, n);
      }
    }
  }

  lemma ApplyGoesOn(templates: Templates, s: State)
    requires s.phase.Applying? && InHand(templates, s.phase)
    ensures CanGoOn(templates, s)
  {
    assert s.phase.todo == {} ==> ControllerStep(templates, s, Finish, s.(phase := Idle));
    forall n | n in s.phase.todo
      ensures CanDo(templates, s, ApplyOne(n))
    {
      ApplyCanGoOn(templates, s, n);
    }
  }

  lemma {:induction false} RunKeepsInHand(templates: Templates, run: seq<State>, steps: seq<Step>, i: nat)
    requires IsRun(templates, run, steps) && i < |run|
    ensures InHand(templates, run[i].phase)
    decreases i
  {
    if i > 0 {
      RunKeepsInHand(templates, run, steps, i - 1);
      assert StepAt(templates, run, steps, i - 1);
      StepKeepsInHand(templates, run[i - 1], steps[i - 1], run[i]);
    }
  }

  /** In every state of every run the controller can go on, in any order of what is left. */
  lemma NoReconcileIsStuck(templates: Templates, run: seq<State>, steps: seq<Step>, i: nat)
    requires IsRun(templates, run, steps) && i < |run|
    ensures CanGoOn(templates, run[i])
  {
    RunKeepsInHand(templates, run, steps, i);
    match run[i].phase {
      case Idle => assert ControllerStep(templates, run[i], Start, run[i].(phase := Checking(templates.Keys)));
      case Checking(_) => ChecksGoOn(templates, run[i]);
      case Planning(_, _, _, _) => PlansGoOn(templates, run[i]);
      case Claiming(_, _, _, _, _, _) => ClaimGoesOn(templates, run[i]);
      case Applying(_, _, _, _) => ApplyGoesOn(templates, run[i]);
      case _ => ResetGoesOn(templates, run[i]);
    }
  }
}
