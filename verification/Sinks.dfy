/** One sink of the send pipeline: a bounded queue between the consumer, which never blocks,
    and the flush loop, which batches, inserts and reconnects. */
module Sinks {
  import opened SendPipeline

  /** The worker's own state and which rows were offered to it, dropped, inserted, and lost
      in a failed insert. The source counts the last three. */
  datatype Sink = Sink(
    queue: seq<Row>, pending: seq<Row>, connected: bool, closed: bool, exited: bool,
    dropped: multiset<Row>, inserted: multiset<Row>, failed: multiset<Row>, offered: multiset<Row>)

  datatype Settings = Settings(capacity: nat, batch: nat)

  /** What a flush meets: no connection even after trying, a failed insert, or success. */
  datatype Outcome = Unreachable | InsertFails | InsertSucceeds

  datatype Step = Enqueue(row: Row) | Take(atTake: Outcome) | Tick(atTick: Outcome) | Close | Exit(atExit: Outcome)

  /** enqueue: the row is dropped when the queue is full. */
  function Enqueued(c: Settings, s: Sink, row: Row): Sink {
    if |s.queue| < c.capacity then s.(queue := s.queue + [row], offered := s.offered + multiset{row})
    else s.(dropped := s.dropped + multiset{row}, offered := s.offered + multiset{row})
  }

  /** flush. */
  function Flushed(s: Sink, outcome: Outcome): Sink {
    if s.pending == [] then s
    else
      match outcome
      case Unreachable => s.(connected := false, dropped := s.dropped + multiset(s.pending), pending := [])
      case InsertFails => s.(connected := false, failed := s.failed + multiset(s.pending), pending := [])
      case InsertSucceeds => s.(connected := true, inserted := s.inserted + multiset(s.pending), pending := [])
  }

  /** One row moves from the queue into the batch, which is flushed when it is full. */
  function Taken(c: Settings, s: Sink, outcome: Outcome): Sink
    requires s.queue != []
  {
    var next := s.(queue := s.queue[1..], pending := s.pending + [s.queue[0]]);
    if |next.pending| >= c.batch then Flushed(next, outcome) else next
  }

  /** A flush with a live connection cannot find the sink unreachable. */
  ghost predicate Possible(s: Sink, outcome: Outcome) {
    s.connected ==> !outcome.Unreachable?
  }

  /** The consumer enqueues until close; the flush loop leaves only when the queue is closed and empty. */
  ghost predicate Next(c: Settings, s: Sink, step: Step, s': Sink) {
    match step
    case Enqueue(row) => !s.closed && s' == Enqueued(c, s, row)
    case Take(o) => !s.exited && s.queue != [] && Possible(s, o) && s' == Taken(c, s, o)
    case Tick(o) => !s.exited && Possible(s, o) && s' == Flushed(s, o)
    case Close => !s.closed && s' == s.(closed := true)
    case Exit(o) => !s.exited && s.closed && s.queue == [] && Possible(s, o) && s' == Flushed(s, o).(exited := true)
  }

  ghost predicate Init(s: Sink) {
    && s.queue == [] && s.pending == [] && !s.closed && !s.exited
    && s.dropped == s.inserted == s.failed == s.offered == multiset{}
  }

  /** Every offered row is in exactly one place. */
  ghost predicate Accounted(s: Sink) {
    s.offered == multiset(s.queue) + multiset(s.pending) + s.inserted + s.failed + s.dropped
  }

  /** Queue and batch stay within their bounds and are empty after the flush loop has left. */
  ghost predicate Bounded(c: Settings, s: Sink) {
    && |s.queue| <= c.capacity && (|s.pending| < c.batch || s.pending == [])
    && (s.exited ==> s.closed && s.queue == [] && s.pending == [])
  }

  lemma EnqueueAccounts(c: Settings, s: Sink, row: Row)
    requires Accounted(s)
    ensures Accounted(Enqueued(c, s, row))
  {
  }

  lemma FlushAccountsRows(s: Sink, outcome: Outcome)
    requires Accounted(s)
    ensures Accounted(Flushed(s, outcome))
  {
  }

  lemma TakeAccounts(c: Settings, s: Sink, outcome: Outcome)
    requires Accounted(s) && s.queue != []
    ensures Accounted(Taken(c, s, outcome))
  {
    assert s.queue == [s.queue[0]] + s.queue[1..];
    var next := s.(queue := s.queue[1..], pending := s.pending + [s.queue[0]]);
    assert Accounted(next);
    FlushAccountsRows(next, outcome);
  }

  lemma StepAccounts(c: Settings, s: Sink, step: Step, s': Sink)
    requires Accounted(s) && Next(c, s, step, s')
    ensures Accounted(s')
  {
    match step {
      case Enqueue(row) => EnqueueAccounts(c, s, row);
      case Take(o) => TakeAccounts(c, s, o);
      case Tick(o) => FlushAccountsRows(s, o);
      case Close =>
      case Exit(o) => FlushAccountsRows(s, o);
    }
  }

  lemma StepKeepsBounds(c: Settings, s: Sink, step: Step, s': Sink)
    requires Bounded(c, s) && Next(c, s, step, s')
    ensures Bounded(c, s')
  {
  }

  ghost function OfferedBy(step: Step): multiset<Row> {
    if step.Enqueue? then multiset{step.row} else multiset{}
  }

  lemma StepOffers(c: Settings, s: Sink, step: Step, s': Sink)
    requires Next(c, s, step, s')
    ensures s'.offered == s.offered + OfferedBy(step)
  {
  }

  ghost predicate IsRun(c: Settings, run: seq<Sink>, steps: seq<Step>) {
    && |run| == |steps| + 1 && Init(run[0])
    && forall i {:trigger steps[i]} :: 0 <= i < |steps| ==> Next(c, run[i], steps[i], run[i + 1])
  }

  /** The rows that the consumer handed over in the first steps. */
  ghost function Offered(steps: seq<Step>): multiset<Row> {
    if steps == [] then multiset{} else Offered(steps[..|steps| - 1]) + OfferedBy(steps[|steps| - 1])
  }

  lemma {:induction false} OfferedIsRecorded(c: Settings, run: seq<Sink>, steps: seq<Step>, i: nat)
    requires IsRun(c, run, steps) && i < |run|
    ensures Offered(steps[..i]) == run[i].offered
    decreases i
  {
    if i > 0 {
      OfferedIsRecorded(c, run, steps, i - 1);
      var step := steps[i - 1];
      StepOffers(c, run[i - 1], step, run[i]);
      assert steps[..i][..i - 1] == steps[..i - 1];
    }
  }

  lemma {:induction false} RunAccounts(c: Settings, run: seq<Sink>, steps: seq<Step>, i: nat)
    requires IsRun(c, run, steps) && i < |run|
    ensures Accounted(run[i]) && Bounded(c, run[i])
    decreases i
  {
    if i > 0 {
      RunAccounts(c, run, steps, i - 1);
      var step := steps[i - 1];
      StepAccounts(c, run[i - 1], step, run[i]);
      StepKeepsBounds(c, run[i - 1], step, run[i]);
    }
  }

  /** In every state of every run each offered row is queued, pending, inserted, failed or
      dropped, so the counters add up; and nothing is queued or pending once the flush loop has left. */
  lemma EveryRowIsAccountedFor(c: Settings, run: seq<Sink>, steps: seq<Step>, i: nat)
    requires IsRun(c, run, steps) && i < |run|
    ensures Offered(steps[..i]) ==
      multiset(run[i].queue) + multiset(run[i].pending) + run[i].inserted + run[i].failed + run[i].dropped
    ensures |Offered(steps[..i])| ==
      |run[i].queue| + |run[i].pending| + |run[i].inserted| + |run[i].failed| + |run[i].dropped|
    ensures run[i].exited ==> run[i].queue == [] && run[i].pending == []
  {
    OfferedIsRecorded(c, run, steps, i);
    RunAccounts(c, run, steps, i);
  }

  // -------------------------------------------------------- where rows go, from the steps

  /** The rows that a step flushes, in order: a batch that has become full, or what is pending. */
  ghost function Batch(c: Settings, s: Sink, step: Step): seq<Row> {
    match step
    case Take(_) => if s.queue != [] && |s.pending| + 1 >= c.batch then s.pending + [s.queue[0]] else []
    case Tick(_) => s.pending
    case Exit(_) => s.pending
    case Enqueue(_) => []
    case Close => []
  }

  /** What the flush of a step meets. */
  ghost predicate Meets(step: Step, outcome: Outcome) {
    match step
    case Take(o) => o == outcome
    case Tick(o) => o == outcome
    case Exit(o) => o == outcome
    case Enqueue(_) => false
    case Close => false
  }

  /** The row arrives while the queue holds as many rows as it can. */
  ghost predicate Overflows(c: Settings, s: Sink, step: Step) {
    step.Enqueue? && |s.queue| == c.capacity
  }

  ghost function RefusedBy(c: Settings, s: Sink, step: Step): multiset<Row> {
    if Overflows(c, s, step) then multiset{step.row} else multiset{}
  }

  ghost function FlushedBy(c: Settings, s: Sink, step: Step, outcome: Outcome): multiset<Row> {
    if Meets(step, outcome) then multiset(Batch(c, s, step)) else multiset{}
  }

  ghost function AdmittedBy(c: Settings, s: Sink, step: Step): seq<Row> {
    if step.Enqueue? && !Overflows(c, s, step) then [step.row] else []
  }

  /** The rows enqueued in the first `i` steps while the queue was full. */
  ghost function Refused(c: Settings, run: seq<Sink>, steps: seq<Step>, i: nat): multiset<Row>
    requires i <= |steps| && |run| == |steps| + 1
  {
    if i == 0 then multiset{}
    else
      Refused(c, run, steps, i - 1) + RefusedBy(c, run[i - 1], steps[i - 1])
  }

  /** The rows enqueued in the first `i` steps while there was room, in order. */
  ghost function Admitted(c: Settings, run: seq<Sink>, steps: seq<Step>, i: nat): seq<Row>
    requires i <= |steps| && |run| == |steps| + 1
  {
    if i == 0 then []
    else
      Admitted(c, run, steps, i - 1) + AdmittedBy(c, run[i - 1], steps[i - 1])
  }

  /** The rows of all flushes in the first `i` steps, in order. */
  ghost function AllFlushed(c: Settings, run: seq<Sink>, steps: seq<Step>, i: nat): seq<Row>
    requires i <= |steps| && |run| == |steps| + 1
  {
    if i == 0 then [] else AllFlushed(c, run, steps, i - 1) + Batch(c, run[i - 1], steps[i - 1])
  }

  /** The rows of the flushes in the first `i` steps that met this outcome. */
  ghost function FlushedWith(c: Settings, run: seq<Sink>, steps: seq<Step>, i: nat, outcome: Outcome): multiset<Row>
    requires i <= |steps| && |run| == |steps| + 1
  {
    if i == 0 then multiset{}
    else
      FlushedWith(c, run, steps, i - 1, outcome) + FlushedBy(c, run[i - 1], steps[i - 1], outcome)
  }

  /** One step moves exactly the rows it should. */
  ghost predicate StepMoved(c: Settings, s: Sink, step: Step, s': Sink) {
    && s'.inserted == s.inserted + FlushedBy(c, s, step, InsertSucceeds)
    && s'.failed == s.failed + FlushedBy(c, s, step, InsertFails)
    && s'.dropped == s.dropped + (RefusedBy(c, s, step) + FlushedBy(c, s, step, Unreachable))
  }

  lemma EnqueueMoves(c: Settings, s: Sink, row: Row)
    requires |s.queue| <= c.capacity
    ensures StepMoved(c, s, Enqueue(row), Enqueued(c, s, row))
  {
    var step := Enqueue(row);
    assert forall o :: FlushedBy(c, s, step, o) == multiset{};
  }

  lemma FlushMoves(c: Settings, s: Sink, step: Step, outcome: Outcome)
    requires step == Tick(outcome) || step == Exit(outcome)
    ensures StepMoved(c, s, step, Flushed(s, outcome))
  {
    var flushed := multiset(s.pending);
    assert RefusedBy(c, s, step) == multiset{};
    assert FlushedBy(c, s, step, InsertSucceeds) == if outcome.InsertSucceeds? then flushed else multiset{};
    assert FlushedBy(c, s, step, InsertFails) == if outcome.InsertFails? then flushed else multiset{};
    assert FlushedBy(c, s, step, Unreachable) == if outcome.Unreachable? then flushed else multiset{};
  }

  /** A step that flushes what another one does, from the same books, moves the same rows. */
  lemma SameMoves(c: Settings, s: Sink, step: Step, t: Sink, other: Step, s': Sink)
    requires StepMoved(c, t, other, s') && t.inserted == s.inserted && t.failed == s.failed && t.dropped == s.dropped
    requires RefusedBy(c, s, step) == RefusedBy(c, t, other) && Batch(c, s, step) == Batch(c, t, other)
    requires forall o :: Meets(step, o) <==> Meets(other, o)
    ensures StepMoved(c, s, step, s')
  {
    assert FlushedBy(c, s, step, InsertSucceeds) == FlushedBy(c, t, other, InsertSucceeds);
    assert FlushedBy(c, s, step, InsertFails) == FlushedBy(c, t, other, InsertFails);
    assert FlushedBy(c, s, step, Unreachable) == FlushedBy(c, t, other, Unreachable);
  }

  lemma NothingMoves(c: Settings, s: Sink, step: Step, s': Sink)
    requires !step.Enqueue? && Batch(c, s, step) == []
    requires s'.inserted == s.inserted && s'.failed == s.failed && s'.dropped == s.dropped
    ensures StepMoved(c, s, step, s')
  {
    assert forall o :: FlushedBy(c, s, step, o) == multiset{};
  }

  lemma TakeMoves(c: Settings, s: Sink, outcome: Outcome)
    requires s.queue != []
    ensures StepMoved(c, s, Take(outcome), Taken(c, s, outcome))
  {
    var next := s.(queue := s.queue[1..], pending := s.pending + [s.queue[0]]);
    if |next.pending| >= c.batch {
      FlushMoves(c, next, Tick(outcome), outcome);
      SameMoves(c, s, Take(outcome), next, Tick(outcome), Taken(c, s, outcome));
    } else {
      NothingMoves(c, s, Take(outcome), next);
    }
  }

  lemma StepMoves(c: Settings, s: Sink, step: Step, s': Sink)
    requires Bounded(c, s) && Next(c, s, step, s')
    ensures StepMoved(c, s, step, s')
  {
    match step {
      case Enqueue(row) => EnqueueMoves(c, s, row);
      case Take(o) => TakeMoves(c, s, o);
      case Tick(o) => FlushMoves(c, s, step, o);
      case Close =>
      case Exit(o) => FlushMoves(c, s, step, o);
    }
  }

  lemma TakeKeepsOrder(c: Settings, s: Sink, outcome: Outcome)
    requires s.queue != []
    ensures var s' := Taken(c, s, outcome);
      s.pending + s.queue == Batch(c, s, Take(outcome)) + s'.pending + s'.queue
  {
    assert s.queue == [s.queue[0]] + s.queue[1..];
    assert s.pending + s.queue == s.pending + [s.queue[0]] + s.queue[1..];
  }

  lemma EnqueueKeepsOrder(c: Settings, s: Sink, row: Row)
    requires |s.queue| <= c.capacity
    ensures var s' := Enqueued(c, s, row);
      s.pending + s.queue + AdmittedBy(c, s, Enqueue(row)) == s'.pending + s'.queue
  {
    assert s.pending + s.queue + [row] == s.pending + (s.queue + [row]);
  }

  lemma FlushKeepsOrder(s: Sink, outcome: Outcome)
    ensures s.pending + s.queue == s.pending + Flushed(s, outcome).pending + Flushed(s, outcome).queue
  {
  }

  lemma StepKeepsOrder(c: Settings, s: Sink, step: Step, s': Sink)
    requires Bounded(c, s) && Next(c, s, step, s')
    ensures s.pending + s.queue + AdmittedBy(c, s, step) == Batch(c, s, step) + s'.pending + s'.queue
  {
    match step {
      case Enqueue(row) => EnqueueKeepsOrder(c, s, row);
      case Take(o) => TakeKeepsOrder(c, s, o);
      case Tick(o) => FlushKeepsOrder(s, o);
      case Close =>
      case Exit(o) => FlushKeepsOrder(s, o);
    }
    assert AdmittedBy(c, s, step) == [] || Batch(c, s, step) == [];
  }

  lemma Regroup<T>(a: seq<T>, p: seq<T>, q: seq<T>, r: seq<T>, b: seq<T>, p': seq<T>, q': seq<T>)
    requires p + q + r == b + p' + q'
    ensures a + p + q + r == a + b + p' + q'
  {
    assert a + p + q + r == a + (p + q + r);
    assert a + b + p' + q' == a + (b + p' + q');
  }

  /** In every state of every run the admitted rows leave in the order in which they came. */
  lemma {:induction false} RowsKeepTheirOrder(c: Settings, run: seq<Sink>, steps: seq<Step>, i: nat)
    requires IsRun(c, run, steps) && i < |run|
    ensures Admitted(c, run, steps, i) == AllFlushed(c, run, steps, i) + run[i].pending + run[i].queue
    decreases i
  {
    if i > 0 {
      RowsKeepTheirOrder(c, run, steps, i - 1);
      RunAccounts(c, run, steps, i - 1);
      var s, step, s' := run[i - 1], steps[i - 1], run[i];
      StepKeepsOrder(c, s, step, s');
      Regroup(AllFlushed(c, run, steps, i - 1), s.pending, s.queue, AdmittedBy(c, s, step), Batch(c, s, step),
        s'.pending,
        s'.queue);
    }
  }

  lemma Reorder<T>(a: multiset<T>, b: multiset<T>, x: multiset<T>, y: multiset<T>)
    ensures a + b + (x + y) == (a + x) + (b + y)
  {
  }

  /** Dropped are exactly the rows that met a full queue and those of flushes without a
      connection, inserted and failed exactly those of the flushes that succeeded and failed. */
  ghost predicate RowsAreLogged(c: Settings, run: seq<Sink>, steps: seq<Step>, i: nat)
    requires i <= |steps| && |run| == |steps| + 1
  {
    && run[i].dropped == Refused(c, run, steps, i) + FlushedWith(c, run, steps, i, Unreachable)
    && run[i].inserted == FlushedWith(c, run, steps, i, InsertSucceeds)
    && run[i].failed == FlushedWith(c, run, steps, i, InsertFails)
  }

  lemma LogsGrow(c: Settings, run: seq<Sink>, steps: seq<Step>, i: nat)
    requires 0 < i <= |steps| && |run| == |steps| + 1 && RowsAreLogged(c, run, steps, i - 1)
    requires StepMoved(c, run[i - 1], steps[i - 1], run[i])
    ensures RowsAreLogged(c, run, steps, i)
  {
    var s, step := run[i - 1], steps[i - 1];
    Reorder(Refused(c, run, steps, i - 1), FlushedWith(c, run, steps, i - 1, Unreachable), RefusedBy(c, s, step),
      FlushedBy(c, s, step, Unreachable));
  }

  /** In every state of every run rows are where the steps say. */
  lemma {:induction false} RowsGoWhereStepsSay(c: Settings, run: seq<Sink>, steps: seq<Step>, i: nat)
    requires IsRun(c, run, steps) && i < |run|
    ensures RowsAreLogged(c, run, steps, i)
    decreases i
  {
    if i > 0 {
      RowsGoWhereStepsSay(c, run, steps, i - 1);
      RunAccounts(c, run, steps, i - 1);
      var step := steps[i - 1];
      StepMoves(c, run[i - 1], step, run[i]);
      LogsGrow(c, run, steps, i);
    }
  }

  /** The queue is never full when a row comes, and every flush of rows succeeds. */
  ghost predicate Smooth(c: Settings, run: seq<Sink>, steps: seq<Step>, i: nat)
    requires i <= |steps| && |run| == |steps| + 1
  {
    forall k {:trigger steps[k]} :: 0 <= k < i ==>
      !Overflows(c, run[k], steps[k]) && (Batch(c, run[k], steps[k]) != [] ==> Meets(steps[k], InsertSucceeds))
  }

  lemma SmoothStepLosesNothing(c: Settings, s: Sink, step: Step)
    requires !Overflows(c, s, step) && (Batch(c, s, step) != [] ==> Meets(step, InsertSucceeds))
    ensures RefusedBy(c, s, step) == FlushedBy(c, s, step, Unreachable) == FlushedBy(c, s, step, InsertFails) ==
      multiset{}
  {
  }

  lemma {:induction false} SmoothLosesNothing(c: Settings, run: seq<Sink>, steps: seq<Step>, i: nat)
    requires i <= |steps| && |run| == |steps| + 1 && Smooth(c, run, steps, i)
    ensures Refused(c, run, steps, i) == multiset{}
    ensures FlushedWith(c, run, steps, i, Unreachable) == FlushedWith(c, run, steps, i, InsertFails) == multiset{}
    decreases i
  {
    if i > 0 {
      SmoothLosesNothing(c, run, steps, i - 1);
      var step := steps[i - 1];
      SmoothStepLosesNothing(c, run[i - 1], step);
    }
  }

  /** Then, once the flush loop has left, everything that was handed over is inserted. */
  lemma SmoothRunDelivers(c: Settings, run: seq<Sink>, steps: seq<Step>, i: nat)
    requires IsRun(c, run, steps) && i < |run| && Smooth(c, run, steps, i) && run[i].exited
    ensures run[i].inserted == Offered(steps[..i]) && run[i].failed == run[i].dropped == multiset{}
  {
    RowsGoWhereStepsSay(c, run, steps, i);
    SmoothLosesNothing(c, run, steps, i);
    EveryRowIsAccountedFor(c, run, steps, i);
  }

  /** The flush of this step moves rows and meets this outcome. */
  ghost predicate FlushAt(c: Settings, run: seq<Sink>, steps: seq<Step>, k: int, outcome: Outcome)
    requires |run| == |steps| + 1
  {
    0 <= k < |steps| && Batch(c, run[k], steps[k]) != [] && Meets(steps[k], outcome)
  }

  /** After a flush that succeeded the sink stays connected until one fails. */
  lemma {:induction false} StaysConnected(c: Settings, run: seq<Sink>, steps: seq<Step>, k: nat, i: nat)
    requires IsRun(c, run, steps) && k < i < |run| && FlushAt(c, run, steps, k, InsertSucceeds)
    requires forall j {:trigger FlushAt(c, run, steps, j, InsertFails)} :: k < j < i ==>
      !FlushAt(c, run, steps, j, InsertFails)
    ensures run[i].connected
    decreases i
  {
    RunAccounts(c, run, steps, i - 1);
    var step := steps[i - 1];
    if k < i - 1 {
      StaysConnected(c, run, steps, k, i - 1);
      assert !FlushAt(c, run, steps, i - 1, InsertFails);
    }
    StepConnects(c, run[i - 1], step, run[i]);
  }

  lemma StepConnects(c: Settings, s: Sink, step: Step, s': Sink)
    requires Bounded(c, s) && Next(c, s, step, s')
    ensures Batch(c, s, step) != [] ==> (s'.connected <==> Meets(step, InsertSucceeds))
    ensures Batch(c, s, step) == [] ==> s'.connected == s.connected
  {
  }

  lemma ConnectedIsReachable(c: Settings, s: Sink, step: Step, s': Sink)
    requires Next(c, s, step, s') && s.connected
    ensures !Meets(step, Unreachable)
  {
  }

  /** Between a flush that succeeded and one that finds no connection, one has failed. */
  lemma LosingTheSinkTakesAFailure(c: Settings, run: seq<Sink>, steps: seq<Step>, k: nat, i: nat)
    requires IsRun(c, run, steps) && k < i < |steps|
    requires FlushAt(c, run, steps, k, InsertSucceeds) && FlushAt(c, run, steps, i, Unreachable)
    ensures exists j :: k < j < i && FlushAt(c, run, steps, j, InsertFails)
  {
    if !(exists j :: k < j < i && FlushAt(c, run, steps, j, InsertFails)) {
      StaysConnected(c, run, steps, k, i);
      var step := steps[i];
      ConnectedIsReachable(c, run[i], step, run[i + 1]);
    }
  }

  /** Some step of the first `i` closes the queue, or ends the flush loop. */
  ghost predicate HasClosed(steps: seq<Step>, i: nat) {
    exists k :: 0 <= k < i && k < |steps| && steps[k].Close?
  }

  ghost predicate HasLeft(steps: seq<Step>, i: nat) {
    exists k :: 0 <= k < i && k < |steps| && steps[k].Exit?
  }

  /** The queue is closed once it was closed, and the loop has left once it left; after a close
      nothing is enqueued any more. */
  lemma {:induction false} ClosedAndLeft(c: Settings, run: seq<Sink>, steps: seq<Step>, i: nat)
    requires IsRun(c, run, steps) && i < |run|
    ensures run[i].closed <==> HasClosed(steps, i)
    ensures run[i].exited <==> HasLeft(steps, i)
    ensures HasClosed(steps, i) && i < |steps| ==> !steps[i].Enqueue?
    decreases i
  {
    if i < |steps| && run[i].closed {
      var next := steps[i];
      EnqueuesOnlyWhenOpen(c, run[i], next, run[i + 1]);
    }
    if i > 0 {
      ClosedAndLeft(c, run, steps, i - 1);
      var step := steps[i - 1];
      StepCloses(c, run[i - 1], step, run[i]);
      if HasClosed(steps, i) && !step.Close? {
        var k :| 0 <= k < i && k < |steps| && steps[k].Close?;
        assert HasClosed(steps, i - 1);
      }
      if HasLeft(steps, i) && !step.Exit? {
        var k :| 0 <= k < i && k < |steps| && steps[k].Exit?;
        assert HasLeft(steps, i - 1);
      }
    }
  }

  lemma EnqueuesOnlyWhenOpen(c: Settings, s: Sink, step: Step, s': Sink)
    requires Next(c, s, step, s') && s.closed
    ensures !step.Enqueue?
  {
  }

  lemma StepCloses(c: Settings, s: Sink, step: Step, s': Sink)
    requires Next(c, s, step, s')
    ensures s'.closed <==> s.closed || step.Close?
    ensures s'.exited <==> s.exited || step.Exit?
  {
  }

  ghost predicate CanDo(c: Settings, s: Sink, step: Step) {
    exists s' :: Next(c, s, step, s')
  }

  /** The consumer is never blocked; the flush loop can always take a row, flush, and leave when
      the queue is closed and empty, and meet any outcome but a lost connection while it has one. */
  lemma NobodyIsBlocked(c: Settings, s: Sink, row: Row, outcome: Outcome)
    requires !(s.connected && outcome.Unreachable?)
    ensures !s.closed ==> CanDo(c, s, Enqueue(row)) && CanDo(c, s, Close)
    ensures !s.exited ==> CanDo(c, s, Tick(outcome))
    ensures !s.exited && s.queue != [] ==> CanDo(c, s, Take(outcome))
    ensures !s.exited && s.closed && s.queue == [] ==> CanDo(c, s, Exit(outcome))
  {
    if !s.closed {
      assert Next(c, s, Enqueue(row), Enqueued(c, s, row)) && Next(c, s, Close, s.(closed := true));
    }
    if !s.exited {
      assert Next(c, s, Tick(outcome), Flushed(s, outcome));
      if s.queue != [] {
        assert Next(c, s, Take(outcome), Taken(c, s, outcome));
      } else if s.closed {
        assert Next(c, s, Exit(outcome), Flushed(s, outcome).(exited := true));
      }
    }
  }
}
