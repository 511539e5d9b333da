/** From the sampled events to the sinks: what one sink has queued, holds, inserted, failed to
    insert and dropped, with the open window, is the sampled total. */
module SinkTotals {
  import opened SendPipeline
  import opened Sinks

  ghost function PickRow(b: multiset<Row>): (r: Row)
    requires b != multiset{}
    ensures r in b
  {
    var r :| r in b;
    r
  }

  ghost function SumBag(m: Measure, b: multiset<Row>): int
    decreases |b|
  {
    if b == multiset{} then 0 else SumBag(m, b - multiset{PickRow(b)}) + Weight(m, PickRow(b))
  }

  /** The sum does not depend on the order in which rows are taken. */
  lemma {:induction false} BagPick(m: Measure, b: multiset<Row>, r: Row)
    requires r in b
    ensures SumBag(m, b) == SumBag(m, b - multiset{r}) + Weight(m, r)
    decreases |b|
  {
    var p := PickRow(b);
    if p != r {
      BagPick(m, b - multiset{p}, r);
      BagPick(m, b - multiset{r}, p);
      assert b - multiset{p} - multiset{r} == b - multiset{r} - multiset{p};
    }
  }

  lemma {:induction false} BagUnion(m: Measure, a: multiset<Row>, b: multiset<Row>)
    ensures SumBag(m, a + b) == SumBag(m, a) + SumBag(m, b)
    decreases |b|
  {
    if b == multiset{} {
      assert a + b == a;
    } else {
      var r := PickRow(b);
      BagUnion(m, a, b - multiset{r});
      assert a + b - multiset{r} == a + (b - multiset{r});
      BagPick(m, a + b, r);
    }
  }

  lemma {:induction false} BagOfRows(m: Measure, rows: seq<Row>)
    ensures SumBag(m, multiset(rows)) == SumRows(m, rows)
    decreases |rows|
  {
    if rows != [] {
      var n := |rows| - 1;
      BagOfRows(m, rows[..n]);
      assert rows == rows[..n] + [rows[n]];
      assert multiset(rows) - multiset{rows[n]} == multiset(rows[..n]);
      BagPick(m, multiset(rows), rows[n]);
    }
  }

  /** The rows that the consumer handed to the sink, in order. */
  ghost function Handed(steps: seq<Step>): seq<Row> {
    if steps == [] then []
    else Handed(steps[..|steps| - 1]) + if steps[|steps| - 1].Enqueue? then [steps[|steps| - 1].row] else []
  }

  lemma {:induction false} HandedIsOffered(steps: seq<Step>)
    ensures multiset(Handed(steps)) == Offered(steps)
    decreases |steps|
  {
    if steps != [] {
      HandedIsOffered(steps[..|steps| - 1]);
    }
  }

  /** What a sink accounts for, wherever its rows are. */
  ghost function Held(m: Measure, s: Sink): int {
    SumRows(m, s.queue) + SumRows(m, s.pending) + SumBag(m, s.inserted) + SumBag(m, s.failed) + SumBag(m, s.dropped)
  }

  lemma HeldIsOffered(m: Measure, s: Sink)
    requires Accounted(s)
    ensures Held(m, s) == SumBag(m, s.offered)
  {
    var q, p := multiset(s.queue), multiset(s.pending);
    BagOfRows(m, s.queue);
    BagOfRows(m, s.pending);
    BagUnion(m, q, p);
    BagUnion(m, q + p, s.inserted);
    BagUnion(m, q + p + s.inserted, s.failed);
    BagUnion(m, q + p + s.inserted + s.failed, s.dropped);
  }

  /** In every state of every run of a sink that was handed the rows of the pipeline, its
      queued, pending, inserted, failed and dropped rows, the open window, and 2^32
      submissions for every count that has started over, add up to the sampled events. */
  lemma SinkHoldsSampledTotal(m: Measure, c: Settings, run: seq<Sink>, steps: seq<Step>, i: nat,
                              offered: seq<Row>, window: Window, wraps: seq<Shape>, stored: seq<Event>)
    requires IsRun(c, run, steps) && i < |run| && Handed(steps[..i]) == offered
      && AllAccounted(offered, window, wraps, stored)
    ensures Held(m, run[i]) + SumWindow(m, window) + SumWraps(m, wraps) == SumEvents(m, stored)
  {
    assert Accounts(m, offered, window, wraps, stored);
    RunAccounts(c, run, steps, i);
    OfferedIsRecorded(c, run, steps, i);
    HandedIsOffered(steps[..i]);
    BagOfRows(m, offered);
    HeldIsOffered(m, run[i]);
  }

  /** After a close and the end of the flush loop every sampled submission was inserted, failed
      or dropped, when no count started over. */
  lemma NothingIsLeftBehind(c: Settings, run: seq<Sink>, steps: seq<Step>, i: nat, offered: seq<Row>,
                            stored: seq<Event>)
    requires IsRun(c, run, steps) && i < |run| && run[i].exited && Handed(steps[..i]) == offered
    requires AllAccounted(offered, map[], [], stored)
    ensures forall m {:trigger SumEvents(m, stored)} ::
      SumBag(m, run[i].inserted) + SumBag(m, run[i].failed) + SumBag(m, run[i].dropped) == SumEvents(m, stored)
  {
    RunAccounts(c, run, steps, i);
    forall m
      ensures SumBag(m, run[i].inserted) + SumBag(m, run[i].failed) + SumBag(m, run[i].dropped) == SumEvents(m, stored)
    {
      SinkHoldsSampledTotal(m, c, run, steps, i, offered, map[], [], stored);
    }
  }

  /** When the queue never overflows and every flush succeeds, all of it is inserted. */
  lemma SmoothSinkInsertsAll(c: Settings, run: seq<Sink>, steps: seq<Step>, i: nat, offered: seq<Row>,
                             stored: seq<Event>)
    requires IsRun(c, run, steps) && i < |run| && run[i].exited && Smooth(c, run, steps, i)
    requires Handed(steps[..i]) == offered && AllAccounted(offered, map[], [], stored)
    ensures run[i].inserted == multiset(offered)
    ensures forall m {:trigger SumEvents(m, stored)} :: SumBag(m, run[i].inserted) == SumEvents(m, stored)
  {
    SmoothRunDelivers(c, run, steps, i);
    HandedIsOffered(steps[..i]);
    forall m
      ensures SumBag(m, run[i].inserted) == SumEvents(m, stored)
    {
      assert Accounts(m, offered, map[], [], stored);
      BagOfRows(m, offered);
    }
  }
}
