/** The send pipeline: sampling, aggregation windows, and the fan-out of rows to sinks. */
module SendPipeline {
  import opened Wrappers
  import opened MapSums

  const MAX_UINT32: int := 4294967295

  datatype Event = Event(ts: nat, tgid: int, qpn: int, kind: int, bytes: nat, wrs: int)

  /** What identifies submissions that collapse into one row. */
  datatype Shape = Shape(tgid: int, qpn: int, kind: int, bytes: nat, wrs: int)

  /** A stored row; `flow` stands for the Pods and devices it is attributed to. */
  datatype Row = Row(ts: int, shape: Shape, count: nat, flow: string)

  function ShapeOf(e: Event): Shape {
    Shape(e.tgid, e.qpn, e.kind, e.bytes, e.wrs)
  }

  type Window = map<Shape, Row>

  // ------------------------------------------------------------------------- sums

  /** What a row weighs: its submissions, or their bytes. */
  datatype Measure = Submissions | Bytes

  ghost function Weight(m: Measure, r: Row): int {
    match m
    case Submissions => r.count
    case Bytes => r.count * r.shape.bytes
  }

  ghost function EventWeight(m: Measure, e: Event): int {
    match m
    case Submissions => 1
    case Bytes => e.bytes
  }

  ghost function SumRows(m: Measure, rows: seq<Row>): int {
    if rows == [] then 0 else SumRows(m, rows[..|rows| - 1]) + Weight(m, rows[|rows| - 1])
  }

  ghost function SumEvents(m: Measure, events: seq<Event>): int {
    if events == [] then 0 else SumEvents(m, events[..|events| - 1]) + EventWeight(m, events[|events| - 1])
  }

  ghost function RowWeight(m: Measure): Row -> int {
    (r: Row) => Weight(m, r)
  }

  ghost function SumWindow(m: Measure, w: Window): int {
    SumMap(RowWeight(m), w)
  }

  /** What is missing from a row of this shape once its 32-bit count has started over. */
  ghost function WrapWeight(m: Measure, k: Shape): int {
    match m
    case Submissions => MAX_UINT32 + 1
    case Bytes => (MAX_UINT32 + 1) * k.bytes
  }

  ghost function SumWraps(m: Measure, wraps: seq<Shape>): int {
    if wraps == [] then 0 else SumWraps(m, wraps[..|wraps| - 1]) + WrapWeight(m, wraps[|wraps| - 1])
  }

  lemma SumAppend(m: Measure, rows: seq<Row>, r: Row)
    ensures SumRows(m, rows + [r]) == SumRows(m, rows) + Weight(m, r)
  {
    assert (rows + [r])[..|rows|] == rows;
  }

  lemma EventsAppend(m: Measure, events: seq<Event>, e: Event)
    ensures SumEvents(m, events + [e]) == SumEvents(m, events) + EventWeight(m, e)
  {
    assert (events + [e])[..|events|] == events;
  }

  lemma WrapsAppend(m: Measure, wraps: seq<Shape>, k: Shape)
    ensures SumWraps(m, wraps + [k]) == SumWraps(m, wraps) + WrapWeight(m, k)
  {
    assert (wraps + [k])[..|wraps|] == wraps;
  }

  lemma {:induction false} WrapCount(wraps: seq<Shape>)
    ensures SumWraps(Submissions, wraps) == (MAX_UINT32 + 1) * |wraps|
    decreases |wraps|
  {
    if wraps != [] {
      WrapCount(wraps[..|wraps| - 1]);
    }
  }

  lemma {:induction false} WrapBytes(wraps: seq<Shape>)
    ensures SumWraps(Bytes, wraps) >= 0
    ensures SumWraps(Bytes, wraps) == 0 <==> forall i :: 0 <= i < |wraps| ==> wraps[i].bytes == 0
    decreases |wraps|
  {
    if wraps != [] {
      var before := wraps[..|wraps| - 1];
      WrapBytes(before);
      assert forall i :: 0 <= i < |before| ==> before[i] == wraps[i];
    }
  }

  // --------------------------------------------------------------------- the consumer

  /** Rows handed out, rows in the open window, and 2^32 submissions for every count that has
      started over, account for every stored event. */
  ghost predicate Accounts(m: Measure, offered: seq<Row>, window: Window, wraps: seq<Shape>, stored: seq<Event>) {
    SumRows(m, offered) + SumWindow(m, window) + SumWraps(m, wraps) == SumEvents(m, stored)
  }

  ghost predicate AllAccounted(offered: seq<Row>, window: Window, wraps: seq<Shape>, stored: seq<Event>) {
    forall m {:trigger Accounts(m, offered, window, wraps, stored)} :: Accounts(m, offered, window, wraps, stored)
  }

  /** The totals are the sampled totals. */
  ghost predicate Exact(m: Measure, offered: seq<Row>, window: Window, stored: seq<Event>) {
    SumRows(m, offered) + SumWindow(m, window) == SumEvents(m, stored)
  }

  /** Submissions are exact if and only if no count ever started over, bytes if and only if
      that happened to empty submissions only. */
  lemma ExactUnlessWrapped(offered: seq<Row>, window: Window, wraps: seq<Shape>, stored: seq<Event>)
    requires AllAccounted(offered, window, wraps, stored)
    ensures Exact(Submissions, offered, window, stored) <==> wraps == []
    ensures Exact(Bytes, offered, window, stored) <==> forall i :: 0 <= i < |wraps| ==> wraps[i].bytes == 0
  {
    assert Accounts(Submissions, offered, window, wraps, stored) && Accounts(Bytes, offered, window, wraps, stored);
    WrapCount(wraps);
    WrapBytes(wraps);
  }

  /** It takes more than 2^32 - 1 events for a count to start over. */
  lemma FewEventsDoNotWrap(offered: seq<Row>, window: Window, wraps: seq<Shape>, stored: seq<Event>)
    requires AllAccounted(offered, window, wraps, stored) && |stored| <= MAX_UINT32
    ensures wraps == []
  {
    assert Accounts(Submissions, offered, window, wraps, stored);
    WrapCount(wraps);
    WindowIsPositive(window);
    RowsArePositive(offered);
    StoredCount(stored);
  }

  lemma {:induction false} WindowIsPositive(w: Window)
    ensures SumWindow(Submissions, w) >= 0
    decreases |w|
  {
    if w != map[] {
      WindowIsPositive(w - {Pick(w)});
    }
  }

  lemma {:induction false} RowsArePositive(rows: seq<Row>)
    ensures SumRows(Submissions, rows) >= 0
    decreases |rows|
  {
    if rows != [] {
      RowsArePositive(rows[..|rows| - 1]);
    }
  }

  lemma FlushAccounts(offered: seq<Row>, window: Window, offered': seq<Row>, window': Window, wraps: seq<Shape>,
                      stored: seq<Event>)
    requires AllAccounted(offered, window, wraps, stored)
    requires (offered' == offered && window' == window) ||
      (window' == map[] && forall m {:trigger SumRows(m, offered')} ::
        SumRows(m, offered') == SumRows(m, offered) + SumWindow(m, window))
    ensures AllAccounted(offered', window', wraps, stored)
  {
    forall m
      ensures Accounts(m, offered', window', wraps, stored)
    {
      assert Accounts(m, offered, window, wraps, stored);
    }
  }

  /** The row of this shape is full: one more submission starts its count over. */
  predicate Full(window: Window, k: Shape) {
    k in window && window[k].count == MAX_UINT32
  }

  /** Counting an event in its row of the window accounts for it. */
  lemma EventCounted(offered: seq<Row>, window: Window, wraps: seq<Shape>, stored: seq<Event>, start: int, e: Event,
                     flow: string)
    requires AllAccounted(offered, window, wraps, stored) && Keyed(window)
    ensures var k := ShapeOf(e);
      AllAccounted(offered, window[k := Counted(window, start, e, flow)], if Full(window, k) then wraps + [k]
        else wraps, stored + [e])
  {
    var k := ShapeOf(e);
    var row := Counted(window, start, e, flow);
    var after, more := window[k := row], stored + [e];
    var wraps' := if Full(window, k) then wraps + [k] else wraps;
    forall m
      ensures Accounts(m, offered, after, wraps', more)
    {
      assert Accounts(m, offered, window, wraps, stored);
      SumUpdate(RowWeight(m), window, k, row);
      EventsAppend(m, stored, e);
      WrapsAppend(m, wraps, k);
      CountedWeight(m, window, start, e, flow);
    }
  }

  /** The row weighs one event more, less what it loses when it starts over. */
  lemma CountedWeight(m: Measure, window: Window, start: int, e: Event, flow: string)
    requires Keyed(window)
    ensures var k := ShapeOf(e);
      Weight(m, Counted(window, start, e, flow)) + (if Full(window, k) then WrapWeight(m, k) else 0) ==
      WeightAt(RowWeight(m), window, k) + EventWeight(m, e)
  {
    var k := ShapeOf(e);
    var row := if k in window then window[k] else Row(start, k, 0, flow);
    if m.Bytes? {
      assert (row.count + 1) * e.bytes == row.count * e.bytes + e.bytes;
    }
  }

  lemma RowOffered(offered: seq<Row>, window: Window, wraps: seq<Shape>, stored: seq<Event>, e: Event, row: Row)
    requires AllAccounted(offered, window, wraps, stored) && row.shape == ShapeOf(e) && row.count == 1
    ensures AllAccounted(offered + [row], window, wraps, stored + [e])
  {
    forall m
      ensures Accounts(m, offered + [row], window, wraps, stored + [e])
    {
      assert Accounts(m, offered, window, wraps, stored);
      SumAppend(m, offered, row);
      EventsAppend(m, stored, e);
    }
  }

  lemma TimesAtLeast(x: nat, d: nat)
    requires x >= 1
    ensures x * d >= d
  {
    assert x * d == (x - 1) * d + d;
  }

  lemma QuotientNotLess(d: nat, q: nat, r: nat, p: nat, t: nat)
    requires r < d && t < d && q * d + r == p * d + t
    ensures q >= p
  {
    if q < p {
      var x := p - q;
      assert (q + x) * d == q * d + x * d;
      TimesAtLeast(x, d);
    }
  }

  /** Quotient and remainder are determined. */
  lemma DivisionIs(n: nat, d: nat, q: nat, r: nat)
    requires d >= 1 && r < d && n == q * d + r
    ensures n / d == q && n % d == r
  {
    var p, t := n / d, n % d;
    assert n == p * d + t;
    QuotientNotLess(d, q, r, p, t);
    QuotientNotLess(d, p, t, q, r);
  }

  /** Counting every d-th of n + 1 events. */
  lemma NextQuotient(n: nat, d: nat)
    requires d >= 1
    ensures (n + 1) / d == n / d + if (n + 1) % d == 0 then 1 else 0
  {
    var q, r := n / d, n % d;
    assert n == q * d + r;
    if r + 1 < d {
      DivisionIs(n + 1, d, q, r + 1);
    } else {
      assert (q + 1) * d == q * d + d;
      DivisionIs(n + 1, d, q + 1, 0);
    }
  }

  /** Rows lie under their shape, with a 32-bit count. */
  ghost predicate Keyed(window: Window) {
    forall k {:trigger window[k]} :: k in window ==> window[k].shape == k && window[k].count <= MAX_UINT32
  }

  /** row.count++ on a uint32. */
  function Increment32(x: nat): nat {
    if x >= MAX_UINT32 then 0 else x + 1
  }

  /** The row of an event's shape in the window that starts at `start`, with one more submission. */
  function Counted(window: Window, start: int, e: Event, flow: string): Row {
    var row := if ShapeOf(e) in window then window[ShapeOf(e)] else Row(start, ShapeOf(e), 0, flow);
    row.(count := Increment32(row.count))
  }

  /** Counting a submission is exact unless the row's 32-bit count is full, when it restarts at zero. */
  lemma CountIsExactUnlessFull(window: Window, start: int, e: Event, flow: string)
    requires Keyed(window)
    ensures var after := window[ShapeOf(e) := Counted(window, start, e, flow)];
      SumWindow(Submissions, after) == SumWindow(Submissions, window) + 1 <==> !Full(window, ShapeOf(e))
  {
    SumUpdate(RowWeight(Submissions), window, ShapeOf(e), Counted(window, start, e, flow));
  }

  lemma {:induction false} StoredCount(stored: seq<Event>)
    ensures SumEvents(Submissions, stored) == |stored|
    decreases |stored|
  {
    if stored != [] {
      StoredCount(stored[..|stored| - 1]);
    }
  }

  // ------------------------------------------------------------------- what rows count

  /** The event has these five properties. */
  ghost predicate LooksLike(e: Event, k: Shape) {
    e.tgid == k.tgid && e.qpn == k.qpn && e.kind == k.kind && e.bytes == k.bytes && e.wrs == k.wrs
  }

  ghost function RowOfOne(e: Event, flow: string): Row {
    Row(e.ts, Shape(e.tgid, e.qpn, e.kind, e.bytes, e.wrs), 1, flow)
  }

  ghost function Matching(events: seq<Event>, k: Shape): set<int> {
    set i | 0 <= i < |events| && LooksLike(events[i], k)
  }

  lemma OneMoreMatching(events: seq<Event>, e: Event, k: Shape)
    ensures |Matching(events + [e], k)| == |Matching(events, k)| + if LooksLike(e, k) then 1 else 0
  {
    var more := events + [e];
    if LooksLike(e, k) {
      assert Matching(more, k) == Matching(events, k) + {|events|};
    } else {
      assert Matching(more, k) == Matching(events, k);
    }
  }

  /** The window has one row for every kind of event in it, with the number of such events as far
      as 32 bits hold it, under the time at which the window starts. */
  ghost predicate Tallies(events: seq<Event>, window: Window, start: int) {
    && (forall k {:trigger k in window} :: k in window <==> Matching(events, k) != {})
    && (forall k {:trigger window[k]} :: k in window ==>
          window[k].ts == start && window[k].shape == k && window[k].count == |Matching(events, k)| % (MAX_UINT32 + 1))
  }

  lemma NextCount(n: nat, count: nat)
    requires count == n % (MAX_UINT32 + 1)
    ensures Increment32(count) == (n + 1) % (MAX_UINT32 + 1)
  {
  }

  lemma OnlyItsShape(e: Event, k: Shape)
    ensures LooksLike(e, k) <==> k == ShapeOf(e)
  {
  }

  lemma TallyOne(events: seq<Event>, window: Window, start: int, e: Event, flow: string)
    requires Tallies(events, window, start)
    ensures Tallies(events + [e], window[ShapeOf(e) := Counted(window, start, e, flow)], start)
  {
    var more, after := events + [e], window[ShapeOf(e) := Counted(window, start, e, flow)];
    forall k
      ensures k in after <==> Matching(more, k) != {}
      ensures k in after ==>
        after[k].ts == start && after[k].shape == k && after[k].count == |Matching(more, k)| % (MAX_UINT32 + 1)
    {
      OneMoreMatching(events, e, k);
      OnlyItsShape(e, k);
      if k == ShapeOf(e) {
        NextCount(|Matching(events, k)|, if k in window then window[k].count else 0);
      }
    }
  }

  /** These are the rows of the window, each once. */
  ghost predicate RowsOf(window: Window, rows: seq<Row>) {
    |rows| == |window| && forall k {:trigger window[k]} :: k in window ==> window[k] in rows
  }

  /** Some rows of the window have left, each once. */
  ghost predicate Leaving(before: Window, window: Window, rows: seq<Row>) {
    && |rows| + |window| == |before|
    && (forall k {:trigger before[k]} :: k in before ==>
          before[k] in rows || (k in window && window[k] == before[k]))
    && (forall k {:trigger window[k]} :: k in window ==> k in before && window[k] == before[k])
  }

  lemma LeaveOne(before: Window, window: Window, rows: seq<Row>, k: Shape)
    requires Leaving(before, window, rows) && k in window
    ensures Leaving(before, window - {k}, rows + [window[k]])
  {
    var less, more := window - {k}, rows + [window[k]];
    assert less.Keys == window.Keys - {k};
    assert |less| == |window| - 1;
    forall x | x in before
      ensures before[x] in more || (x in less && less[x] == before[x])
    {
      if x == k {
        assert more[|rows|] == before[x];
      }
    }
  }

  lemma EndIsAfter(ts: nat, aggregate: nat)
    requires aggregate > 0
    ensures ts < ts - ts % aggregate + aggregate
  {
  }

  lemma SuffixGrows(stored: seq<Event>, open: seq<Event>, e: Event)
    requires |open| <= |stored| && stored[|stored| - |open|..] == open
    ensures var more, longer := stored + [e], open + [e];
      |longer| <= |more| && more[|more| - |longer|..] == longer
  {
  }

  class Pipeline {
    const sample: nat
    const aggregate: nat
    const storing: bool
    var window: Window
    var windowEnd: int
    var received: nat
    var sampled: nat
    /** History: the rows handed to every sink, the events that sampling kept, and the shapes
        whose count has started over. */
    ghost var offered: seq<Row>
    ghost var stored: seq<Event>
    ghost var wraps: seq<Shape>
    /** History: the events of the open window. */
    ghost var open: seq<Event>

    /** The window tallies the last stored events, none of which lies past its end. */
    ghost predicate WindowOk()
      reads this
    {
      && Tallies(open, window, windowEnd - aggregate) && |open| <= |stored| && stored[|stored| - |open|..] == open
      && (forall i :: 0 <= i < |open| ==> open[i].ts < windowEnd)
      && (aggregate == 0 ==> open == [])
    }

    ghost predicate BooksOk()
      reads this
    {
      && Keyed(window) && AllAccounted(offered, window, wraps, stored) && WindowOk()
      && (aggregate == 0 ==> wraps == [])
    }

    ghost predicate Valid()
      reads this
    {
      sample >= 1 && sampled == |stored| && (storing ==> sampled == received / sample) && BooksOk()
    }

    constructor (sample: nat, aggregate: nat, storing: bool)
      ensures Valid() && this.sample == (if sample < 1 then 1 else sample) && this.aggregate == aggregate
        && this.storing == storing
      ensures received == 0 && stored == [] && offered == [] && window == map[] && wraps == [] && open == []
    {
      this.sample, this.aggregate, this.storing := if sample < 1 then 1 else sample, aggregate, storing;
      window, windowEnd, received, sampled, offered, stored, wraps, open := map[], 0, 0, 0, [], [], [], [];
    }

    /** flushWindow: every row of the window goes out, in any order. */
    method FlushWindow()
      requires Keyed(window)
      modifies this`window, this`offered, this`open
      ensures window == map[] && open == [] && old(offered) <= offered
      ensures RowsOf(old(window), offered[|old(offered)|..])
      ensures forall m {:trigger SumRows(m, offered)} ::
        SumRows(m, offered) == SumRows(m, old(offered)) + SumWindow(m, old(window))
    {
      ghost var before := window;
      while window != map[]
        invariant Keyed(window) && old(offered) <= offered && Leaving(before, window, offered[|old(offered)|..])
        invariant forall m {:trigger SumRows(m, offered)} ::
          SumRows(m, offered) + SumWindow(m, window) == SumRows(m, old(offered)) + SumWindow(m, old(window))
        decreases |window|
      {
        assert window.Keys != {};
        var k :| k in window;
        forall m
          ensures SumRows(m, offered + [window[k]]) + SumWindow(m, window - {k}) ==
            SumRows(m, offered) + SumWindow(m, window)
        {
          SumPick(RowWeight(m), window, k);
          SumAppend(m, offered, window[k]);
        }
        LeaveOne(before, window, offered[|old(offered)|..], k);
        assert (offered + [window[k]])[|old(offered)|..] == offered[|old(offered)|..] + [window[k]];
        offered := offered + [window[k]];
        window := window - {k};
      }
      open := [];
    }

    /** aggregate: fold an event into the open window, which is closed first when it has ended. */
    method Aggregate(e: Event, flow: string)
      requires aggregate > 0 && Keyed(window) && AllAccounted(offered, window, wraps, stored)
      requires Tallies(open, window, windowEnd - aggregate)
      modifies this`window, this`windowEnd, this`offered, this`wraps, this`open
      ensures Keyed(window) && old(offered) <= offered && Tallies(open, window, windowEnd - aggregate)
      ensures if e.ts < old(windowEnd) then windowEnd == old(windowEnd)
        else windowEnd == e.ts - e.ts % aggregate + aggregate
      ensures e.ts < old(windowEnd) ==> offered == old(offered) && open == old(open) + [e]
      ensures e.ts >= old(windowEnd) ==> RowsOf(old(window), offered[|old(offered)|..]) && open == [e]
      ensures var before := if e.ts < old(windowEnd) then old(window) else map[];
        && window == before[ShapeOf(e) := Counted(before, windowEnd - aggregate, e, flow)]
        && wraps == old(wraps) + if Full(before, ShapeOf(e)) then [ShapeOf(e)] else []
      ensures forall k {:trigger window[k]} :: k in window ==>
        window[k].flow == if e.ts < old(windowEnd) && k in old(window) then old(window)[k].flow else flow
      ensures AllAccounted(offered, window, wraps, stored + [e])
    {
      if e.ts >= windowEnd {
        FlushWindow();
        var start := e.ts - e.ts % aggregate;
        windowEnd := start + aggregate;
      }
      FlushAccounts(old(offered), old(window), offered, window, wraps, stored);
      EventCounted(offered, window, wraps, stored, windowEnd - aggregate, e, flow);
      TallyOne(open, window, windowEnd - aggregate, e, flow);
      if Full(window, ShapeOf(e)) {
        wraps := wraps + [ShapeOf(e)];
      }
      var row := if ShapeOf(e) in window then window[ShapeOf(e)] else Row(windowEnd - aggregate, ShapeOf(e), 0, flow);
      window := window[ShapeOf(e) := row.(count := Increment32(row.count))];
      open := open + [e];
    }

    /** Without aggregation every sampled event is a row of its own. */
    method Emit(e: Event, flow: string)
      requires AllAccounted(offered, window, wraps, stored)
      modifies this`offered
      ensures offered == old(offered) + [RowOfOne(e, flow)] && AllAccounted(offered, window, wraps, stored + [e])
    {
      var row := Row(e.ts, ShapeOf(e), 1, flow);
      RowOffered(offered, window, wraps, stored, e, row);
      offered := offered + [row];
    }

    /** A sampled event goes into the window or out at once. */
    method Keep(e: Event, flow: string)
      requires BooksOk()
      modifies this`window, this`windowEnd, this`offered, this`wraps, this`open, this`stored
      ensures BooksOk() && old(offered) <= offered && old(wraps) <= wraps && stored == old(stored) + [e]
      ensures aggregate == 0 ==> offered == old(offered) + [RowOfOne(e, flow)] && window == old(window)
    {
      if aggregate > 0 {
        SuffixGrows(stored, open, e);
        SuffixGrows(stored, [], e);
        Aggregate(e, flow);
        EndIsAfter(e.ts, aggregate);
      } else {
        Emit(e, flow);
      }
      stored := stored + [e];
    }

    /** One record of the ring buffer: it may not decode, and sampling may skip it. */
    method Consume(record: Option<Event>, flow: string)
      requires Valid()
      modifies this
      ensures Valid() && old(offered) <= offered && old(wraps) <= wraps
      ensures received == old(received) + if record.Some? then 1 else 0
      ensures record.Some? && storing && received % sample == 0 ==> stored == old(stored) + [record.value]
      ensures record.None? || !storing || received % sample != 0 ==>
        stored == old(stored) && offered == old(offered) && window == old(window) && wraps == old(wraps)
      ensures record.Some? && storing && received % sample == 0 && aggregate == 0 ==>
        offered == old(offered) + [RowOfOne(record.value, flow)] && window == old(window)
    {
      match record
      case None =>
      case Some(e) =>
        received := received + 1;
        NextQuotient(received - 1, sample);
        if !storing || received % sample != 0 {
          return;
        }
        sampled := sampled + 1;
        Keep(e, flow);
    }

    /** consume: read records until the reader fails or is closed; a close flushes the window.
        After a close the rows handed out hold every sampled submission and byte, less 2^32
        submissions for every count that has started over; without aggregation none has. */
    method ConsumeAll(records: seq<(Option<Event>, string)>, closed: bool)
      requires Valid()
      modifies this
      ensures Valid() && old(offered) <= offered && old(wraps) <= wraps
      ensures storing ==> |stored| == received / sample
      ensures closed ==> window == map[]
      ensures closed ==> SumRows(Submissions, offered) + (MAX_UINT32 + 1) * |wraps| == |stored|
      ensures closed ==> SumRows(Bytes, offered) + SumWraps(Bytes, wraps) == SumEvents(Bytes, stored)
      ensures aggregate == 0 || |stored| <= MAX_UINT32 ==> wraps == []
    {
      for i := 0 to |records|
        invariant Valid() && old(offered) <= offered && old(wraps) <= wraps
      {
        Consume(records[i].0, records[i].1);
      }
      if closed {
        ghost var offered0, window0 := offered, window;
        FlushWindow();
        FlushAccounts(offered0, window0, offered, window, wraps, stored);
      }
      assert Accounts(Submissions, offered, window, wraps, stored) && Accounts(Bytes, offered, window, wraps, stored);
      StoredCount(stored);
      WrapCount(wraps);
      if |stored| <= MAX_UINT32 {
        FewEventsDoNotWrap(offered, window, wraps, stored);
      }
    }
  }
}
