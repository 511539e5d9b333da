/** Traffic counters from kernel map entries: each report round credits to a flow what a
    queue pair's counters gained since the round it was last credited in. */
module FlowMetrics {
  import opened Wrappers
  import opened MapSums

  datatype QpKey = QpKey(tgid: int, qpn: int)

  datatype Stat = Stat(bytes: nat, wrs: nat)

  /** One entry of a round: its counters, and its flow when both ends are known Pods. */
  datatype Observation = Observation(stat: Stat, flow: Option<string>)

  function Zero(): Stat {
    Stat(0, 0)
  }

  function Plus(a: Stat, b: Stat): Stat {
    Stat(a.bytes + b.bytes, a.wrs + b.wrs)
  }

  predicate AtLeast(a: Stat, b: Stat) {
    a.bytes >= b.bytes && a.wrs >= b.wrs
  }

  /** What one round credits: the gain, or everything when a counter went backwards. */
  function Delta(previous: Stat, now: Stat): Stat {
    if AtLeast(now, previous) then Stat(now.bytes - previous.bytes, now.wrs - previous.wrs) else now
  }

  function BaseOf(last: map<QpKey, Stat>, key: QpKey): Option<Stat> {
    if key in last then Some(last[key]) else None
  }

  function OrZero(base: Option<Stat>): Stat {
    if base.Some? then base.value else Zero()
  }

  /** What a round does to one queue pair: its baseline and its credit. */
  datatype Account = Account(base: Option<Stat>, credit: Stat)

  function AfterRound(a: Account, seen: Option<Observation>): Account {
    match seen
    case None => Account(None, a.credit)
    case Some(o) => if o.flow.None? then a else Account(Some(o.stat), Plus(a.credit, Delta(OrZero(a.base), o.stat)))
  }

  function SeenIn(round: map<QpKey, Observation>, key: QpKey): Option<Observation> {
    if key in round then Some(round[key]) else None
  }

  /** The account of a queue pair after a sequence of rounds. */
  function AccountAfter(rounds: seq<map<QpKey, Observation>>, key: QpKey): Account {
    if rounds == [] then Account(None, Zero())
    else AfterRound(AccountAfter(rounds[..|rounds| - 1], key), SeenIn(rounds[|rounds| - 1], key))
  }

  // --------------------------------------------------------------------------- the books

  function CounterOf(m: map<string, nat>, flow: string): nat {
    if flow in m then m[flow] else 0
  }

  /** Counter.Add, called for positive amounts only. */
  function Add(m: map<string, nat>, flow: string, amount: nat): (r: map<string, nat>)
    ensures forall f :: CounterOf(r, f) == CounterOf(m, f) + if f == flow then amount else 0
  {
    if amount > 0 then m[flow := CounterOf(m, flow) + amount] else m
  }

  ghost function CreditOf(credit: map<QpKey, Stat>, key: QpKey): Stat {
    if key in credit then credit[key] else Zero()
  }

  /** The state of the metrics: baselines, counters by flow, and what each queue pair
      contributed to the counters, over all flows. */
  datatype Books = Books(last: map<QpKey, Stat>, bytes: map<string, nat>, wrs: map<string, nat>,
    credit: map<QpKey, Stat>)

  ghost function AccountIn(b: Books, key: QpKey): Account {
    Account(BaseOf(b.last, key), CreditOf(b.credit, key))
  }

  /** What one entry gains. */
  ghost function GainOf(b: Books, key: QpKey, stat: Stat): Stat {
    Delta(OrZero(BaseOf(b.last, key)), stat)
  }

  /** The gain goes to the counters of the flow and to the credit of the queue pair. */
  ghost predicate Booked(b: Books, key: QpKey, stat: Stat, flow: string, after: Books) {
    var gain := GainOf(b, key, stat);
    && after.last == b.last[key := stat]
    && after.bytes == Add(b.bytes, flow, gain.bytes)
    && after.wrs == Add(b.wrs, flow, gain.wrs)
    && after.credit == b.credit[key := Plus(CreditOf(b.credit, key), gain)]
  }

  // ------------------------------------------------------- counters against credits

  ghost function StatBytes(): Stat -> int {
    (s: Stat) => s.bytes
  }

  ghost function StatWrs(): Stat -> int {
    (s: Stat) => s.wrs
  }

  /** A counter, over all flows. */
  ghost function Total(m: map<string, nat>): int {
    SumMap<string, nat>(x => x, m)
  }

  lemma AddGrowsTotal(m: map<string, nat>, flow: string, amount: nat)
    ensures Total(Add(m, flow, amount)) == Total(m) + amount
  {
    if amount > 0 {
      SumUpdate<string, nat>(x => x, m, flow, CounterOf(m, flow) + amount);
    }
  }

  /** Over all flows the counters hold what the queue pairs were credited. */
  ghost predicate Conserved(b: Books) {
    Total(b.bytes) == SumMap(StatBytes(), b.credit) && Total(b.wrs) == SumMap(StatWrs(), b.credit)
  }

  lemma BookedConserves(b: Books, key: QpKey, stat: Stat, flow: string, after: Books)
    requires Conserved(b) && Booked(b, key, stat, flow, after)
    ensures Conserved(after)
  {
    var gain := GainOf(b, key, stat);
    AddGrowsTotal(b.bytes, flow, gain.bytes);
    AddGrowsTotal(b.wrs, flow, gain.wrs);
    SumUpdate(StatBytes(), b.credit, key, Plus(CreditOf(b.credit, key), gain));
    SumUpdate(StatWrs(), b.credit, key, Plus(CreditOf(b.credit, key), gain));
  }

  // ------------------------------------------------------------------ a round, by flow

  /** What the queue pairs in `done` gain for one flow in a round. */
  ghost function Gains(b: Books, round: map<QpKey, Observation>, done: set<QpKey>, flow: string): map<QpKey, Stat> {
    map k | k in done && k in round && round[k].flow == Some(flow) :: GainOf(b, k, round[k].stat)
  }

  lemma GainsGrow(b: Books, round: map<QpKey, Observation>, done: set<QpKey>, key: QpKey, flow: string)
    requires key in round && key !in done
    ensures var gain := if round[key].flow == Some(flow) then GainOf(b, key, round[key].stat) else Zero();
      && SumMap(StatBytes(), Gains(b, round, done + {key}, flow)) ==
         SumMap(StatBytes(), Gains(b, round, done, flow)) + gain.bytes
      && SumMap(StatWrs(), Gains(b, round, done + {key}, flow)) ==
         SumMap(StatWrs(), Gains(b, round, done, flow)) + gain.wrs
  {
    var before, after := Gains(b, round, done, flow), Gains(b, round, done + {key}, flow);
    if round[key].flow == Some(flow) {
      SumPick(StatBytes(), after, key);
      SumPick(StatWrs(), after, key);
      assert after - {key} == before;
    } else {
      assert after == before;
    }
  }

  /** The counters of a flow have grown by the gains of its queue pairs in `done`. */
  ghost predicate FlowGrew(b: Books, round: map<QpKey, Observation>, done: set<QpKey>, flow: string, after: Books) {
    && CounterOf(after.bytes, flow) == CounterOf(b.bytes, flow) + SumMap(StatBytes(), Gains(b, round, done, flow))
    && CounterOf(after.wrs, flow) == CounterOf(b.wrs, flow) + SumMap(StatWrs(), Gains(b, round, done, flow))
  }

  /** The round has reached the queue pairs in `done` and no others. */
  ghost predicate Reported(b: Books, round: map<QpKey, Observation>, done: set<QpKey>, after: Books) {
    && (forall key {:trigger AccountIn(after, key)} ::
          AccountIn(after, key) == if key in done && key in round then AfterRound(AccountIn(b, key), Some(round[key]))
            else AccountIn(b, key))
    && (forall f {:trigger FlowGrew(b, round, done, f, after)} :: FlowGrew(b, round, done, f, after))
  }

  lemma NothingReported(b: Books, round: map<QpKey, Observation>)
    ensures Reported(b, round, {}, b)
  {
    forall f
      ensures FlowGrew(b, round, {}, f, b)
    {
      assert Gains(b, round, {}, f) == map[];
    }
  }

  lemma OneMoreReported(b: Books, round: map<QpKey, Observation>, done: set<QpKey>, key: QpKey, now: Books,
                        after: Books)
    requires Reported(b, round, done, now) && key in round && key !in done
    requires if round[key].flow.None? then after == now
      else Booked(now, key, round[key].stat, round[key].flow.value, after)
    ensures Reported(b, round, done + {key}, after)
  {
    assert AccountIn(now, key) == AccountIn(b, key);
    forall k
      ensures AccountIn(after, k) == if k in done + {key} && k in round then AfterRound(AccountIn(b, k), Some(round[k]))
        else AccountIn(b, k)
    {
      assert k != key ==> AccountIn(after, k) == AccountIn(now, k);
    }
    forall f
      ensures FlowGrew(b, round, done + {key}, f, after)
    {
      GainsGrow(b, round, done, key, f);
      assert FlowGrew(b, round, done, f, now);
    }
  }

  /** The round is over: queue pairs that were not seen have lost their baseline. */
  ghost predicate RoundOver(b: Books, round: map<QpKey, Observation>, after: Books) {
    && (forall key {:trigger AccountIn(after, key)} ::
          AccountIn(after, key) == AfterRound(AccountIn(b, key), SeenIn(round, key)))
    && (forall f {:trigger FlowGrew(b, round, round.Keys, f, after)} :: FlowGrew(b, round, round.Keys, f, after))
  }

  ghost predicate OnlySeen(last: map<QpKey, Stat>, seen: set<QpKey>, last': map<QpKey, Stat>) {
    forall key {:trigger BaseOf(last', key)} :: BaseOf(last', key) == if key in seen then BaseOf(last, key) else None
  }

  lemma RoundEnds(b: Books, round: map<QpKey, Observation>, now: Books, after: Books)
    requires Reported(b, round, round.Keys, now) && OnlySeen(now.last, round.Keys, after.last)
    requires after.bytes == now.bytes && after.wrs == now.wrs && after.credit == now.credit
    ensures RoundOver(b, round, after)
  {
    forall key
      ensures AccountIn(after, key) == AfterRound(AccountIn(b, key), SeenIn(round, key))
    {
      assert BaseOf(after.last, key) == if key in round.Keys then BaseOf(now.last, key) else None;
      assert AccountIn(now, key) == if key in round then AfterRound(AccountIn(b, key), Some(round[key]))
        else AccountIn(b, key);
    }
    forall f
      ensures FlowGrew(b, round, round.Keys, f, after)
    {
      assert FlowGrew(b, round, round.Keys, f, now);
    }
  }

  // ----------------------------------------------------------------- the metrics object

  class Metrics {
    var last: map<QpKey, Stat>
    var bytes: map<string, nat>
    var wrs: map<string, nat>
    ghost var credit: map<QpKey, Stat>

    ghost function State(): Books
      reads this
    {
      Books(last, bytes, wrs, credit)
    }

    constructor ()
      ensures State() == Books(map[], map[], map[], map[]) && Conserved(State())
    {
      last, bytes, wrs, credit := map[], map[], map[], map[];
    }

    /** observe. */
    method Observe(key: QpKey, stat: Stat, flow: Option<string>) returns (recorded: bool)
      modifies this
      ensures recorded == flow.Some?
      ensures if flow.None? then State() == old(State()) else Booked(old(State()), key, stat, flow.value, State())
    {
      if flow.None? {
        return false;
      }
      var previous := OrZero(BaseOf(last, key));
      var deltaBytes, deltaWrs := stat.bytes, stat.wrs;
      if stat.bytes >= previous.bytes && stat.wrs >= previous.wrs {
        deltaBytes := stat.bytes - previous.bytes;
        deltaWrs := stat.wrs - previous.wrs;
      }
      last := last[key := stat];
      bytes := Add(bytes, flow.value, deltaBytes);
      wrs := Add(wrs, flow.value, deltaWrs);
      credit := credit[key := Plus(CreditOf(credit, key), Stat(deltaBytes, deltaWrs))];
      recorded := true;
    }

    /** endReport: baselines of queue pairs that were not seen are dropped. */
    method EndReport(seen: set<QpKey>)
      modifies this`last
      ensures OnlySeen(old(last), seen, last)
    {
      var todo := last.Keys;
      while todo != {}
        invariant todo <= last.Keys && OnlySeen(old(last), seen + todo, last)
        decreases todo
      {
        var k :| k in todo;
        Dropped(old(last), seen, todo, k, last);
        if k !in seen {
          last := last - {k};
        }
        todo := todo - {k};
      }
      assert seen + todo == seen;
    }

    /** One round over all entries, in any order. */
    method Report(round: map<QpKey, Observation>)
      requires Conserved(State())
      modifies this
      ensures Conserved(State()) && RoundOver(old(State()), round, State())
    {
      var todo := round.Keys;
      NothingReported(State(), round);
      assert round.Keys - todo == {};
      while todo != {}
        invariant todo <= round.Keys && Conserved(State()) && Reported(old(State()), round, round.Keys - todo, State())
        decreases todo
      {
        var key :| key in todo;
        ghost var now := State();
        var recorded := Observe(key, round[key].stat, round[key].flow);
        if recorded {
          BookedConserves(now, key, round[key].stat, round[key].flow.value, State());
        }
        OneMoreReported(old(State()), round, round.Keys - todo, key, now, State());
        assert round.Keys - (todo - {key}) == round.Keys - todo + {key};
        todo := todo - {key};
      }
      assert round.Keys - todo == round.Keys;
      ghost var now := State();
      EndReport(round.Keys);
      RoundEnds(old(State()), round, now, State());
    }

    /** All rounds of an agent's life. */
    method RunReports(rounds: seq<map<QpKey, Observation>>)
      requires last == map[] && credit == map[] && Conserved(State())
      modifies this
      ensures Conserved(State())
      ensures forall key {:trigger AccountIn(State(), key)} :: AccountIn(State(), key) == AccountAfter(rounds, key)
    {
      for i := 0 to |rounds|
        invariant Conserved(State())
        invariant forall key {:trigger AccountIn(State(), key)} ::
          AccountIn(State(), key) == AccountAfter(rounds[..i], key)
      {
        ghost var before := State();
        Report(rounds[i]);
        assert rounds[..i + 1][..i] == rounds[..i];
        forall key
          ensures AccountIn(State(), key) == AccountAfter(rounds[..i + 1], key)
        {
          assert AccountIn(before, key) == AccountAfter(rounds[..i], key);
        }
      }
      assert rounds[..|rounds|] == rounds;
    }
  }

  lemma Dropped(start: map<QpKey, Stat>, seen: set<QpKey>, todo: set<QpKey>, k: QpKey, last: map<QpKey, Stat>)
    requires OnlySeen(start, seen + todo, last) && k in todo
    ensures OnlySeen(start, seen + (todo - {k}), if k in seen then last else last - {k})
  {
    var after := if k in seen then last else last - {k};
    forall key
      ensures BaseOf(after, key) == if key in seen + (todo - {k}) then BaseOf(start, key) else None
    {
      assert BaseOf(last, key) == if key in seen + todo then BaseOf(start, key) else None;
    }
  }
}
