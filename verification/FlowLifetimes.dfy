/** What the credits of FlowMetrics mean for a queue pair whose map entry may be removed and
    created again: no lifetime is credited twice, and the credit is exact unless an entry was
    replaced between two rounds by one with larger counters. */
module FlowLifetimes {
  import opened Wrappers
  import opened MapSums
  import opened FlowMetrics

  /** What a round finds under one key. Entries created anew have a new lifetime. */
  datatype Sample = Gone | Alive(life: int, stat: Stat, resolved: bool)

  /** `j` comes after `i`: in a later lifetime, or in the same one with grown counters and
      without having been gone. */
  ghost predicate Succeeds(history: seq<Sample>, i: int, j: int)
    requires 0 <= i < j < |history| && history[i].Alive? && history[j].Alive?
  {
    || history[i].life < history[j].life
    || (history[i].life == history[j].life && AtLeast(history[j].stat, history[i].stat) && forall k :: i < k < j ==>
          history[k].Alive?)
  }

  /** Lifetimes follow each other and end when the entry goes; counters only grow within one. */
  ghost predicate Plausible(history: seq<Sample>) {
    forall i, j {:trigger Succeeds(history, i, j)} {:trigger history[i], history[j]} ::
      0 <= i < j < |history| && history[i].Alive? && history[j].Alive? ==> Succeeds(history, i, j)
  }

  lemma PrefixIsPlausible(history: seq<Sample>, n: nat)
    requires Plausible(history) && n <= |history|
    ensures Plausible(history[..n])
  {
    var before := history[..n];
    forall i, j | 0 <= i < j < n && before[i].Alive? && before[j].Alive?
      ensures Succeeds(before, i, j)
    {
      assert before[i] == history[i] && before[j] == history[j] && Succeeds(history, i, j);
    }
  }

  // --------------------------------------------------------------- what the counters hold

  /** The counter of every lifetime when it was last seen. */
  ghost function Finals(history: seq<Sample>): map<int, Stat> {
    if history == [] then map[]
    else
      var before, x := Finals(history[..|history| - 1]), history[|history| - 1];
      if x.Alive? then before[x.life := x.stat] else before
  }

  /** The counter of every lifetime when it was last seen with both ends known. */
  ghost function ResolvedFinals(history: seq<Sample>): map<int, Stat> {
    if history == [] then map[]
    else
      var before, x := ResolvedFinals(history[..|history| - 1]), history[|history| - 1];
      if x.Alive? && x.resolved then before[x.life := x.stat] else before
  }

  /** Sample `i` is the last one of its lifetime. */
  ghost predicate IsFinal(history: seq<Sample>, i: int) {
    0 <= i < |history| && history[i].Alive?
      && forall j :: i < j < |history| && history[j].Alive? ==> history[j].life != history[i].life
  }

  ghost predicate IsResolvedFinal(history: seq<Sample>, i: int) {
    && 0 <= i < |history| && history[i].Alive? && history[i].resolved
    && forall j :: i < j < |history| && history[j].Alive? && history[j].resolved ==> history[j].life != history[i].life
  }

  /** The two maps hold what the last samples show. */
  lemma {:induction false} FinalsAreLast(history: seq<Sample>, i: nat)
    ensures IsFinal(history, i) ==>
      history[i].life in Finals(history) && Finals(history)[history[i].life] == history[i].stat
    ensures IsResolvedFinal(history, i) ==>
      history[i].life in ResolvedFinals(history) && ResolvedFinals(history)[history[i].life] == history[i].stat
    decreases |history|
  {
    if i + 1 < |history| {
      var before := history[..|history| - 1];
      FinalsAreLast(before, i);
      assert before[i] == history[i];
      assert IsFinal(history, i) ==> IsFinal(before, i);
      assert IsResolvedFinal(history, i) ==> IsResolvedFinal(before, i);
    }
  }

  lemma {:induction false} ResolvedFinalIsSample(history: seq<Sample>, life: int) returns (i: int)
    requires life in ResolvedFinals(history)
    ensures 0 <= i < |history| && history[i] == Alive(life, ResolvedFinals(history)[life], true)
    decreases |history|
  {
    var n := |history| - 1;
    if history[n].Alive? && history[n].resolved && history[n].life == life {
      i := n;
    } else {
      i := ResolvedFinalIsSample(history[..n], life);
    }
  }

  /** Within a lifetime the last resolved counter is at most the last counter. */
  lemma {:induction false} ResolvedBelowFinal(history: seq<Sample>, life: int)
    requires Plausible(history) && life in ResolvedFinals(history)
    ensures life in Finals(history) && AtLeast(Finals(history)[life], ResolvedFinals(history)[life])
    decreases |history|
  {
    var n := |history| - 1;
    var before, x := history[..n], history[n];
    PrefixIsPlausible(history, n);
    if life in ResolvedFinals(before) {
      ResolvedBelowFinal(before, life);
      if x.Alive? && x.life == life && !x.resolved {
        var i := ResolvedFinalIsSample(before, life);
        assert history[i] == before[i] && Succeeds(history, i, n);
      }
    }
  }

  // ------------------------------------------------------------------------- the account

  function ToObservation(x: Sample): Option<Observation> {
    match x
    case Gone => None
    case Alive(_, stat, resolved) => Some(Observation(stat, if resolved then Some("") else None))
  }

  /** The account of a queue pair that shows these samples. */
  function AccountOf(history: seq<Sample>): Account {
    if history == [] then Account(None, Zero())
    else AfterRound(AccountOf(history[..|history| - 1]), ToObservation(history[|history| - 1]))
  }

  /** The rounds show these samples under `key`. */
  ghost predicate Shows(rounds: seq<map<QpKey, Observation>>, key: QpKey, history: seq<Sample>) {
    && |rounds| == |history|
    && forall i {:trigger history[i]} :: 0 <= i < |history| ==> ShowsAt(rounds[i], key, history[i])
  }

  ghost predicate ShowsAt(round: map<QpKey, Observation>, key: QpKey, x: Sample) {
    match SeenIn(round, key)
    case None => x.Gone?
    case Some(o) => x.Alive? && x.stat == o.stat && x.resolved == o.flow.Some?
  }

  lemma {:induction false} AccountOfShown(rounds: seq<map<QpKey, Observation>>, key: QpKey, history: seq<Sample>)
    requires Shows(rounds, key, history)
    ensures AccountOf(history) == AccountAfter(rounds, key)
    decreases |history|
  {
    if history != [] {
      var n := |history| - 1;
      assert ShowsAt(rounds[n], key, history[n]);
      AccountOfShown(rounds[..n], key, history[..n]);
    }
  }

  // ---------------------------------------------------------------------- hidden restarts

  /** Between the two samples the entry was there and not resolved. */
  ghost predicate Quiet(history: seq<Sample>, i: int, j: int)
    requires 0 <= i && j <= |history|
  {
    forall k :: i < k < j ==> history[k].Alive? && !history[k].resolved
  }

  /** The lifetime of sample `i` ended unseen and a later one has already passed its counters
      at sample `j`, the next resolved one. */
  ghost predicate Hides(history: seq<Sample>, i: int, j: int) {
    && 0 <= i < j < |history| && history[i].Alive? && history[i].resolved && history[j].Alive? && history[j].resolved
    && history[i].life != history[j].life && AtLeast(history[j].stat, history[i].stat) && history[i].stat != Zero()
    && Quiet(history, i, j)
  }

  /** No restart that loses traffic is hidden in the history. */
  ghost predicate NoneHidden(history: seq<Sample>) {
    forall i, j {:trigger Hides(history, i, j)} :: !Hides(history, i, j)
  }

  /** The latest resolved sample, unless the entry was gone since. */
  ghost function Base(history: seq<Sample>): (b: Option<Sample>)
    ensures b.Some? ==> b.value.Alive? && b.value.resolved
  {
    if history == [] then None
    else
      var x := history[|history| - 1];
      if x.Gone? then None else if x.resolved then Some(x) else Base(history[..|history| - 1])
  }

  lemma {:induction false} BaseIsSample(history: seq<Sample>) returns (i: int)
    requires Base(history).Some?
    ensures 0 <= i < |history| && history[i] == Base(history).value && history[i].Alive? && history[i].resolved
    ensures Quiet(history, i, |history|)
    decreases |history|
  {
    var n := |history| - 1;
    if history[n].resolved {
      i := n;
    } else {
      i := BaseIsSample(history[..n]);
      forall k | i < k < n
        ensures history[k].Alive? && !history[k].resolved
      {
        assert history[..n][k] == history[k];
      }
    }
  }

  lemma {:induction false} QuietSampleIsBase(history: seq<Sample>, i: nat)
    requires i < |history| && history[i].Alive? && history[i].resolved && Quiet(history, i, |history|)
    ensures Base(history) == Some(history[i])
    decreases |history|
  {
    var n := |history| - 1;
    if i < n {
      var before := history[..n];
      assert forall k :: i < k < n ==> before[k] == history[k];
      QuietSampleIsBase(before, i);
    }
  }

  lemma {:induction false} BaseIsBaseline(history: seq<Sample>)
    ensures AccountOf(history).base == match Base(history) case None => None case Some(x) => Some(x.stat)
    decreases |history|
  {
    if history != [] {
      BaseIsBaseline(history[..|history| - 1]);
    }
  }

  lemma {:induction false} BaseIsFinal(history: seq<Sample>)
    requires Base(history).Some?
    ensures var b := Base(history).value; b.life in ResolvedFinals(history) && ResolvedFinals(history)[b.life] == b.stat
    decreases |history|
  {
    var n := |history| - 1;
    if !history[n].resolved {
      BaseIsFinal(history[..n]);
    }
  }

  /** Without a gap since, a resolved sample leaves a baseline that is no older. */
  lemma {:induction false} ResolvedLeavesBase(history: seq<Sample>, i: nat)
    requires i < |history| && history[i].Alive? && history[i].resolved
      && forall k :: i < k < |history| ==> history[k].Alive?
    ensures Base(history).Some?
    decreases |history|
  {
    var n := |history| - 1;
    if i < n && !history[n].resolved {
      var before := history[..n];
      assert before[i] == history[i] && forall k :: i < k < n ==> before[k] == history[k];
      ResolvedLeavesBase(before, i);
    }
  }

  /** A lifetime that was resolved before and shows up again is that of the baseline. */
  lemma KnownLifeIsBase(history: seq<Sample>, n: nat)
    requires Plausible(history) && n + 1 == |history| && history[n].Alive?
      && history[n].life in ResolvedFinals(history[..n])
    ensures Base(history[..n]).Some? && Base(history[..n]).value.life == history[n].life
  {
    var before, life := history[..n], history[n].life;
    var i := ResolvedFinalIsSample(before, life);
    assert history[i] == before[i] && Succeeds(history, i, n);
    forall k | i < k < n
      ensures before[k].Alive?
    {
      assert before[k] == history[k];
    }
    ResolvedLeavesBase(before, i);
    var b := BaseIsSample(before);
    assert history[b] == before[b] && Succeeds(history, b, n);
    if i < b {
      assert Succeeds(history, i, b);
    }
  }

  // ----------------------------------------------------------------------- the balance

  /** What hidden restarts keep from the credit: the counters of the lifetime that ended. */
  ghost function Lost(history: seq<Sample>): Stat {
    if history == [] then Zero()
    else
      var before, x := history[..|history| - 1], history[|history| - 1];
      if Skipped(before, x) then Plus(Lost(before), Base(before).value.stat) else Lost(before)
  }

  ghost predicate Skipped(before: seq<Sample>, x: Sample) {
    && x.Alive? && x.resolved && Base(before).Some?
    && Base(before).value.life != x.life && AtLeast(x.stat, Base(before).value.stat)
  }

  /** Credit and loss are what the lifetimes showed when they were last resolved. */
  ghost predicate Balanced(history: seq<Sample>) {
    var credit := AccountOf(history).credit;
    && credit.bytes + Lost(history).bytes == SumMap(StatBytes(), ResolvedFinals(history))
    && credit.wrs + Lost(history).wrs == SumMap(StatWrs(), ResolvedFinals(history))
  }

  lemma ResolvedKeepsBalance(history: seq<Sample>, n: nat)
    requires Plausible(history) && n + 1 == |history| && history[n].Alive? && history[n].resolved
      && Balanced(history[..n])
    ensures Balanced(history)
  {
    var before, x := history[..n], history[n];
    var known := ResolvedFinals(before);
    SumUpdate(StatBytes(), known, x.life, x.stat);
    SumUpdate(StatWrs(), known, x.life, x.stat);
    BaseIsBaseline(before);
    if x.life in known {
      KnownLifeIsBase(history, n);
    }
    if Base(before).Some? {
      BaseIsFinal(before);
      var b := BaseIsSample(before);
      assert history[b] == before[b] && Succeeds(history, b, n);
    }
  }

  lemma {:induction false} HistoryIsBalanced(history: seq<Sample>)
    requires Plausible(history)
    ensures Balanced(history)
    decreases |history|
  {
    if history != [] {
      var n := |history| - 1;
      PrefixIsPlausible(history, n);
      HistoryIsBalanced(history[..n]);
      if history[n].Alive? && history[n].resolved {
        ResolvedKeepsBalance(history, n);
      }
    }
  }

  // ------------------------------------------------------------------------ the results

  /** However rounds, resolutions and restarts interleave, the credit of a queue pair never
      exceeds the sum over its lifetimes of the counter when it was last seen. */
  lemma CreditNeverExceedsTraffic(rounds: seq<map<QpKey, Observation>>, key: QpKey, history: seq<Sample>)
    requires Shows(rounds, key, history) && Plausible(history)
    ensures AccountAfter(rounds, key).credit.bytes <= SumMap(StatBytes(), Finals(history))
    ensures AccountAfter(rounds, key).credit.wrs <= SumMap(StatWrs(), Finals(history))
  {
    HistoryIsBalanced(history);
    AccountOfShown(rounds, key, history);
    forall life | life in ResolvedFinals(history)
      ensures life in Finals(history) && AtLeast(Finals(history)[life], ResolvedFinals(history)[life])
    {
      ResolvedBelowFinal(history, life);
    }
    SumMonotone(StatBytes(), ResolvedFinals(history), Finals(history));
    SumMonotone(StatWrs(), ResolvedFinals(history), Finals(history));
  }

  lemma HidesInPrefix(history: seq<Sample>, n: nat, i: int, j: int)
    requires n + 1 == |history| && j < n
    ensures Hides(history, i, j) <==> Hides(history[..n], i, j)
  {
    var before := history[..n];
    assert forall k :: 0 <= k < n ==> before[k] == history[k];
  }

  /** The last sample completes a hidden restart exactly when it skips the baseline. */
  lemma SkippedIsHidden(history: seq<Sample>, n: nat)
    requires n + 1 == |history|
    ensures (Skipped(history[..n], history[n]) && Base(history[..n]).value.stat != Zero()) <==>
      exists i :: Hides(history, i, n)
  {
    var before := history[..n];
    if Skipped(before, history[n]) && Base(before).value.stat != Zero() {
      var i := BaseIsSample(before);
      forall k | i < k < n
        ensures history[k].Alive? && !history[k].resolved
      {
        assert before[k] == history[k];
      }
      assert Hides(history, i, n);
    }
    if i :| Hides(history, i, n) {
      assert forall k :: i < k < n ==> before[k] == history[k];
      QuietSampleIsBase(before, i);
    }
  }

  lemma {:induction false} LostOnlyWhenHidden(history: seq<Sample>)
    ensures Lost(history).bytes == 0 && Lost(history).wrs == 0 <==> NoneHidden(history)
    decreases |history|
  {
    if history != [] {
      var n := |history| - 1;
      var before := history[..n];
      LostOnlyWhenHidden(before);
      SkippedIsHidden(history, n);
      forall i, j | j < n
        ensures Hides(history, i, j) <==> Hides(before, i, j)
      {
        HidesInPrefix(history, n, i, j);
      }
      if NoneHidden(history) {
        assert forall i :: !Hides(history, i, n);
      }
    }
  }

  /** The credit is the sum over the lifetimes of the counter when it was last resolved,
      exactly when no restart is hidden. */
  lemma CreditIsExactUnlessHidden(rounds: seq<map<QpKey, Observation>>, key: QpKey, history: seq<Sample>)
    requires Shows(rounds, key, history) && Plausible(history)
    ensures NoneHidden(history) <==>
      && AccountAfter(rounds, key).credit.bytes == SumMap(StatBytes(), ResolvedFinals(history))
      && AccountAfter(rounds, key).credit.wrs == SumMap(StatWrs(), ResolvedFinals(history))
  {
    HistoryIsBalanced(history);
    AccountOfShown(rounds, key, history);
    LostOnlyWhenHidden(history);
  }

  /** A restart that a round cannot see is credited too little: the second lifetime starts
      from the first one's counters. */
  lemma HiddenRestartLosesTraffic(rounds: seq<map<QpKey, Observation>>, key: QpKey, history: seq<Sample>, first: Stat,
                                  second: Stat)
    requires |history| == 2 && history[0] == Alive(1, first, true) && history[1] == Alive(2, second, true)
    requires Shows(rounds, key, history) && AtLeast(second, first) && first != Zero()
    ensures Plausible(history) && Hides(history, 0, 1)
    ensures AccountAfter(rounds, key).credit.bytes == second.bytes && AccountAfter(rounds, key).credit.wrs == second.wrs
    ensures SumMap(StatBytes(), ResolvedFinals(history)) == first.bytes + second.bytes
    ensures SumMap(StatWrs(), ResolvedFinals(history)) == first.wrs + second.wrs
  {
    assert Plausible(history);
    var one, none := history[..1], history[..0];
    assert one[..0] == none && none == [];
    assert Base(one) == Some(history[0]);
    assert Lost(none) == Zero() && Lost(one) == Zero() && Lost(history) == Plus(Zero(), first);
    TwoFinals(history, one, none);
    HistoryIsBalanced(history);
    AccountOfShown(rounds, key, history);
  }

  lemma TwoFinals(history: seq<Sample>, one: seq<Sample>, none: seq<Sample>)
    requires |history| == 2 && one == history[..1] && none == one[..0] == []
    requires history[0].Alive? && history[0].resolved && history[1].Alive? && history[1].resolved
      && history[0].life != history[1].life
    ensures SumMap(StatBytes(), ResolvedFinals(history)) == history[0].stat.bytes + history[1].stat.bytes
    ensures SumMap(StatWrs(), ResolvedFinals(history)) == history[0].stat.wrs + history[1].stat.wrs
  {
    assert ResolvedFinals(none) == map[]
      && ResolvedFinals(one) == ResolvedFinals(none)[history[0].life := history[0].stat];
    SumUpdate(StatBytes(), ResolvedFinals(none), history[0].life, history[0].stat);
    SumUpdate(StatWrs(), ResolvedFinals(none), history[0].life, history[0].stat);
    SumUpdate(StatBytes(), ResolvedFinals(one), history[1].life, history[1].stat);
    SumUpdate(StatWrs(), ResolvedFinals(one), history[1].life, history[1].stat);
  }

  // -------------------------------------------------------------------- a single lifetime

  /** The counter at the latest resolved round. */
  function LatestResolved(history: seq<Sample>): Stat {
    if history == [] then Zero()
    else if history[|history| - 1].Alive? && history[|history| - 1].resolved then history[|history| - 1].stat
    else LatestResolved(history[..|history| - 1])
  }

  lemma {:induction false} OneLifetimeFinals(history: seq<Sample>, life: int)
    requires forall i {:trigger history[i]} :: 0 <= i < |history| ==> history[i].Alive? && history[i].life == life
    ensures ResolvedFinals(history) == if life in ResolvedFinals(history) then map[life := LatestResolved(history)]
      else map[]
    ensures life !in ResolvedFinals(history) ==> LatestResolved(history) == Zero()
    decreases |history|
  {
    if history != [] {
      OneLifetimeFinals(history[..|history| - 1], life);
    }
  }

  /** Within one lifetime the credit is the counter at the latest resolved round, however many
      unresolved rounds came before. */
  lemma OneLifetimeIsExact(rounds: seq<map<QpKey, Observation>>, key: QpKey, history: seq<Sample>, life: int)
    requires Shows(rounds, key, history) && Plausible(history)
    requires forall i {:trigger history[i]} :: 0 <= i < |history| ==> history[i].Alive? && history[i].life == life
    ensures AccountAfter(rounds, key).credit.bytes == LatestResolved(history).bytes
    ensures AccountAfter(rounds, key).credit.wrs == LatestResolved(history).wrs
  {
    CreditIsExactUnlessHidden(rounds, key, history);
    assert NoneHidden(history);
    OneLifetimeFinals(history, life);
    var none: map<int, Stat> := map[];
    SumUpdate(StatBytes(), none, life, LatestResolved(history));
    SumUpdate(StatWrs(), none, life, LatestResolved(history));
  }
}
