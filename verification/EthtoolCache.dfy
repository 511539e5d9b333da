/** The ethtool counter cache under concurrent Stats calls: one fetch at a time, values only
    from fetches for the same namespace and interface, the latest of them, and stale values only
    while another call held the fetch lock. */
module EthtoolCache {
  import opened Wrappers

  /** A counter reading, with where it was taken. */
  datatype Value = Value(ns: string, ifname: string, reading: int)

  datatype Key = Key(ns: string, ifname: string)

  datatype Entry = Entry(value: Value, fetchedAt: int)

  type Entries = map<Key, Entry>

  type Values = map<string, Value>

  datatype Phase =
    | Called | First | Trying | StaleCalled | Stale | Waiting | Locked | Second
    | Fetching | Fetched(values: Values) | Storing(toStore: Values, at: int)
    | Returned(stale: bool)

  /** One Stats call. `readAt` is the time of its last cache read, `asked` what it fetches itself
      and `own` what its fetch answered. */
  datatype Call = Call(ns: string, ifnames: set<string>, phase: Phase, results: Values, readAt: int,
    asked: set<string>, own: set<string>)

  /** History: a call has fetched these values and read this time to store them under. */
  datatype Stamp = Stamp(caller: int, ns: string, values: Values, at: int)

  datatype State = State(clock: int, entries: Entries, holder: Option<int>, calls: map<int, Call>, log: seq<Stamp>)

  datatype Settings = Settings(ttl: int, retention: int)

  datatype Step =
    | Pass(time: nat) | Begin(begun: int, ns: string, ifnames: set<string>) | ReadClock(reader: int)
    | ReadEntries(looker: int)
    | TryLock(trier: int) | Lock(waiter: int) | Fetch(fetcher: int, answer: Values) | Store(storer: int)

  // ------------------------------------------------------------------------- operations

  predicate IsFresh(c: Settings, e: Entry, now: int) {
    now - e.fetchedAt < c.ttl
  }

  /** lookup: the results it can serve; the other names are missing. */
  function Lookup(c: Settings, entries: Entries, ns: string, ifnames: set<string>, now: int,
                  allowStale: bool): Values {
    map i | i in ifnames && Key(ns, i) in entries && (allowStale || IsFresh(c, entries[Key(ns, i)], now)) ::
      entries[Key(ns, i)].value
  }

  /** A fetch reads interfaces in the namespace it was asked for; it may miss some. */
  ghost predicate FetchFor(ns: string, values: Values) {
    forall i {:trigger values[i]} :: i in values ==> values[i].ns == ns && values[i].ifname == i
  }

  /** store: the fetched values enter with the current time, and old entries leave. */
  function StoreIn(c: Settings, before: Entries, ns: string, values: Values, now: int): Entries {
    var merged := before + map i | i in values :: Key(ns, i) := Entry(values[i], now);
    map k | k in merged && now - merged[k].fetchedAt < c.retention :: merged[k]
  }

  ghost function Update(s: State, id: int, call: Call): State {
    s.(calls := s.calls[id := call])
  }

  /** Reading the clock at the beginning of a lookup or a store. */
  ghost predicate ReadsClock(s: State, id: int, s': State) {
    && id in s.calls
    && var call := s.calls[id].(readAt := s.clock);
    match call.phase
    case Called => s' == Update(s, id, call.(phase := First))
    case StaleCalled => s' == Update(s, id, call.(phase := Stale))
    case Locked => s' == Update(s, id, call.(phase := Second))
    case Fetched(values) =>
      s' == Update(s, id, s.calls[id].(phase := Storing(values, s.clock)))
            .(log := s.log + [Stamp(id, call.ns, values, s.clock)])
    case _ => false
  }

  /** The rest of a lookup, and what Stats does with its outcome. */
  ghost predicate ReadsEntries(c: Settings, s: State, id: int, s': State) {
    && id in s.calls
    && var call := s.calls[id];
    var found := Lookup(c, s.entries, call.ns, call.ifnames, call.readAt, call.phase.Stale?);
    var complete := found.Keys == call.ifnames;
    match call.phase
    case First =>
      s' == Update(s, id, if complete then call.(phase := Returned(false), results := found)
        else call.(phase := Trying))
    case Stale =>
      s' == Update(s, id, if complete then call.(phase := Returned(true), results := found)
        else call.(phase := Waiting))
    case Second =>
      if complete then s' == Update(s, id, call.(phase := Returned(false), results := found)).(holder := None)
      else s' == Update(s, id, call.(phase := Fetching, asked := call.ifnames - found.Keys, results := found))
    case _ => false
  }

  ghost predicate TriesLock(s: State, id: int, s': State) {
    && id in s.calls && s.calls[id].phase.Trying?
    && if s.holder.None? then s' == Update(s, id, s.calls[id].(phase := Locked)).(holder := Some(id))
       else s' == Update(s, id, s.calls[id].(phase := StaleCalled))
  }

  ghost predicate Locks(s: State, id: int, s': State) {
    && id in s.calls && s.calls[id].phase.Waiting? && s.holder.None?
    && s' == Update(s, id, s.calls[id].(phase := Locked)).(holder := Some(id))
  }

  ghost predicate Fetches(s: State, id: int, values: Values, s': State) {
    && id in s.calls && s.calls[id].phase.Fetching? && FetchFor(s.calls[id].ns, values)
    && s' == Update(s, id, s.calls[id].(phase := Fetched(values)))
  }

  /** The write to the cache, after which the call returns and unlocks. */
  ghost predicate Stores(c: Settings, s: State, id: int, s': State) {
    && id in s.calls && s.calls[id].phase.Storing?
    && var call := s.calls[id];
    var values, now := call.phase.toStore, call.phase.at;
    && s' == Update(s, id, call.(phase := Returned(false), results := call.results + values, own := values.Keys))
             .(entries := StoreIn(c, s.entries, call.ns, values, now), holder := None)
  }

  ghost predicate Next(c: Settings, s: State, step: Step, s': State) {
    match step
    case Pass(time) => s' == s.(clock := s.clock + time)
    case Begin(id, ns, ifnames) =>
      id !in s.calls && s' == Update(s, id, Call(ns, ifnames, Called, map[], s.clock, {}, {}))
    case ReadClock(id) => ReadsClock(s, id, s')
    case ReadEntries(id) => ReadsEntries(c, s, id, s')
    case TryLock(id) => TriesLock(s, id, s')
    case Lock(id) => Locks(s, id, s')
    case Fetch(id, values) => Fetches(s, id, values, s')
    case Store(id) => Stores(c, s, id, s')
  }

  // ------------------------------------------------------------- what the cache should hold

  ghost predicate Has(stamp: Stamp, k: Key) {
    stamp.ns == k.ns && k.ifname in stamp.values
  }

  /** Stamp `j` is the last one that has the key. */
  ghost predicate LastFor(log: seq<Stamp>, k: Key, j: int) {
    0 <= j < |log| && Has(log[j], k) && forall m :: j < m < |log| ==> !Has(log[m], k)
  }

  ghost predicate TimesRise(log: seq<Stamp>) {
    forall i, j :: 0 <= i <= j < |log| ==> log[i].at <= log[j].at
  }

  ghost predicate AllBy(log: seq<Stamp>, now: int) {
    forall j {:trigger log[j]} :: 0 <= j < |log| ==> log[j].at <= now
  }

  /** The last value stored for the key has not been swept out: at the last store it was younger
      than the retention time. */
  ghost predicate Survives(c: Settings, log: seq<Stamp>, k: Key, j: int) {
    LastFor(log, k, j) && log[|log| - 1].at - log[j].at < c.retention
  }

  /** The cache holds, for every key, the last value stored for it, unless that was swept out. */
  ghost predicate CacheIs(c: Settings, log: seq<Stamp>, entries: Entries) {
    && (forall k, j {:trigger Survives(c, log, k, j)} :: Survives(c, log, k, j) ==> k in entries)
    && (forall k {:trigger entries[k]} :: k in entries ==> InCache(c, log, entries, k))
  }

  ghost predicate InCache(c: Settings, log: seq<Stamp>, entries: Entries, k: Key)
    requires k in entries
  {
    exists j :: Survives(c, log, k, j) && entries[k] == Entry(log[j].values[k.ifname], log[j].at)
  }

  lemma LastIsUnique(log: seq<Stamp>, k: Key, i: int, j: int)
    requires LastFor(log, k, i) && LastFor(log, k, j)
    ensures i == j
  {
  }

  lemma LastStays(log: seq<Stamp>, stamp: Stamp, k: Key, j: int)
    requires !Has(stamp, k)
    ensures LastFor(log + [stamp], k, j) <==> LastFor(log, k, j)
  {
    var more := log + [stamp];
    if LastFor(log, k, j) {
      assert more[j] == log[j];
    }
    if LastFor(more, k, j) {
      assert j != |log|;
      forall m | j < m < |log|
        ensures !Has(log[m], k)
      {
        assert more[m] == log[m];
      }
    }
  }

  lemma NewIsLast(log: seq<Stamp>, stamp: Stamp, k: Key)
    requires Has(stamp, k)
    ensures LastFor(log + [stamp], k, |log|)
  {
  }

  /** Of a key that the store does not have, the entry stays unless it is too old now. */
  lemma StoreOther(c: Settings, log: seq<Stamp>, before: Entries, stamp: Stamp, k: Key, j: int)
    requires CacheIs(c, log, before) && AllBy(log, stamp.at) && !Has(stamp, k)
    ensures var after := StoreIn(c, before, stamp.ns, stamp.values, stamp.at);
      && (Survives(c, log + [stamp], k, j) ==> k in after)
      && (k in after ==> InCache(c, log + [stamp], after, k))
  {
    var more, after := log + [stamp], StoreIn(c, before, stamp.ns, stamp.values, stamp.at);
    LastStays(log, stamp, k, j);
    if Survives(c, more, k, j) {
      assert more[j] == log[j] && Survives(c, log, k, j);
      assert InCache(c, log, before, k);
      var i :| Survives(c, log, k, i) && before[k] == Entry(log[i].values[k.ifname], log[i].at);
      LastIsUnique(log, k, i, j);
    }
    if k in after {
      assert after[k] == before[k] && InCache(c, log, before, k);
      var i :| Survives(c, log, k, i) && before[k] == Entry(log[i].values[k.ifname], log[i].at);
      LastStays(log, stamp, k, i);
      assert more[i] == log[i] && Survives(c, more, k, i);
    }
  }

  lemma StoreOwn(c: Settings, log: seq<Stamp>, before: Entries, stamp: Stamp, k: Key, j: int)
    requires Has(stamp, k)
    ensures var after := StoreIn(c, before, stamp.ns, stamp.values, stamp.at);
      && (Survives(c, log + [stamp], k, j) ==> k in after)
      && (k in after ==> InCache(c, log + [stamp], after, k))
  {
    var more, after := log + [stamp], StoreIn(c, before, stamp.ns, stamp.values, stamp.at);
    NewIsLast(log, stamp, k);
    assert k == Key(stamp.ns, k.ifname);
    if Survives(c, more, k, j) {
      LastIsUnique(more, k, j, |log|);
    }
    if k in after {
      assert after[k] == Entry(stamp.values[k.ifname], stamp.at);
      assert Survives(c, more, k, |log|);
    }
  }

  lemma StoreIsRight(c: Settings, log: seq<Stamp>, before: Entries, stamp: Stamp)
    requires CacheIs(c, log, before) && AllBy(log, stamp.at)
    ensures CacheIs(c, log + [stamp], StoreIn(c, before, stamp.ns, stamp.values, stamp.at))
  {
    var more, after := log + [stamp], StoreIn(c, before, stamp.ns, stamp.values, stamp.at);
    forall k, j
      ensures (Survives(c, more, k, j) ==> k in after) && (k in after ==> InCache(c, more, after, k))
    {
      if Has(stamp, k) {
        StoreOwn(c, log, before, stamp, k, j);
      } else {
        StoreOther(c, log, before, stamp, k, j);
      }
    }
    forall k | k in after
      ensures InCache(c, more, after, k)
    {
      assert Survives(c, more, k, 0) ==> k in after;
    }
  }

  // ---------------------------------------------------------------------- the invariant

  /** The phases in which a call holds the fetch lock. */
  predicate HoldsLock(p: Phase) {
    p.Locked? || p.Second? || p.Fetching? || p.Fetched? || p.Storing?
  }

  /** A call has read the time for its store and not stored yet. */
  ghost predicate StoreIsDue(s: State) {
    s.holder.Some? && s.holder.value in s.calls && s.calls[s.holder.value].phase.Storing?
  }

  /** The stores that are complete. */
  ghost function Done(s: State): seq<Stamp> {
    if StoreIsDue(s) && s.log != [] then s.log[..|s.log| - 1] else s.log
  }

  /** The stamp holds this value for the namespace and interface. */
  ghost predicate Holds(stamp: Stamp, ns: string, ifname: string, v: Value) {
    stamp.ns == ns && ifname in stamp.values && stamp.values[ifname] == v
  }

  /** A stamp that lets the call return the value: fresh when the call read the cache, its own, or
      any once the call is served stale values. */
  ghost predicate Covers(c: Settings, id: int, call: Call, i: string, v: Value, stamp: Stamp) {
    && Holds(stamp, call.ns, i, v)
    && (call.readAt - stamp.at < c.ttl || stamp.caller == id || call.phase == Returned(true))
  }

  ghost predicate IsCovered(c: Settings, log: seq<Stamp>, id: int, call: Call, i: string, v: Value) {
    exists j :: 0 <= j < |log| && Covers(c, id, call, i, v, log[j])
  }

  predicate HasAsked(p: Phase) {
    p.Fetching? || p.Fetched? || p.Storing? || p.Returned?
  }

  /** A requested name has no result if and only if the call's own fetch was asked for it and,
      at the end, did not answer it. */
  ghost predicate Answered(call: Call) {
    if HasAsked(call.phase) then call.ifnames - call.results.Keys == call.asked - call.own else call.asked == {}
  }

  ghost predicate PhaseOk(s: State, id: int, call: Call) {
    && (HoldsLock(call.phase) <==> s.holder == Some(id))
    && (!call.phase.Returned? ==> call.own == {})
    && (!HasAsked(call.phase) ==> call.results == map[])
    && (call.phase.Second? ==> AllBy(s.log, call.readAt))
    && (call.phase.Fetched? ==> FetchFor(call.ns, call.phase.values))
    && (call.phase.Storing? ==>
          s.log != [] && s.log[|s.log| - 1] == Stamp(id, call.ns, call.phase.toStore, call.phase.at))
  }

  ghost predicate CallOk(c: Settings, s: State, id: int)
    requires id in s.calls
  {
    var call := s.calls[id];
    && PhaseOk(s, id, call) && Answered(call)
    && forall i {:trigger call.results[i]} :: i in call.results ==> IsCovered(c, s.log, id, call, i, call.results[i])
  }

  ghost predicate LogOk(c: Settings, s: State) {
    && TimesRise(s.log) && AllBy(s.log, s.clock) && CacheIs(c, Done(s), s.entries)
    && forall j {:trigger s.log[j]} :: 0 <= j < |s.log| ==> FetchFor(s.log[j].ns, s.log[j].values)
  }

  ghost predicate Inv(c: Settings, s: State) {
    && LogOk(c, s) && (s.holder.Some? ==> s.holder.value in s.calls)
    && forall id {:trigger s.calls[id]} :: id in s.calls ==> CallOk(c, s, id)
  }

  ghost predicate Init(s: State) {
    s.entries == map[] && s.holder.None? && s.calls == map[] && s.log == []
  }

  // ----------------------------------------------------------------- every step keeps it

  lemma CoveredStays(c: Settings, log: seq<Stamp>, log': seq<Stamp>, id: int, call: Call, i: string, v: Value)
    requires IsCovered(c, log, id, call, i, v) && log <= log'
    ensures IsCovered(c, log', id, call, i, v)
  {
    var j :| 0 <= j < |log| && Covers(c, id, call, i, v, log[j]);
    assert log'[j] == log[j];
  }

  lemma CallStays(c: Settings, s: State, s': State, id: int)
    requires id in s.calls && CallOk(c, s, id) && id in s'.calls && s'.calls[id] == s.calls[id]
    requires s.log <= s'.log && (HoldsLock(s.calls[id].phase) ==> s'.log == s.log)
    requires s'.holder == Some(id) <==> s.holder == Some(id)
    ensures CallOk(c, s', id)
  {
    var call := s.calls[id];
    forall i | i in call.results
      ensures IsCovered(c, s'.log, id, call, i, call.results[i])
    {
      CoveredStays(c, s.log, s'.log, id, call, i, call.results[i]);
    }
  }

  /** The lock stays where it is, or is taken or left by `id`. */
  ghost predicate OnlyMoves(s: State, id: int, s': State) {
    s'.holder == s.holder || (s.holder in {None, Some(id)} && s'.holder in {None, Some(id)})
  }

  /** The calls other than `id` do not notice a step of `id`. */
  lemma OthersStay(c: Settings, s: State, id: int, s': State)
    requires Inv(c, s) && id in s.calls && id in s'.calls && s'.calls == s.calls[id := s'.calls[id]]
    requires s.log <= s'.log && (s'.log == s.log || s.holder == Some(id))
    requires OnlyMoves(s, id, s')
    ensures forall x :: x in s.calls && x != id ==> CallOk(c, s', x)
  {
    forall x | x in s.calls && x != id
      ensures CallOk(c, s', x)
    {
      assert CallOk(c, s, x);
      CallStays(c, s, s', x);
    }
  }

  /** A step of `id` that leaves the log and the cache alone. */
  lemma QuietStepKeepsInv(c: Settings, s: State, id: int, s': State)
    requires Inv(c, s) && id in s.calls && id in s'.calls && s'.calls == s.calls[id := s'.calls[id]]
    requires s'.log == s.log && s'.entries == s.entries && s'.clock == s.clock
    requires OnlyMoves(s, id, s')
    requires s'.holder.Some? ==> s'.holder.value in s.calls
    requires CallOk(c, s', id) && !s.calls[id].phase.Storing? && !s'.calls[id].phase.Storing?
    ensures Inv(c, s')
  {
    assert CallOk(c, s, id);
    OthersStay(c, s, id, s');
    SameDone(c, s, id, s');
  }

  lemma SameDone(c: Settings, s: State, id: int, s': State)
    requires Inv(c, s) && id in s.calls && id in s'.calls && s'.calls == s.calls[id := s'.calls[id]]
    requires s'.log == s.log && !s.calls[id].phase.Storing? && !s'.calls[id].phase.Storing?
    requires OnlyMoves(s, id, s')
    requires s'.holder.Some? ==> s'.holder.value in s.calls
    ensures Done(s') == Done(s)
  {
  }

  lemma ClockKeepsInv(c: Settings, s: State, id: int, s': State)
    requires Inv(c, s) && ReadsClock(s, id, s')
    ensures Inv(c, s')
  {
    assert CallOk(c, s, id);
    if s.calls[id].phase.Fetched? {
      StampKeepsInv(c, s, id, s');
    } else {
      QuietStepKeepsInv(c, s, id, s');
    }
  }

  lemma StampKeepsInv(c: Settings, s: State, id: int, s': State)
    requires Inv(c, s) && ReadsClock(s, id, s') && s.calls[id].phase.Fetched?
    ensures Inv(c, s')
  {
    assert CallOk(c, s, id);
    var call, call' := s.calls[id], s'.calls[id];
    assert s'.log[..|s.log|] == s.log;
    assert Done(s) == s.log && Done(s') == s.log;
    OthersStay(c, s, id, s');
    forall i | i in call'.results
      ensures IsCovered(c, s'.log, id, call', i, call'.results[i])
    {
      assert IsCovered(c, s.log, id, call, i, call.results[i]);
      var j :| 0 <= j < |s.log| && Covers(c, id, call, i, call.results[i], s.log[j]);
      assert s'.log[j] == s.log[j] && Covers(c, id, call', i, call.results[i], s'.log[j]);
    }
  }

  /** What a lookup finds is covered by the complete stores. */
  lemma LookupIsCovered(c: Settings, s: State, id: int, call: Call, stale: bool, i: string)
    requires LogOk(c, s) && i in Lookup(c, s.entries, call.ns, call.ifnames, call.readAt, stale)
    requires stale ==> call.phase == Returned(true)
    ensures IsCovered(c, s.log, id, call, i, Lookup(c, s.entries, call.ns, call.ifnames, call.readAt, stale)[i])
  {
    var k := Key(call.ns, i);
    assert InCache(c, Done(s), s.entries, k);
    var j :| Survives(c, Done(s), k, j) && s.entries[k] == Entry(Done(s)[j].values[i], Done(s)[j].at);
    assert s.log[j] == Done(s)[j];
    assert Covers(c, id, call, i, s.entries[k].value, s.log[j]);
  }

  lemma ReaderOk(c: Settings, s: State, id: int, s': State)
    requires Inv(c, s) && ReadsEntries(c, s, id, s')
    ensures CallOk(c, s', id)
  {
    assert CallOk(c, s, id);
    var call, call' := s.calls[id], s'.calls[id];
    forall i | i in call'.results
      ensures IsCovered(c, s'.log, id, call', i, call'.results[i])
    {
      LookupIsCovered(c, s, id, call', call.phase.Stale?, i);
    }
  }

  lemma ReadKeepsInv(c: Settings, s: State, id: int, s': State)
    requires Inv(c, s) && ReadsEntries(c, s, id, s')
    ensures Inv(c, s')
  {
    ReaderOk(c, s, id, s');
    assert CallOk(c, s, id);
    QuietStepKeepsInv(c, s, id, s');
  }

  lemma TryKeepsInv(c: Settings, s: State, id: int, s': State)
    requires Inv(c, s) && TriesLock(s, id, s')
    ensures Inv(c, s')
  {
    assert CallOk(c, s, id);
    QuietStepKeepsInv(c, s, id, s');
  }

  lemma LockKeepsInv(c: Settings, s: State, id: int, s': State)
    requires Inv(c, s) && Locks(s, id, s')
    ensures Inv(c, s')
  {
    assert CallOk(c, s, id);
    QuietStepKeepsInv(c, s, id, s');
  }

  lemma FetcherOk(c: Settings, s: State, id: int, values: Values, s': State)
    requires Inv(c, s) && Fetches(s, id, values, s')
    ensures CallOk(c, s', id)
  {
    assert CallOk(c, s, id);
    var call, call' := s.calls[id], s'.calls[id];
    forall i | i in call'.results
      ensures IsCovered(c, s'.log, id, call', i, call'.results[i])
    {
      assert IsCovered(c, s.log, id, call, i, call.results[i]);
      var j :| 0 <= j < |s.log| && Covers(c, id, call, i, call.results[i], s.log[j]);
      assert Covers(c, id, call', i, call.results[i], s.log[j]);
    }
  }

  lemma FetchKeepsInv(c: Settings, s: State, id: int, values: Values, s': State)
    requires Inv(c, s) && Fetches(s, id, values, s')
    ensures Inv(c, s')
  {
    FetcherOk(c, s, id, values, s');
    assert CallOk(c, s, id);
    QuietStepKeepsInv(c, s, id, s');
  }

  lemma StoreAnswers(before: Call, after: Call, values: Values)
    requires Answered(before) && before.phase.Storing? && before.own == {} && after.phase.Returned?
    requires after.ifnames == before.ifnames && after.asked == before.asked && after.own == values.Keys
    requires after.results.Keys == before.results.Keys + values.Keys
    ensures Answered(after)
  {
    assert before.asked - before.own == before.asked;
    assert after.ifnames - after.results.Keys == (before.ifnames - before.results.Keys) - values.Keys;
  }

  lemma StorerOk(c: Settings, s: State, id: int, s': State)
    requires Inv(c, s) && Stores(c, s, id, s')
    ensures CallOk(c, s', id)
  {
    assert CallOk(c, s, id);
    var call, call' := s.calls[id], s'.calls[id];
    var values := call.phase.toStore;
    StoreAnswers(call, call', values);
    forall i | i in call'.results
      ensures IsCovered(c, s'.log, id, call', i, call'.results[i])
    {
      if i in values {
        assert Covers(c, id, call', i, values[i], s'.log[|s'.log| - 1]);
      } else {
        assert IsCovered(c, s.log, id, call, i, call.results[i]);
        var j :| 0 <= j < |s.log| && Covers(c, id, call, i, call.results[i], s.log[j]);
        assert Covers(c, id, call', i, call.results[i], s.log[j]);
      }
    }
  }

  lemma StoreKeepsLog(c: Settings, s: State, id: int, s': State)
    requires Inv(c, s) && Stores(c, s, id, s')
    ensures LogOk(c, s')
  {
    assert CallOk(c, s, id);
    DoneAroundStore(s, id, s');
    StoreLast(c, s.log, s.entries);
  }

  lemma DoneAroundStore(s: State, id: int, s': State)
    requires s.holder == Some(id) && id in s.calls && s.calls[id].phase.Storing? && s.log != []
    requires s'.holder.None? && s'.log == s.log
    ensures Done(s) == s.log[..|s.log| - 1] && Done(s') == s.log
  {
  }

  lemma StoreLast(c: Settings, log: seq<Stamp>, before: Entries)
    requires log != [] && TimesRise(log) && CacheIs(c, log[..|log| - 1], before)
    ensures var last := log[|log| - 1];
      CacheIs(c, log, StoreIn(c, before, last.ns, last.values, last.at))
  {
    var n := |log| - 1;
    assert log == log[..n] + [log[n]];
    StoreIsRight(c, log[..n], before, log[n]);
  }

  lemma StoreKeepsInv(c: Settings, s: State, id: int, s': State)
    requires Inv(c, s) && Stores(c, s, id, s')
    ensures Inv(c, s')
  {
    assert CallOk(c, s, id);
    StorerOk(c, s, id, s');
    StoreKeepsLog(c, s, id, s');
    OthersStay(c, s, id, s');
  }

  lemma PassKeepsInv(c: Settings, s: State, time: nat, s': State)
    requires Inv(c, s) && s' == s.(clock := s.clock + time)
    ensures Inv(c, s')
  {
    assert Done(s') == Done(s);
    forall id | id in s'.calls
      ensures CallOk(c, s', id)
    {
      assert CallOk(c, s, id);
      CallStays(c, s, s', id);
    }
  }

  lemma BeginKeepsInv(c: Settings, s: State, id: int, s': State)
    requires Inv(c, s) && id !in s.calls && id in s'.calls && s'.calls[id].phase.Called?
      && s'.calls[id].results == map[] && s'.calls[id].own == s'.calls[id].asked == {}
    requires s' == s.(calls := s.calls[id := s'.calls[id]])
    ensures Inv(c, s')
  {
    assert Done(s') == Done(s);
    forall x | x in s.calls
      ensures CallOk(c, s', x)
    {
      assert CallOk(c, s, x);
      CallStays(c, s, s', x);
    }
  }

  lemma StepKeepsInv(c: Settings, s: State, step: Step, s': State)
    requires Inv(c, s) && Next(c, s, step, s')
    ensures Inv(c, s')
  {
    match step {
      case Pass(time) => PassKeepsInv(c, s, time, s');
      case Begin(id, ns, ifnames) => BeginKeepsInv(c, s, id, s');
      case ReadClock(id) => ClockKeepsInv(c, s, id, s');
      case ReadEntries(id) => ReadKeepsInv(c, s, id, s');
      case TryLock(id) => TryKeepsInv(c, s, id, s');
      case Lock(id) => LockKeepsInv(c, s, id, s');
      case Fetch(id, values) => FetchKeepsInv(c, s, id, values, s');
      case Store(id) => StoreKeepsInv(c, s, id, s');
    }
  }

  // ------------------------------------------------------------------------- whole runs

  ghost predicate StepAt(c: Settings, run: seq<State>, steps: seq<Step>, i: int)
    requires 0 <= i < |steps| && |run| == |steps| + 1
  {
    Next(c, run[i], steps[i], run[i + 1])
  }

  ghost predicate IsRun(c: Settings, run: seq<State>, steps: seq<Step>) {
    && |run| == |steps| + 1 && Init(run[0])
    && forall i {:trigger StepAt(c, run, steps, i)} :: 0 <= i < |steps| ==> StepAt(c, run, steps, i)
  }

  /** What every step keeps holds throughout. */
  lemma {:induction false} RunKeeps(c: Settings, run: seq<State>, steps: seq<Step>, i: nat, holds: State -> bool)
    requires IsRun(c, run, steps) && i < |run| && holds(run[0])
    requires forall s, step, s' {:trigger Next(c, s, step, s')} :: Next(c, s, step, s') && holds(s) ==> holds(s')
    ensures holds(run[i])
    decreases i
  {
    if i > 0 {
      RunKeeps(c, run, steps, i - 1, holds);
      assert StepAt(c, run, steps, i - 1);
    }
  }

  lemma RunKeepsInv(c: Settings, run: seq<State>, steps: seq<Step>, i: nat)
    requires IsRun(c, run, steps) && i < |run|
    ensures Inv(c, run[i])
  {
    forall s, step, s' | Next(c, s, step, s') && Inv(c, s)
      ensures Inv(c, s')
    {
      StepKeepsInv(c, s, step, s');
    }
    InitIsOk(c, run[0]);
    RunKeeps(c, run, steps, i, s => Inv(c, s));
  }

  lemma InitIsOk(c: Settings, s: State)
    requires Init(s)
    ensures Inv(c, s)
  {
  }

  /** At most one fetch runs at any time. */
  lemma OneFetchAtATime(c: Settings, run: seq<State>, steps: seq<Step>, i: nat, a: int, b: int)
    requires IsRun(c, run, steps) && i < |run| && a in run[i].calls && b in run[i].calls
    requires run[i].calls[a].phase.Fetching? && run[i].calls[b].phase.Fetching?
    ensures a == b
  {
    RunKeepsInv(c, run, steps, i);
    assert CallOk(c, run[i], a) && CallOk(c, run[i], b);
  }

  /** What is missing from the results of a call is exactly what its own fetch was asked for and
      did not answer. */
  lemma MissingValues(c: Settings, run: seq<State>, steps: seq<Step>, i: nat, id: int, ifname: string)
    requires IsRun(c, run, steps) && i < |run| && id in run[i].calls && run[i].calls[id].phase.Returned?
    ensures var call := run[i].calls[id];
      ifname in call.ifnames - call.results.Keys <==> ifname in call.asked - call.own
  {
    RunKeepsInv(c, run, steps, i);
    assert CallOk(c, run[i], id);
    assert Answered(run[i].calls[id]);
  }

  // ----------------------------------------------------------------- the log, from the steps

  /** What the last fetch of this call answered. */
  ghost function AnswerTo(steps: seq<Step>, id: int): Option<Values> {
    if steps == [] then None
    else
      var step := steps[|steps| - 1];
      if step.Fetch? && step.fetcher == id then Some(step.answer) else AnswerTo(steps[..|steps| - 1], id)
  }

  /** The call that reads the clock for its store in this step, if any. */
  ghost predicate ReadsForStore(s: State, step: Step) {
    step.ReadClock? && step.reader in s.calls && s.calls[step.reader].phase.Fetched?
  }

  /** The stamp that step `i` should make: what was answered to the call, and the time now. */
  ghost function Logged(run: seq<State>, steps: seq<Step>, i: nat): seq<Stamp>
    requires i < |steps| && |run| == |steps| + 1
  {
    var s, step := run[i], steps[i];
    if ReadsForStore(s, step) && AnswerTo(steps[..i], step.reader).Some? then
      [Stamp(step.reader, s.calls[step.reader].ns, AnswerTo(steps[..i], step.reader).value, s.clock)]
    else []
  }

  /** The stamps of the first `i` steps. */
  ghost function LogOf(run: seq<State>, steps: seq<Step>, i: nat): seq<Stamp>
    requires i <= |steps| && |run| == |steps| + 1
  {
    if i == 0 then [] else LogOf(run, steps, i - 1) + Logged(run, steps, i - 1)
  }

  /** A call that has fetched holds what its fetch answered. */
  ghost predicate HoldsAnswer(s: State, steps: seq<Step>, id: int) {
    id in s.calls && s.calls[id].phase.Fetched? ==> AnswerTo(steps, id) == Some(s.calls[id].phase.values)
  }

  lemma AnswersStay(c: Settings, s: State, steps: seq<Step>, step: Step, s': State, id: int)
    requires Next(c, s, step, s') && HoldsAnswer(s, steps, id)
    ensures HoldsAnswer(s', steps + [step], id)
  {
    var more := steps + [step];
    assert more[..|steps|] == steps && more[|more| - 1] == step;
  }

  lemma {:induction false} AnswersAreHeld(c: Settings, run: seq<State>, steps: seq<Step>, i: nat, id: int)
    requires IsRun(c, run, steps) && i < |run|
    ensures HoldsAnswer(run[i], steps[..i], id)
    decreases i
  {
    if i > 0 {
      AnswersAreHeld(c, run, steps, i - 1, id);
      var step := steps[i - 1];
      assert StepAt(c, run, steps, i - 1);
      AnswersStay(c, run[i - 1], steps[..i - 1], step, run[i], id);
      Extended(steps, i);
    }
  }

  lemma Extended(steps: seq<Step>, i: nat)
    requires 0 < i <= |steps|
    ensures steps[..i] == steps[..i - 1] + [steps[i - 1]]
  {
  }

  lemma StepLogs(c: Settings, s: State, step: Step, s': State)
    requires Next(c, s, step, s')
    ensures ReadsForStore(s, step) ==>
      s'.log == s.log + [Stamp(step.reader, s.calls[step.reader].ns, s.calls[step.reader].phase.values, s.clock)]
    ensures !ReadsForStore(s, step) ==> s'.log == s.log
  {
  }

  /** The log is that of the steps. */
  lemma {:induction false} LogIsHonest(c: Settings, run: seq<State>, steps: seq<Step>, i: nat)
    requires IsRun(c, run, steps) && i < |run|
    ensures run[i].log == LogOf(run, steps, i)
    decreases i
  {
    if i > 0 {
      LogIsHonest(c, run, steps, i - 1);
      var step := steps[i - 1];
      assert StepAt(c, run, steps, i - 1);
      StepLogs(c, run[i - 1], step, run[i]);
      if ReadsForStore(run[i - 1], step) {
        AnswersAreHeld(c, run, steps, i - 1, step.reader);
      }
    }
  }

  /** What the clock showed when the call last read it for a lookup. */
  ghost function LookedAt(run: seq<State>, steps: seq<Step>, i: nat, id: int): Option<int>
    requires i <= |steps| && |run| == |steps| + 1
  {
    if i == 0 then None
    else if steps[i - 1] == ReadClock(id) && !ReadsForStore(run[i - 1], steps[i - 1]) then Some(run[i - 1].clock)
    else LookedAt(run, steps, i - 1, id)
  }

  ghost predicate KnowsItsTime(s: State, id: int, looked: Option<int>) {
    id in s.calls && !s.calls[id].phase.Called? ==> looked == Some(s.calls[id].readAt)
  }

  lemma StepKnowsItsTime(c: Settings, s: State, step: Step, s': State, id: int, looked: Option<int>)
    requires Next(c, s, step, s') && KnowsItsTime(s, id, looked)
    ensures KnowsItsTime(s', id, if step == ReadClock(id) && !ReadsForStore(s, step) then Some(s.clock) else looked)
  {
  }

  lemma {:induction false} TimesAreRead(c: Settings, run: seq<State>, steps: seq<Step>, i: nat, id: int)
    requires IsRun(c, run, steps) && i < |run|
    ensures KnowsItsTime(run[i], id, LookedAt(run, steps, i, id))
    decreases i
  {
    if i > 0 {
      TimesAreRead(c, run, steps, i - 1, id);
      var step := steps[i - 1];
      assert StepAt(c, run, steps, i - 1);
      StepKnowsItsTime(c, run[i - 1], step, run[i], id, LookedAt(run, steps, i - 1, id));
    }
  }

  // -------------------------------------------------------------------- what calls return

  /** In step `k` the call found that another one held the fetch lock. */
  ghost predicate FoundBusy(run: seq<State>, steps: seq<Step>, k: int, id: int)
    requires |run| == |steps| + 1
  {
    0 <= k < |steps| && steps[k] == TryLock(id) && run[k].holder.Some? && run[k].holder != Some(id)
  }

  ghost predicate ServedStale(s: State, id: int) {
    id in s.calls && (s.calls[id].phase.StaleCalled? || s.calls[id].phase.Stale? || s.calls[id].phase == Returned(true))
  }

  /** A call is served stale values only after it found another one at work. */
  lemma {:induction false} StaleOnlyWhileBusy(c: Settings, run: seq<State>, steps: seq<Step>, i: nat, id: int)
    requires IsRun(c, run, steps) && i < |run| && ServedStale(run[i], id)
    ensures exists k :: k < i && FoundBusy(run, steps, k, id)
    decreases i
  {
    if i > 0 {
      var s, step, s' := run[i - 1], steps[i - 1], run[i];
      assert StepAt(c, run, steps, i - 1);
      if ServedStale(s, id) {
        StaleOnlyWhileBusy(c, run, steps, i - 1, id);
      } else {
        RunKeepsInv(c, run, steps, i - 1);
        BecomesStale(c, s, step, s', id);
        assert FoundBusy(run, steps, i - 1, id);
      }
    }
  }

  lemma BecomesStale(c: Settings, s: State, step: Step, s': State, id: int)
    requires Inv(c, s) && Next(c, s, step, s') && !ServedStale(s, id) && ServedStale(s', id)
    ensures step == TryLock(id) && s.holder.Some? && s.holder != Some(id)
  {
    if id in s.calls {
      assert CallOk(c, s, id);
    }
  }

  /** Stamp `j` covers a returned value: it holds it for the namespace and interface; and unless
      the call fetched it itself, it was younger than the time to live when the call read the
      clock, or the call had found another one fetching. */
  ghost predicate Justifies(c: Settings, run: seq<State>, steps: seq<Step>, i: nat, id: int, ifname: string, j: int)
    requires i < |run| && |run| == |steps| + 1 && id in run[i].calls && ifname in run[i].calls[id].results
  {
    var call, log, looked := run[i].calls[id], LogOf(run, steps, i), LookedAt(run, steps, i, id);
    && 0 <= j < |log| && Holds(log[j], call.ns, ifname, call.results[ifname])
    && (log[j].caller == id || (looked.Some? && looked.value - log[j].at < c.ttl)
          || (call.phase == Returned(true) && exists k :: k < i && FoundBusy(run, steps, k, id)))
  }

  /** Whatever a call returns, some fetch answered it for that namespace and interface, with the
      clock at the time of its store; and what was as old as the time to live when the call last
      read the clock was returned only because another call held the fetch lock. */
  lemma ReturnedValues(c: Settings, run: seq<State>, steps: seq<Step>, i: nat, id: int, ifname: string)
    requires IsRun(c, run, steps) && i < |run| && id in run[i].calls && run[i].calls[id].phase.Returned?
      && ifname in run[i].calls[id].results
    ensures exists j :: Justifies(c, run, steps, i, id, ifname, j)
  {
    RunKeepsInv(c, run, steps, i);
    LogIsHonest(c, run, steps, i);
    TimesAreRead(c, run, steps, i, id);
    assert CallOk(c, run[i], id);
    var call := run[i].calls[id];
    assert IsCovered(c, run[i].log, id, call, ifname, call.results[ifname]);
    var j :| 0 <= j < |run[i].log| && Covers(c, id, call, ifname, call.results[ifname], run[i].log[j]);
    if call.phase == Returned(true) {
      StaleOnlyWhileBusy(c, run, steps, i, id);
    }
    assert Justifies(c, run, steps, i, id, ifname, j);
  }

  /** A lookup serves a name exactly when its last stored value survives and, unless stale values
      are allowed, is younger than the time to live; and it serves that value. */
  lemma LookupServesTheLast(c: Settings, log: seq<Stamp>, entries: Entries, ns: string, ifnames: set<string>, now: int,
                            stale: bool, i: string)
    requires CacheIs(c, log, entries)
    ensures var found := Lookup(c, entries, ns, ifnames, now, stale);
      i in found <==> i in ifnames && exists j ::
        Survives(c, log, Key(ns, i), j) && (stale || now - log[j].at < c.ttl)
    ensures var found := Lookup(c, entries, ns, ifnames, now, stale);
      forall j :: i in found && LastFor(log, Key(ns, i), j) ==> found[i] == log[j].values[i]
  {
    var k := Key(ns, i);
    if k in entries {
      assert InCache(c, log, entries, k);
      var j :| Survives(c, log, k, j) && entries[k] == Entry(log[j].values[i], log[j].at);
      forall m | LastFor(log, k, m)
        ensures m == j
      {
        LastIsUnique(log, k, m, j);
      }
    }
  }

  /** A value of the name, younger than the time to live, is the last that was stored. */
  ghost predicate FreshlyStored(c: Settings, log: seq<Stamp>, k: Key, now: int) {
    exists j :: LastFor(log, k, j) && now - log[j].at < c.ttl
  }

  /** A call that fetches asks for exactly the names without a fresh value. */
  lemma FetchesWhatIsNotFresh(c: Settings, run: seq<State>, steps: seq<Step>, i: nat, id: int, ifname: string)
    requires IsRun(c, run, steps) && i < |steps| && c.ttl <= c.retention
    requires steps[i] == ReadEntries(id) && id in run[i + 1].calls && run[i + 1].calls[id].phase.Fetching?
    ensures var call, looked := run[i + 1].calls[id], LookedAt(run, steps, i, id);
      && looked.Some?
      && (ifname in call.asked <==>
            ifname in call.ifnames && !FreshlyStored(c, LogOf(run, steps, i), Key(call.ns, ifname), looked.value))
  {
    RunKeepsInv(c, run, steps, i);
    LogIsHonest(c, run, steps, i);
    TimesAreRead(c, run, steps, i, id);
    assert StepAt(c, run, steps, i);
    assert CallOk(c, run[i], id);
    var call, log := run[i].calls[id], run[i].log;
    assert Done(run[i]) == log;
    LookupServesTheLast(c, log, run[i].entries, call.ns, call.ifnames, call.readAt, false, ifname);
    FreshSurvives(c, log, Key(call.ns, ifname), call.readAt);
  }

  lemma FreshSurvives(c: Settings, log: seq<Stamp>, k: Key, now: int)
    requires AllBy(log, now) && c.ttl <= c.retention
    ensures FreshlyStored(c, log, k, now) <==> exists j :: Survives(c, log, k, j) && (false || now - log[j].at < c.ttl)
  {
    if FreshlyStored(c, log, k, now) {
      var j :| LastFor(log, k, j) && now - log[j].at < c.ttl;
      assert log[|log| - 1].at <= now;
      assert Survives(c, log, k, j);
    }
  }

  // --------------------------------------------------------------- stores during a lookup

  lemma {:induction false} LogGrows(run: seq<State>, steps: seq<Step>, k: nat, i: nat)
    requires |run| == |steps| + 1 && k <= i <= |steps|
    ensures LogOf(run, steps, k) <= LogOf(run, steps, i)
    decreases i
  {
    if k < i {
      LogGrows(run, steps, k, i - 1);
    }
  }

  lemma StepKeepsTime(c: Settings, s: State, step: Step, s': State)
    requires Next(c, s, step, s')
    ensures s.clock <= s'.clock
  {
  }

  ghost predicate TimePasses(run: seq<State>) {
    forall i {:trigger run[i].clock} :: 0 < i < |run| ==> run[i - 1].clock <= run[i].clock
  }

  lemma RunTakesTime(c: Settings, run: seq<State>, steps: seq<Step>)
    requires IsRun(c, run, steps)
    ensures TimePasses(run)
  {
    forall i | 0 < i < |run|
      ensures run[i - 1].clock <= run[i].clock
    {
      var step := steps[i - 1];
      assert StepAt(c, run, steps, i - 1);
      StepKeepsTime(c, run[i - 1], step, run[i]);
    }
  }

  lemma {:induction false} ClockRises(run: seq<State>, k: nat, i: nat)
    requires TimePasses(run) && k <= i < |run|
    ensures run[k].clock <= run[i].clock
    decreases i
  {
    if k < i {
      ClockRises(run, k, i - 1);
    }
  }

  /** Stamps made before a step are no later than the clock then. */
  lemma EarlierStamps(c: Settings, run: seq<State>, steps: seq<Step>, k: nat, i: nat, j: nat)
    requires IsRun(c, run, steps) && k <= i < |run| && j < |LogOf(run, steps, k)|
    ensures j < |LogOf(run, steps, i)| && LogOf(run, steps, i)[j].at <= run[k].clock
  {
    LogGrows(run, steps, k, i);
    RunKeepsInv(c, run, steps, k);
    LogIsHonest(c, run, steps, k);
  }

  /** Every stamp was made in some step. */
  lemma {:induction false} StampedAt(run: seq<State>, steps: seq<Step>, i: nat, j: nat) returns (m: nat)
    requires |run| == |steps| + 1 && i < |run| && j < |LogOf(run, steps, i)|
    ensures m < i && j < |LogOf(run, steps, m + 1)| && LogOf(run, steps, i)[j].at == run[m].clock
    decreases i
  {
    var before := LogOf(run, steps, i - 1);
    if j < |before| {
      m := StampedAt(run, steps, i - 1, j);
    } else {
      m := i - 1;
    }
  }

  /** Stamps made after it are no earlier. */
  lemma LaterStamps(c: Settings, run: seq<State>, steps: seq<Step>, k: nat, i: nat, j: nat)
    requires IsRun(c, run, steps) && k <= i < |run| && |LogOf(run, steps, k)| <= j < |LogOf(run, steps, i)|
    ensures LogOf(run, steps, i)[j].at >= run[k].clock
  {
    var m := StampedAt(run, steps, i, j);
    if m < k {
      LogGrows(run, steps, m + 1, k);
    } else {
      RunTakesTime(c, run, steps);
      ClockRises(run, k, m);
    }
  }

  // A store can complete between the two halves of a lookup, so a call can return a value that
  // is younger than the time it read.

  ghost predicate EndsIn(c: Settings, run: seq<State>, steps: seq<Step>, s: State) {
    IsRun(c, run, steps) && run[|run| - 1] == s
  }

  lemma GoOn(c: Settings, run: seq<State>, steps: seq<Step>, s: State, step: Step, s': State)
    returns (run': seq<State>, steps': seq<Step>)
    requires EndsIn(c, run, steps, s) && Next(c, s, step, s')
    ensures EndsIn(c, run', steps', s') && run' == run + [s'] && steps' == steps + [step]
  {
    run', steps' := run + [s'], steps + [step];
    forall i | 0 <= i < |steps'|
      ensures StepAt(c, run', steps', i)
    {
      if i < |steps| {
        assert StepAt(c, run, steps, i);
        assert steps'[i] == steps[i] && run'[i] == run[i] && run'[i + 1] == run[i + 1];
      }
    }
  }

  ghost function Asking(v: Value, phase: Phase): Call {
    Call(v.ns, {v.ifname}, phase, map[], 0, {}, {})
  }

  ghost function Alone(holder: Option<int>, call: Call): State {
    State(0, map[], holder, map[0 := call], [])
  }

  ghost function Answer(v: Value): Values {
    map[v.ifname := v]
  }

  ghost function Fetcher(v: Value): Call {
    Asking(v, Fetched(Answer(v))).(asked := {v.ifname})
  }

  lemma NothingFound(c: Settings, v: Value)
    ensures var found := Lookup(c, map[], v.ns, {v.ifname}, 0, false);
      found == map[] && found.Keys == {} && {v.ifname} - found.Keys == {v.ifname}
  {
  }

  lemma FirstLookupMisses(c: Settings, v: Value)
    ensures Next(c, Alone(None, Asking(v, First)), ReadEntries(0), Alone(None, Asking(v, Trying)))
  {
    NothingFound(c, v);
  }

  lemma SecondLookupMisses(c: Settings, v: Value)
    ensures Next(c, Alone(Some(0), Asking(v, Second)), ReadEntries(0),
              Alone(Some(0), Asking(v, Fetching).(asked := {v.ifname})))
  {
    NothingFound(c, v);
  }

  /** The first call, up to its lock. */
  lemma LockOnce(c: Settings, v: Value) returns (run: seq<State>, steps: seq<Step>)
    ensures EndsIn(c, run, steps, Alone(Some(0), Asking(v, Locked)))
  {
    var start := State(0, map[], None, map[], []);
    run, steps := [start], [];
    run, steps := GoOn(c, run, steps, start, Begin(0, v.ns, {v.ifname}), Alone(None, Asking(v, Called)));
    run, steps := GoOn(c, run, steps, Alone(None, Asking(v, Called)), ReadClock(0), Alone(None, Asking(v, First)));
    FirstLookupMisses(c, v);
    run, steps := GoOn(c, run, steps, Alone(None, Asking(v, First)), ReadEntries(0), Alone(None, Asking(v, Trying)));
    run, steps := GoOn(c, run, steps, Alone(None, Asking(v, Trying)), TryLock(0), Alone(Some(0), Asking(v, Locked)));
  }

  /** Up to the answer of its fetch. */
  lemma FetchOnce(c: Settings, v: Value) returns (run: seq<State>, steps: seq<Step>)
    ensures EndsIn(c, run, steps, Alone(Some(0), Fetcher(v)))
  {
    run, steps := LockOnce(c, v);
    run, steps := GoOn(c, run, steps, Alone(Some(0), Asking(v, Locked)), ReadClock(0),
      Alone(Some(0), Asking(v, Second)));
    SecondLookupMisses(c, v);
    var asking := Asking(v, Fetching).(asked := {v.ifname});
    run, steps := GoOn(c, run, steps, Alone(Some(0), Asking(v, Second)), ReadEntries(0), Alone(Some(0), asking));
    assert FetchFor(v.ns, Answer(v));
    run, steps := GoOn(c, run, steps, Alone(Some(0), asking), Fetch(0, Answer(v)), Alone(Some(0), Fetcher(v)));
  }

  ghost function Two(clock: int, a: Call, b: Call): State {
    State(clock, map[], Some(0), map[0 := a, 1 := b], [])
  }

  /** The second call reads the clock at 0; then time passes. */
  lemma SecondReadsClock(c: Settings, v: Value) returns (run: seq<State>, steps: seq<Step>)
    ensures EndsIn(c, run, steps, Two(1, Fetcher(v), Asking(v, First)))
  {
    run, steps := FetchOnce(c, v);
    run, steps := GoOn(c, run, steps, Alone(Some(0), Fetcher(v)), Begin(1, v.ns, {v.ifname}),
      Two(0, Fetcher(v), Asking(v, Called)));
    run, steps := GoOn(c, run, steps, Two(0, Fetcher(v), Asking(v, Called)), ReadClock(1),
      Two(0, Fetcher(v), Asking(v, First)));
    run, steps := GoOn(c, run, steps, Two(0, Fetcher(v), Asking(v, First)), Pass(1),
      Two(1, Fetcher(v), Asking(v, First)));
  }

  ghost function Stored(v: Value, b: Call): State {
    State(1, map[Key(v.ns, v.ifname) := Entry(v, 1)], None,
          map[0 := Fetcher(v).(phase := Returned(false), results := Answer(v), own := {v.ifname}), 1 := b],
          [Stamp(0, v.ns, Answer(v), 1)])
  }

  ghost function AboutToStore(v: Value): State {
    Two(1, Fetcher(v).(phase := Storing(Answer(v), 1)), Asking(v, First)).(log := [Stamp(0, v.ns, Answer(v), 1)])
  }

  lemma StoredAnswer(c: Settings, v: Value)
    requires c.retention > 0
    ensures StoreIn(c, map[], v.ns, Answer(v), 1) == map[Key(v.ns, v.ifname) := Entry(v, 1)]
    ensures Fetcher(v).results + Answer(v) == Answer(v) && Answer(v).Keys == {v.ifname}
  {
  }

  lemma StoreLands(c: Settings, v: Value)
    requires c.retention > 0
    ensures Next(c, AboutToStore(v), Store(0), Stored(v, Asking(v, First)))
  {
    StoredAnswer(c, v);
    var s, s' := AboutToStore(v), Stored(v, Asking(v, First));
    assert s'.calls[0] == s.calls[0].(phase := Returned(false), results := s.calls[0].results + Answer(v),
      own := Answer(v).Keys);
    assert s'.calls == s.calls[0 := s'.calls[0]];
  }

  lemma LookupHits(c: Settings, v: Value)
    requires c.ttl > 0
    ensures Next(c, Stored(v, Asking(v, First)), ReadEntries(1),
              Stored(v, Asking(v, First).(phase := Returned(false), results := Answer(v))))
  {
    var found := Lookup(c, map[Key(v.ns, v.ifname) := Entry(v, 1)], v.ns, {v.ifname}, 0, false);
    assert found == Answer(v) && found.Keys == {v.ifname};
  }

  /** The second call read the clock at 0 and returns, as fresh, a value stored at 1. */
  lemma YoungerThanTheRead(c: Settings, v: Value) returns (run: seq<State>, steps: seq<Step>)
    requires c.ttl > 0 && c.retention > 0
    ensures IsRun(c, run, steps) && LogOf(run, steps, |steps|) == [Stamp(0, v.ns, Answer(v), 1)]
    ensures LookedAt(run, steps, |steps|, 1) == Some(0)
    ensures var calls := run[|steps|].calls;
      1 in calls && calls[1].phase == Returned(false) && calls[1].results == Answer(v)
  {
    run, steps := SecondReadsClock(c, v);
    run, steps := GoOn(c, run, steps, Two(1, Fetcher(v), Asking(v, First)), ReadClock(0), AboutToStore(v));
    StoreLands(c, v);
    run, steps := GoOn(c, run, steps, AboutToStore(v), Store(0), Stored(v, Asking(v, First)));
    LookupHits(c, v);
    var last := Stored(v, Asking(v, First).(phase := Returned(false), results := Answer(v)));
    run, steps := GoOn(c, run, steps, Stored(v, Asking(v, First)), ReadEntries(1), last);
    LogIsHonest(c, run, steps, |steps|);
    TimesAreRead(c, run, steps, |steps|, 1);
  }

  // ------------------------------------------------------------------- what a lookup does

  /** Every requested name has a stored value that the lookup may serve. */
  ghost predicate AllServed(c: Settings, log: seq<Stamp>, call: Call, stale: bool) {
    forall i :: i in call.ifnames ==>
      exists j :: Survives(c, log, Key(call.ns, i), j) && (stale || call.readAt - log[j].at < c.ttl)
  }

  /** The results are the last values stored for the requested names. */
  ghost predicate ServesLast(log: seq<Stamp>, call: Call) {
    forall i, j :: i in call.results && LastFor(log, Key(call.ns, i), j) ==> call.results[i] == log[j].values[i]
  }

  lemma FoundAll(c: Settings, log: seq<Stamp>, entries: Entries, call: Call, stale: bool)
    requires CacheIs(c, log, entries)
    ensures var found := Lookup(c, entries, call.ns, call.ifnames, call.readAt, stale);
      && (found.Keys == call.ifnames <==> AllServed(c, log, call, stale))
      && ServesLast(log, call.(results := found))
  {
    var found := Lookup(c, entries, call.ns, call.ifnames, call.readAt, stale);
    forall x
      ensures x in found <==> x in call.ifnames && exists j ::
        Survives(c, log, Key(call.ns, x), j) && (stale || call.readAt - log[j].at < c.ttl)
      ensures forall j :: x in found && LastFor(log, Key(call.ns, x), j) ==> found[x] == log[j].values[x]
    {
      LookupServesTheLast(c, log, entries, call.ns, call.ifnames, call.readAt, stale, x);
    }
    assert found.Keys <= call.ifnames;
  }

  /** A call returns from a lookup exactly when every name can be served, and then with the last
      stored value of each; else it goes on to the lock, to wait, or to its fetch. */
  lemma LookupDecides(c: Settings, run: seq<State>, steps: seq<Step>, i: nat, id: int)
    requires IsRun(c, run, steps) && i < |steps| && steps[i] == ReadEntries(id)
    ensures id in run[i].calls && id in run[i + 1].calls
    ensures var call, after, log := run[i].calls[id], run[i + 1].calls[id], Done(run[i]);
      && (after.phase.Returned? <==> AllServed(c, log, call, call.phase.Stale?))
      && (after.phase.Returned? ==> after.results.Keys == call.ifnames && ServesLast(log, after))
      && (!after.phase.Returned? ==>
            if call.phase.First? then after.phase.Trying? else if call.phase.Stale? then after.phase.Waiting?
            else call.phase.Second? && after.phase.Fetching?)
  {
    RunKeepsInv(c, run, steps, i);
    assert StepAt(c, run, steps, i);
    var call := run[i].calls[id];
    FoundAll(c, Done(run[i]), run[i].entries, call, call.phase.Stale?);
  }

  /** A call asks what it began with. */
  lemma {:induction false} AsksWhatItBegan(c: Settings, run: seq<State>, steps: seq<Step>, i: nat, id: int)
    requires IsRun(c, run, steps) && i < |run| && id in run[i].calls
    ensures exists k :: 0 <= k < i && steps[k] == Begin(id, run[i].calls[id].ns, run[i].calls[id].ifnames)
    decreases i
  {
    if i > 0 {
      assert StepAt(c, run, steps, i - 1);
      if id in run[i - 1].calls {
        AsksWhatItBegan(c, run, steps, i - 1, id);
        SameQuestion(c, run[i - 1], steps[i - 1], run[i], id);
      } else {
        NewCall(c, run[i - 1], steps[i - 1], run[i], id);
      }
    }
  }

  lemma SameQuestion(c: Settings, s: State, step: Step, s': State, id: int)
    requires Next(c, s, step, s') && id in s.calls
    ensures id in s'.calls && s'.calls[id].ns == s.calls[id].ns && s'.calls[id].ifnames == s.calls[id].ifnames
  {
  }

  lemma NewCall(c: Settings, s: State, step: Step, s': State, id: int)
    requires Next(c, s, step, s') && id !in s.calls && id in s'.calls
    ensures step == Begin(id, s'.calls[id].ns, s'.calls[id].ifnames)
  {
  }

  // ------------------------------------------------------------------------ no call is stuck

  ghost predicate CanDo(c: Settings, s: State, step: Step) {
    exists s' :: Next(c, s, step, s')
  }

  /** The next step of a call that has not returned, which waits for nothing but the lock. */
  ghost predicate CanGoOn(c: Settings, s: State, id: int)
    requires id in s.calls
  {
    match s.calls[id].phase
    case Called => CanDo(c, s, ReadClock(id))
    case First => CanDo(c, s, ReadEntries(id))
    case Trying => CanDo(c, s, TryLock(id))
    case StaleCalled => CanDo(c, s, ReadClock(id))
    case Stale => CanDo(c, s, ReadEntries(id))
    case Waiting => s.holder.None? ==> CanDo(c, s, Lock(id))
    case Locked => CanDo(c, s, ReadClock(id))
    case Second => CanDo(c, s, ReadEntries(id))
    case Fetching => forall values :: FetchFor(s.calls[id].ns, values) ==> CanDo(c, s, Fetch(id, values))
    case Fetched(_) => CanDo(c, s, ReadClock(id))
    case Storing(_, _) => CanDo(c, s, Store(id))
    case Returned(_) => true
  }

  lemma ClockCanBeRead(c: Settings, s: State, id: int)
    requires id in s.calls
    requires var p := s.calls[id].phase; p.Called? || p.StaleCalled? || p.Locked? || p.Fetched?
    ensures CanDo(c, s, ReadClock(id))
  {
    var call := s.calls[id].(readAt := s.clock);
    var s' := match call.phase
      case Called => Update(s, id, call.(phase := First))
      case StaleCalled => Update(s, id, call.(phase := Stale))
      case Locked => Update(s, id, call.(phase := Second))
      case Fetched(values) =>
        Update(s, id, s.calls[id].(phase := Storing(values, s.clock)))
          .(log := s.log + [Stamp(id, call.ns, values, s.clock)])
      case _ => s;
    assert Next(c, s, ReadClock(id), s');
  }

  lemma EntriesCanBeRead(c: Settings, s: State, id: int)
    requires id in s.calls && (s.calls[id].phase.First? || s.calls[id].phase.Stale? || s.calls[id].phase.Second?)
    ensures CanDo(c, s, ReadEntries(id))
  {
    var call := s.calls[id];
    var found := Lookup(c, s.entries, call.ns, call.ifnames, call.readAt, call.phase.Stale?);
    var all := call.(phase := Returned(call.phase.Stale?), results := found);
    var s' :=
      if found.Keys == call.ifnames then
        if call.phase.Second? then Update(s, id, all).(holder := None) else Update(s, id, all)
      else if call.phase.First? then Update(s, id, call.(phase := Trying))
      else if call.phase.Stale? then Update(s, id, call.(phase := Waiting))
      else Update(s, id, call.(phase := Fetching, asked := call.ifnames - found.Keys, results := found));
    assert Next(c, s, ReadEntries(id), s');
  }

  lemma LockCanBeTaken(c: Settings, s: State, id: int)
    requires id in s.calls
    ensures s.calls[id].phase.Trying? ==> CanDo(c, s, TryLock(id))
    ensures s.calls[id].phase.Waiting? && s.holder.None? ==> CanDo(c, s, Lock(id))
  {
    var taken := Update(s, id, s.calls[id].(phase := Locked)).(holder := Some(id));
    var busy := Update(s, id, s.calls[id].(phase := StaleCalled));
    if s.calls[id].phase.Trying? {
      assert Next(c, s, TryLock(id), taken) || Next(c, s, TryLock(id), busy);
    } else if s.calls[id].phase.Waiting? && s.holder.None? {
      assert Next(c, s, Lock(id), taken);
    }
  }

  lemma FetchCanEnd(c: Settings, s: State, id: int)
    requires id in s.calls
    ensures s.calls[id].phase.Fetching? ==>
      forall values :: FetchFor(s.calls[id].ns, values) ==> CanDo(c, s, Fetch(id, values))
    ensures s.calls[id].phase.Storing? ==> CanDo(c, s, Store(id))
  {
    var call := s.calls[id];
    if call.phase.Fetching? {
      forall values | FetchFor(call.ns, values)
        ensures CanDo(c, s, Fetch(id, values))
      {
        assert Next(c, s, Fetch(id, values), Update(s, id, call.(phase := Fetched(values))));
      }
    } else if call.phase.Storing? {
      var values, now := call.phase.toStore, call.phase.at;
      var s' :=
        Update(s, id, call.(phase := Returned(false), results := call.results + values, own := values.Keys))
          .(entries := StoreIn(c, s.entries, call.ns, values, now), holder := None);
      assert Next(c, s, Store(id), s');
    }
  }

  /** In every state every call that has not returned can take its next step, or waits for a lock
      that another one holds. */
  lemma NoCallIsStuck(c: Settings, s: State, id: int)
    requires id in s.calls
    ensures CanGoOn(c, s, id)
  {
    match s.calls[id].phase {
      case First => EntriesCanBeRead(c, s, id);
      case Stale => EntriesCanBeRead(c, s, id);
      case Second => EntriesCanBeRead(c, s, id);
      case Called => ClockCanBeRead(c, s, id);
      case StaleCalled => ClockCanBeRead(c, s, id);
      case Locked => ClockCanBeRead(c, s, id);
      case Fetched(_) => ClockCanBeRead(c, s, id);
      case Trying => LockCanBeTaken(c, s, id);
      case Waiting => LockCanBeTaken(c, s, id);
      case _ => FetchCanEnd(c, s, id);
    }
  }
}
