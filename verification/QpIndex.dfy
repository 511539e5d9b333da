/** Joining queue pair counters with connection info: by exact key, else by a queue pair
    number that only one entry has; and removing entries of dead processes. */
module QpIndex {
  import opened Wrappers
  import opened FlowMetrics

  datatype Info = Info(device: string, port: int, destination: string, destinationQpn: int)

  type Infos = map<QpKey, Info>

  // ------------------------------------------------------------------ specification

  /** The entries with this queue pair number. */
  ghost function Sharing(infos: Infos, qpn: int): set<QpKey> {
    set k | k in infos && k.qpn == qpn
  }

  /** The exact entry, else the only entry with that number, else nothing. */
  ghost predicate IsLookup(infos: Infos, key: QpKey, found: Option<Info>) {
    if key in infos then found == Some(infos[key])
    else if |Sharing(infos, key.qpn)| != 1 then found == None
    else exists k :: k in Sharing(infos, key.qpn) && found == Some(infos[k])
  }

  // ----------------------------------------------------------------------- the index

  /** What the two lists know about one number. */
  ghost predicate NumberIndexed(infos: Infos, byQpn: map<int, Info>, ambiguous: set<int>, qpn: int) {
    && (qpn in byQpn <==> Sharing(infos, qpn) != {})
    && (qpn in ambiguous <==> |Sharing(infos, qpn)| > 1)
    && (|Sharing(infos, qpn)| == 1 ==> exists k :: k in Sharing(infos, qpn) && qpn in byQpn && byQpn[qpn] == infos[k])
  }

  class QpInfoIndex {
    var exact: Infos
    var byQpn: map<int, Info>
    var ambiguous: set<int>

    ghost predicate Valid()
      reads this
    {
      forall qpn {:trigger NumberIndexed(exact, byQpn, ambiguous, qpn)} :: NumberIndexed(exact, byQpn, ambiguous, qpn)
    }

    constructor ()
      ensures Valid() && exact == map[]
    {
      exact, byQpn, ambiguous := map[], map[], {};
      new;
      forall qpn
        ensures NumberIndexed(exact, byQpn, ambiguous, qpn)
      {
        assert Sharing(exact, qpn) == {};
      }
    }

    /** add. A second entry with the same number makes it ambiguous; so does a repeated key. */
    method Add(key: QpKey, info: Info)
      modifies this
      ensures exact == old(exact)[key := info]
      ensures ambiguous == if key.qpn in old(byQpn) then old(ambiguous) + {key.qpn} else old(ambiguous)
      ensures byQpn == if key.qpn in old(byQpn) then old(byQpn) else old(byQpn)[key.qpn := info]
      ensures old(Valid()) && key !in old(exact) ==> Valid()
    {
      ghost var before, byQpn0, ambiguous0 := exact, byQpn, ambiguous;
      exact := exact[key := info];
      if key.qpn in byQpn {
        ambiguous := ambiguous + {key.qpn};
      } else {
        byQpn := byQpn[key.qpn := info];
      }
      forall qpn | old(Valid()) && key !in before
        ensures NumberIndexed(exact, byQpn, ambiguous, qpn)
      {
        assert NumberIndexed(before, byQpn0, ambiguous0, qpn);
        AddedNumber(before, byQpn0, ambiguous0, key, info, qpn);
      }
    }

    /** lookup. */
    method Lookup(key: QpKey) returns (found: Option<Info>)
      requires Valid()
      ensures IsLookup(exact, key, found)
    {
      assert NumberIndexed(exact, byQpn, ambiguous, key.qpn);
      if key in exact {
        return Some(exact[key]);
      }
      if key.qpn in ambiguous {
        return None;
      }
      found := if key.qpn in byQpn then Some(byQpn[key.qpn]) else None;
      NoneShared(Sharing(exact, key.qpn));
    }
  }

  lemma NoneShared(s: set<QpKey>)
    ensures |s| == 0 <==> s == {}
  {
  }

  lemma OneMoreSharing(infos: Infos, key: QpKey, info: Info, qpn: int)
    requires key !in infos
    ensures Sharing(infos[key := info], qpn) == if key.qpn == qpn then Sharing(infos, qpn) + {key}
      else Sharing(infos, qpn)
    ensures key !in Sharing(infos, qpn)
  {
  }

  lemma AddedNumber(infos: Infos, byQpn: map<int, Info>, ambiguous: set<int>, key: QpKey, info: Info, qpn: int)
    requires key !in infos && NumberIndexed(infos, byQpn, ambiguous, qpn)
    ensures
      if key.qpn in byQpn then NumberIndexed(infos[key := info], byQpn, ambiguous + {key.qpn}, qpn)
      else NumberIndexed(infos[key := info], byQpn[key.qpn := info], ambiguous, qpn)
  {
    OneMoreSharing(infos, key, info, qpn);
    NoneShared(Sharing(infos, qpn));
    if key.qpn == qpn {
      assert key in Sharing(infos[key := info], qpn);
      assert |Sharing(infos, qpn) + {key}| == |Sharing(infos, qpn)| + 1;
    }
  }

  /** The index of a map, filled in any order. */
  method BuildIndex(infos: Infos) returns (index: QpInfoIndex)
    ensures fresh(index) && index.Valid() && index.exact == infos
  {
    index := new QpInfoIndex();
    var todo := infos.Keys;
    while todo != {}
      invariant fresh(index) && index.Valid() && todo <= infos.Keys && index.exact == map k | k in infos
        && k !in todo :: infos[k]
      decreases todo
    {
      var key :| key in todo;
      index.Add(key, infos[key]);
      todo := todo - {key};
    }
  }

  // ----------------------------------------------------------------------- dead entries

  /** The numbers of counters whose process is alive. */
  ghost function LiveQpns(stats: map<QpKey, Stat>, alive: int -> bool): set<int> {
    set k | k in stats && alive(k.tgid) :: k.qpn
  }

  /** The info entries that cleanup may remove. */
  ghost predicate Removable(stats: map<QpKey, Stat>, alive: int -> bool, key: QpKey) {
    !alive(key.tgid) && key.qpn !in LiveQpns(stats, alive)
  }

  /** cleanupDeadQPs. The first iteration may fail, and the second may end early, after
      `visited`; whatever was found by then is removed. */
  method CleanupDeadQps(stats: map<QpKey, Stat>, infos: Infos, alive: int -> bool, statsFail: bool, visited: set<QpKey>)
    returns (stats': map<QpKey, Stat>, infos': Infos, removed: bool)
    requires visited <= infos.Keys
    ensures statsFail ==> stats' == stats && infos' == infos && !removed
    ensures !statsFail ==> stats' == map k | k in stats && alive(k.tgid) :: stats[k]
    ensures !statsFail ==> infos' == map k | k in infos && !(k in visited && Removable(stats, alive, k)) :: infos[k]
    ensures removed <==> infos' != infos
  {
    if statsFail {
      return stats, infos, false;
    }
    var liveQpns: set<int> := {};
    var deadStats: set<QpKey> := {};
    var todo := stats.Keys;
    while todo != {}
      invariant todo <= stats.Keys
      invariant liveQpns == set k | k in stats && k !in todo && alive(k.tgid) :: k.qpn
      invariant deadStats == set k | k in stats && k !in todo && !alive(k.tgid)
      decreases todo
    {
      var key :| key in todo;
      todo := todo - {key};
      if alive(key.tgid) {
        liveQpns := liveQpns + {key.qpn};
      } else {
        deadStats := deadStats + {key};
      }
    }
    assert liveQpns == LiveQpns(stats, alive);
    var deadInfos := set k | k in visited && !alive(k.tgid) && k.qpn !in liveQpns;
    stats' := stats - deadStats;
    infos' := infos - deadInfos;
    removed := deadInfos != {};
    if removed {
      var k :| k in deadInfos;
      assert k in infos && k !in infos';
    }
  }

  /** Cleanup never changes what a surviving counter is joined with. */
  lemma CleanupKeepsLookups(stats: map<QpKey, Stat>, infos: Infos, alive: int -> bool, infos': Infos, key: QpKey,
                            found: Option<Info>)
    requires key in stats && alive(key.tgid)
    requires infos'.Keys <= infos.Keys && (forall k :: k in infos' ==> infos'[k] == infos[k])
    requires forall k :: k in infos && k !in infos' ==> Removable(stats, alive, k)
    ensures IsLookup(infos', key, found) <==> IsLookup(infos, key, found)
  {
    assert key.qpn in LiveQpns(stats, alive);
    forall k | k in infos && k.qpn == key.qpn
      ensures k in infos'
    {
      assert !Removable(stats, alive, k);
    }
    assert Sharing(infos', key.qpn) == Sharing(infos, key.qpn);
    assert key in infos <==> key in infos';
  }
}
