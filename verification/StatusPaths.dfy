/** Reading topology labels back: the path of domains a Node's labels describe, and the keys
    that the status builder files paths under. */
module StatusPaths {
  import opened Wrappers
  import opened Decimal
  import opened LabelSyntax

  /** The value of the label for `tier`, "" when there is none. */
  ghost function TierValue(s: Syntax, labels: Labels, tier: int): string {
    if s.render(tier) in labels then labels[s.render(tier)] else ""
  }

  /** The values for `tier`, `tier` + 1, ... up to the first tier without a value. */
  ghost function PathFrom(s: Syntax, labels: Labels, tier: int): seq<string>
    decreases MAX_INT - tier
  {
    if tier <= MAX_INT && TierValue(s, labels, tier) != ""
      then [TierValue(s, labels, tier)] + PathFrom(s, labels, tier + 1) else []
  }

  /** The path of a Node, lowest tier first. */
  ghost function PathOf(s: Syntax, labels: Labels): seq<string> {
    PathFrom(s, labels, 1)
  }

  /** No tier with a value lies above a gap. */
  ghost predicate Contiguous(s: Syntax, labels: Labels) {
    forall t {:trigger TierValue(s, labels, t)} :: 1 <= t <= MAX_INT && TierValue(s, labels, t) != "" ==>
      t <= |PathOf(s, labels)|
  }

  /** `path` holds the value of tier `tier` + i at index i. */
  ghost predicate HoldsTier(s: Syntax, labels: Labels, tier: int, path: seq<string>, i: int)
    requires 0 <= i < |path|
  {
    tier + i <= MAX_INT && path[i] != "" && path[i] == TierValue(s, labels, tier + i)
  }

  lemma {:induction false} PathFromAt(s: Syntax, labels: Labels, tier: int, path: seq<string>)
    requires forall i {:trigger HoldsTier(s, labels, tier, path, i)} :: 0 <= i < |path| ==>
      HoldsTier(s, labels, tier, path, i)
    requires tier + |path| > MAX_INT || TierValue(s, labels, tier + |path|) == ""
    ensures PathFrom(s, labels, tier) == path
    decreases |path|
  {
    if |path| > 0 {
      assert HoldsTier(s, labels, tier, path, 0);
      var next, rest := tier + 1, path[1..];
      forall i | 0 <= i < |rest|
        ensures HoldsTier(s, labels, next, rest, i)
      {
        assert HoldsTier(s, labels, tier, path, i + 1);
      }
      PathFromAt(s, labels, next, rest);
      assert path == [path[0]] + rest;
    }
  }

  lemma {:induction false} PathFromIs(s: Syntax, labels: Labels, tier: int, i: nat)
    requires i < |PathFrom(s, labels, tier)|
    ensures tier + i <= MAX_INT && PathFrom(s, labels, tier)[i] != ""
      && PathFrom(s, labels, tier)[i] == TierValue(s, labels, tier + i)
    decreases i
  {
    if i > 0 {
      PathFromIs(s, labels, tier + 1, i - 1);
    }
  }

  // ------------------------------------------------------------------- labelsByTier

  /** `values` holds the non-empty label values by tier. */
  ghost predicate ByTier(s: Syntax, labels: Labels, values: map<int, string>) {
    forall t {:trigger TierValue(s, labels, t)} {:trigger t in values} ::
      if t in values then 1 <= t <= MAX_INT && values[t] == TierValue(s, labels, t) && values[t] != ""
      else 1 <= t <= MAX_INT ==> TierValue(s, labels, t) == ""
  }

  /** `values` holds the label values under the keys outside `todo`. */
  ghost predicate ByTierSoFar(s: Syntax, labels: Labels, todo: set<string>, values: map<int, string>) {
    forall t {:trigger s.render(t)} {:trigger t in values} ::
      if t in values then 1 <= t <= MAX_INT && s.render(t) in labels && s.render(t) !in todo
        && values[t] == labels[s.render(t)] && values[t] != ""
      else 1 <= t <= MAX_INT && s.render(t) in labels && s.render(t) !in todo ==> labels[s.render(t)] == ""
  }

  /** labelsByTier: two keys never resolve to one tier, so the duplicate error is unreachable. */
  method LabelsByTier(s: Syntax, labels: Labels) returns (r: Result<map<int, string>, string>)
    requires Lawful(s)
    ensures r.Ok? && ByTier(s, labels, r.value)
  {
    var values: map<int, string> := map[];
    var todo := labels.Keys;
    while todo != {}
      invariant todo <= labels.Keys && ByTierSoFar(s, labels, todo, values)
      decreases todo
    {
      var k :| k in todo;
      FileByTier(s, labels, todo, values, k);
      todo := todo - {k};
      if s.matchTier(k).Some? && labels[k] != "" {
        var tier := s.matchTier(k).value;
        if Clashes(values, tier, labels[k]) {
          return Err(k);
        }
        values := values[tier := labels[k]];
      }
    }
    r := Ok(values);
  }

  predicate Clashes(values: map<int, string>, tier: int, value: string) {
    tier in values && values[tier] != value
  }

  lemma FileByTier(s: Syntax, labels: Labels, todo: set<string>, values: map<int, string>, k: string)
    requires Lawful(s) && todo <= labels.Keys && k in todo && ByTierSoFar(s, labels, todo, values)
    ensures s.matchTier(k).Some? ==> s.matchTier(k).value !in values
    ensures ByTierSoFar(s, labels, todo - {k},
                        if s.matchTier(k).Some? && labels[k] != "" then values[s.matchTier(k).value := labels[k]]
                          else values)
  {
    forall t | 1 <= t <= MAX_INT
      ensures s.render(t) == k <==> s.matchTier(k) == Some(t)
    {
      assert s.matchTier(s.render(t)) == Some(t);
    }
  }

  /** The tiers of a Node in ascending order, each of which must be the next one expected. */
  method ReadPath(s: Syntax, labels: Labels) returns (r: Result<seq<string>, string>)
    requires Lawful(s)
    ensures r.Ok? <==> Contiguous(s, labels)
    ensures r.Ok? ==> r.value == PathOf(s, labels)
  {
    var read := LabelsByTier(s, labels);
    match read
    case Err(e) =>
      return Err(e);
    case Ok(values) =>
      var path: seq<string> := [];
      var rest := values;
      while rest != map[]
        invariant PathRead(s, labels, values, rest, path)
        decreases |rest|
      {
        var expected := |path| + 1;
        if expected !in rest {
          GapFound(s, labels, values, rest, path);
          return Err("discontinuous");
        }
        ReadOneMore(s, labels, values, rest, path);
        path := path + [rest[expected]];
        rest := rest - {expected};
      }
      PathComplete(s, labels, values, path);
      r := Ok(path);
  }

  /** `path` holds the values of the tiers read so far, `rest` the others. */
  ghost predicate PathRead(s: Syntax, labels: Labels, values: map<int, string>, rest: map<int, string>,
                           path: seq<string>) {
    && ByTier(s, labels, values)
    && (forall i {:trigger path[i]} :: 0 <= i < |path| ==> i + 1 in values && path[i] == values[i + 1])
    && (forall t {:trigger t in rest} :: t in rest <==> t in values && t > |path|)
    && (forall t {:trigger rest[t]} :: t in rest ==> rest[t] == values[t])
  }

  lemma ReadOneMore(s: Syntax, labels: Labels, values: map<int, string>, rest: map<int, string>, path: seq<string>)
    requires PathRead(s, labels, values, rest, path) && |path| + 1 in rest
    ensures PathRead(s, labels, values, rest - {|path| + 1}, path + [rest[|path| + 1]])
  {
    var longer := path + [rest[|path| + 1]];
    forall i | 0 <= i < |longer|
      ensures i + 1 in values && longer[i] == values[i + 1]
    {
      if i < |path| {
        var v := path[i];
        assert longer[i] == v;
      }
    }
  }

  lemma GapFound(s: Syntax, labels: Labels, values: map<int, string>, rest: map<int, string>, path: seq<string>)
    requires PathRead(s, labels, values, rest, path) && rest != map[] && |path| + 1 !in rest
    ensures !Contiguous(s, labels)
  {
    PathSoFar(s, labels, values, rest, path);
    SomeTier(rest);
    var t :| t in rest;
    assert TierValue(s, labels, t) != "";
  }

  lemma SomeTier(m: map<int, string>)
    requires m != map[]
    ensures exists t :: t in m
  {
    if forall t :: t !in m {
      assert false;
    }
  }

  lemma PathComplete(s: Syntax, labels: Labels, values: map<int, string>, path: seq<string>)
    requires PathRead(s, labels, values, map[], path)
    ensures path == PathOf(s, labels) && Contiguous(s, labels)
  {
    PathSoFar(s, labels, values, map[], path);
    forall t | 1 <= t <= MAX_INT && TierValue(s, labels, t) != ""
      ensures t <= |path|
    {
      assert t in values;
    }
  }

  lemma PathSoFar(s: Syntax, labels: Labels, values: map<int, string>, rest: map<int, string>, path: seq<string>)
    requires PathRead(s, labels, values, rest, path) && |path| + 1 !in rest
    ensures path == PathOf(s, labels)
  {
    forall i | 0 <= i < |path|
      ensures HoldsTier(s, labels, 1, path, i)
    {
      var v := path[i];
      assert i + 1 in values && v == values[i + 1];
    }
    assert |path| + 1 !in values;
    assert 1 + |path| <= MAX_INT ==> TierValue(s, labels, 1 + |path|) == "";
    PathFromAt(s, labels, 1, path);
  }
}
