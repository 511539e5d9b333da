/** Node groups of a topology status: Nodes with the same domain path, filed under the path
    joined with NUL characters, and the stable names they keep across status builds. */
module NodeGroups {
  import opened Wrappers
  import opened Decimal
  import opened LabelSyntax
  import opened Joining
  import opened Sets

  /** Nodes that share one domain path; the path runs from the highest tier down. */
  datatype NodeGroup = NodeGroup(name: string, path: seq<string>, nodes: set<string>)

  // ------------------------------------------------------------------------- keys

  /** nodeGroupKey. */
  function PathKey(path: seq<string>): string {
    Join(path, '\0')
  }

  ghost predicate AllNulFree(path: seq<string>) {
    forall i :: 0 <= i < |path| ==> NulFree(path[i])
  }

  /** Keys of different paths differ, because domain names contain no NUL. */
  lemma PathKeyInjective(p: seq<string>, q: seq<string>)
    requires p != [] && q != [] && AllNulFree(p) && AllNulFree(q) && PathKey(p) == PathKey(q)
    ensures p == q
  {
    JoinInjective(p, q, '\0');
  }

  // ------------------------------------------------------------------------ numbers

  /** How group numbers are written into names and read back. */
  datatype Numbering = Numbering(name: int -> string, number: string -> Option<int>)

  ghost predicate LawfulNumbering(w: Numbering) {
    forall k {:trigger w.name(k)} :: 1 <= k <= MAX_INT ==> w.number(w.name(k)) == Some(k) && w.name(k) != ""
  }

  const PREFIX: string := "node-group"

  /** parseNodeGroupNumber. */
  function ParseNumber(name: string): Option<int> {
    if !(PREFIX <= name) || |name| == |PREFIX| then None
    else
      match Atoi(name[|PREFIX|..])
      case Some(k) => if k <= 0 then None else Some(k)
      case None => None
  }

  function NumberedName(k: int): string {
    if k >= 0 then PREFIX + Itoa(k) else ""
  }

  function RealNumbering(): Numbering {
    Numbering(k => NumberedName(k), n => ParseNumber(n))
  }

  lemma RealNumberingIsLawful()
    ensures LawfulNumbering(RealNumbering())
  {
    forall k | 1 <= k <= MAX_INT
      ensures ParseNumber(NumberedName(k)) == Some(k)
    {
      var n := NumberedName(k);
      assert n[..|PREFIX|] == PREFIX && n[|PREFIX|..] == Itoa(k);
      AtoiOfItoa(k);
    }
  }

  // ------------------------------------------------------------------- stable names

  /** The name the previous status gives to a path, None when it has none. */
  function PreviousName(byKey: map<string, string>, path: seq<string>): Option<string> {
    if PathKey(path) in byKey && byKey[PathKey(path)] != "" then Some(byKey[PathKey(path)]) else None
  }

  /** The name of each path in the previous status; a later entry wins. */
  ghost function NameByKey(previous: seq<NodeGroup>): map<string, string> {
    if previous == [] then map[]
    else
      var last := previous[|previous| - 1];
      NameByKey(previous[..|previous| - 1])[PathKey(last.path) := last.name]
  }

  /** The numbers in use in the previous status. */
  ghost function Numbers(w: Numbering, previous: seq<NodeGroup>): set<int> {
    if previous == [] then {}
    else
      var last := previous[|previous| - 1];
      Numbers(w, previous[..|previous| - 1]) + if w.number(last.name).Some? then {w.number(last.name).value} else {}
  }

  /** The first loop of assignNodeGroupNames. */
  method RecordPrevious(w: Numbering, previous: seq<NodeGroup>) returns (byKey: map<string, string>, used: set<int>)
    ensures byKey == NameByKey(previous) && used == Numbers(w, previous)
  {
    byKey, used := map[], {};
    for j := 0 to |previous|
      invariant byKey == NameByKey(previous[..j]) && used == Numbers(w, previous[..j])
    {
      assert previous[..j + 1][..j] == previous[..j];
      byKey := byKey[PathKey(previous[j].path) := previous[j].name];
      if w.number(previous[j].name).Some? {
        used := used + {w.number(previous[j].name).value};
      }
    }
    assert previous[..|previous|] == previous;
  }

  /** Whether the path of a group has no name in the previous status. */
  ghost predicate IsNew(previous: seq<NodeGroup>, path: seq<string>) {
    PreviousName(NameByKey(previous), path).None?
  }

  /** What group i gets: its previous name, or a number that was free in the previous status,
      larger than the numbers given before it and with no free number below it. */
  ghost predicate NamedWell(w: Numbering, previous: seq<NodeGroup>, groups: seq<NodeGroup>, numbers: seq<int>,
                            result: seq<NodeGroup>, i: int)
    requires |numbers| == |groups| == |result| && 0 <= i < |groups|
  {
    && result[i].path == groups[i].path && result[i].nodes == groups[i].nodes
    && (!IsNew(previous, groups[i].path) ==> Some(result[i].name) == PreviousName(NameByKey(previous), groups[i].path))
    && (IsNew(previous, groups[i].path) ==>
          && result[i].name == w.name(numbers[i]) && numbers[i] >= 1 && numbers[i] !in Numbers(w, previous)
          && (forall j :: 0 <= j < i ==> numbers[j] < numbers[i])
          && (forall k :: 1 <= k < numbers[i] ==> k in Numbers(w, previous) || k in numbers[..i]))
  }

  ghost predicate Assigned(w: Numbering, previous: seq<NodeGroup>, groups: seq<NodeGroup>, numbers: seq<int>,
                           result: seq<NodeGroup>) {
    && |numbers| == |groups| == |result|
    && forall i {:trigger NamedWell(w, previous, groups, numbers, result, i)} :: 0 <= i < |groups| ==>
         NamedWell(w, previous, groups, numbers, result, i)
  }

  /** The bookkeeping of the naming loop after some groups: the used numbers are those of the
      previous status and those given out, and every number below `next` is used. */
  ghost predicate Counting(w: Numbering, previous: seq<NodeGroup>, numbers: seq<int>, used: set<int>, next: int) {
    && next >= 1
    && (forall k :: k in used <==> k in Numbers(w, previous) || (k in numbers && k >= 1))
    && (forall j :: 0 <= j < |numbers| ==> numbers[j] < next)
    && (forall k :: 1 <= k < next ==> k in used)
  }

  /** assignNodeGroupNames, with the numbers it gives out. */
  method AssignNodeGroupNames(w: Numbering, groups: seq<NodeGroup>, previous: seq<NodeGroup>)
    returns (result: seq<NodeGroup>)
    ensures exists numbers :: Assigned(w, previous, groups, numbers, result)
  {
    var byKey, used := RecordPrevious(w, previous);
    result := [];
    ghost var numbers: seq<int> := [];
    var next := 1;
    for i := 0 to |groups|
      invariant Assigned(w, previous, groups[..i], numbers, result)
      invariant Counting(w, previous, numbers, used, next)
    {
      var name := PreviousName(byKey, groups[i].path);
      if name.Some? {
        NameNext(w, previous, groups, numbers, result, i, 0, name.value);
        result := result + [groups[i].(name := name.value)];
        numbers := numbers + [0];
      } else {
        next := SkipUsed(used, next);
        NameNext(w, previous, groups, numbers, result, i, next, w.name(next));
        result := result + [groups[i].(name := w.name(next))];
        numbers := numbers + [next];
        used := used + {next};
        next := next + 1;
      }
    }
    assert groups[..|groups|] == groups;
    assert Assigned(w, previous, groups, numbers, result);
  }

  /** The inner loop: the first unused number. */
  method SkipUsed(used: set<int>, start: int) returns (next: int)
    ensures next >= start && next !in used && forall k :: start <= k < next ==> k in used
  {
    next := start;
    ghost var above := used;
    while next in used
      invariant next >= start && (forall k :: start <= k < next ==> k in used)
      invariant above <= used && (forall k :: k in used && k >= next ==> k in above)
      decreases above
    {
      above := above - {next};
      next := next + 1;
    }
  }

  lemma NameNext(w: Numbering, previous: seq<NodeGroup>, groups: seq<NodeGroup>, numbers: seq<int>,
                 result: seq<NodeGroup>, i: nat, number: int, name: string)
    requires i < |groups| && |numbers| == i && Assigned(w, previous, groups[..i], numbers, result)
    requires !IsNew(previous, groups[i].path) ==> Some(name) == PreviousName(NameByKey(previous), groups[i].path)
    requires IsNew(previous, groups[i].path) ==>
      && name == w.name(number) && number >= 1 && number !in Numbers(w, previous)
      && (forall j :: 0 <= j < i ==> numbers[j] < number)
      && (forall k :: 1 <= k < number ==> k in Numbers(w, previous) || k in numbers)
    ensures Assigned(w, previous, groups[..i + 1], numbers + [number], result + [groups[i].(name := name)])
  {
    var gs, ns, rs := groups[..i + 1], numbers + [number], result + [groups[i].(name := name)];
    forall j | 0 <= j < i + 1
      ensures NamedWell(w, previous, gs, ns, rs, j)
    {
      if j < i {
        assert NamedWell(w, previous, groups[..i], numbers, result, j);
        assert ns[..j] == numbers[..j];
      } else {
        assert ns[..i] == numbers;
      }
    }
  }

  // ------------------------------------------------------------- over many builds

  ghost predicate DistinctPaths(groups: seq<NodeGroup>) {
    forall i, j :: 0 <= i < j < |groups| ==> PathKey(groups[i].path) != PathKey(groups[j].path)
  }

  ghost predicate Numbered(w: Numbering, name: string) {
    w.number(name).Some? && 1 <= w.number(name).value <= MAX_INT && w.name(w.number(name).value) == name && name != ""
  }

  /** One name per group, one group per path, and every name is a numbered one. */
  ghost predicate WellNamed(w: Numbering, groups: seq<NodeGroup>) {
    && DistinctPaths(groups)
    && (forall i :: 0 <= i < |groups| ==> Numbered(w, groups[i].name))
    && (forall i, j :: 0 <= i < j < |groups| ==> groups[i].name != groups[j].name)
  }

  lemma {:induction false} NameByKeyAt(previous: seq<NodeGroup>, j: nat)
    requires DistinctPaths(previous) && j < |previous|
    ensures PathKey(previous[j].path) in NameByKey(previous)
      && NameByKey(previous)[PathKey(previous[j].path)] == previous[j].name
    decreases |previous|
  {
    var init := previous[..|previous| - 1];
    if j < |init| {
      NameByKeyAt(init, j);
    }
  }

  lemma {:induction false} NameByKeyOnly(previous: seq<NodeGroup>, k: string) returns (j: nat)
    requires k in NameByKey(previous)
    ensures j < |previous| && PathKey(previous[j].path) == k && previous[j].name == NameByKey(previous)[k]
    decreases |previous|
  {
    var init := previous[..|previous| - 1];
    j := |previous| - 1;
    if PathKey(previous[j].path) != k {
      j := NameByKeyOnly(init, k);
    }
  }

  lemma {:induction false} NumbersAt(w: Numbering, previous: seq<NodeGroup>, j: nat)
    requires j < |previous| && w.number(previous[j].name).Some?
    ensures w.number(previous[j].name).value in Numbers(w, previous)
    decreases |previous|
  {
    var init := previous[..|previous| - 1];
    if j < |init| {
      NumbersAt(w, init, j);
    }
  }

  /** A path that was in the previous status keeps its name. */
  lemma SurvivorKeepsName(w: Numbering, previous: seq<NodeGroup>, groups: seq<NodeGroup>, numbers: seq<int>,
                          result: seq<NodeGroup>, i: nat, j: nat)
    requires WellNamed(w, previous) && Assigned(w, previous, groups, numbers, result)
    requires i < |groups| && j < |previous| && groups[i].path == previous[j].path
    ensures result[i].name == previous[j].name && !IsNew(previous, groups[i].path)
  {
    NameByKeyAt(previous, j);
    assert NamedWell(w, previous, groups, numbers, result, i);
  }

  /** Where the name of a group comes from. */
  lemma NameOrigin(w: Numbering, previous: seq<NodeGroup>, groups: seq<NodeGroup>, numbers: seq<int>,
                   result: seq<NodeGroup>, i: nat) returns (j: nat)
    requires LawfulNumbering(w) && WellNamed(w, previous) && Assigned(w, previous, groups, numbers, result)
      && i < |groups|
    requires |previous| + |groups| <= MAX_INT
    ensures result[i].path == groups[i].path && Numbered(w, result[i].name)
    ensures !IsNew(previous, groups[i].path) ==>
      j < |previous| && PathKey(previous[j].path) == PathKey(groups[i].path) && result[i].name == previous[j].name &&
      w.number(result[i].name).value in Numbers(w, previous)
    ensures IsNew(previous, groups[i].path) ==>
      w.number(result[i].name) == Some(numbers[i]) && numbers[i] !in Numbers(w, previous)
  {
    assert NamedWell(w, previous, groups, numbers, result, i);
    j := 0;
    if IsNew(previous, groups[i].path) {
      NumbersAreSmall(w, previous, groups, numbers, result, i);
    } else {
      j := NameByKeyOnly(previous, PathKey(groups[i].path));
      NumbersAt(w, previous, j);
    }
  }

  lemma NamesDiffer(w: Numbering, previous: seq<NodeGroup>, groups: seq<NodeGroup>, numbers: seq<int>,
                    result: seq<NodeGroup>, i: nat, j: nat)
    requires LawfulNumbering(w) && WellNamed(w, previous) && Assigned(w, previous, groups, numbers, result)
      && DistinctPaths(groups)
    requires i < j < |groups| && |previous| + |groups| <= MAX_INT
    ensures result[i].name != result[j].name
  {
    var a := NameOrigin(w, previous, groups, numbers, result, i);
    var b := NameOrigin(w, previous, groups, numbers, result, j);
    assert NamedWell(w, previous, groups, numbers, result, j);
    assert PathKey(groups[i].path) != PathKey(groups[j].path);
  }

  /** Names stay pairwise distinct, whatever paths appear and disappear. */
  lemma NamesStayDistinct(w: Numbering, previous: seq<NodeGroup>, groups: seq<NodeGroup>, numbers: seq<int>,
                          result: seq<NodeGroup>)
    requires LawfulNumbering(w) && WellNamed(w, previous) && Assigned(w, previous, groups, numbers, result)
      && DistinctPaths(groups)
    requires |previous| + |groups| <= MAX_INT
    ensures WellNamed(w, result)
  {
    forall i | 0 <= i < |result|
      ensures result[i].path == groups[i].path && Numbered(w, result[i].name)
    {
      var j := NameOrigin(w, previous, groups, numbers, result, i);
    }
    forall i, j | 0 <= i < j < |result|
      ensures PathKey(result[i].path) != PathKey(result[j].path) && result[i].name != result[j].name
    {
      NamesDiffer(w, previous, groups, numbers, result, i, j);
    }
  }

  // ---------------------------------------------------- numbers stay within the groups

  /** The numbers from 1 up to and without `n`. */
  ghost function Range(n: int): set<int>
    decreases n
  {
    if n <= 1 then {} else Range(n - 1) + {n - 1}
  }

  lemma {:induction false} RangeSize(n: int)
    requires n >= 1
    ensures |Range(n)| == n - 1 && forall k :: k in Range(n) <==> 1 <= k < n
    decreases n
  {
    if n > 1 {
      RangeSize(n - 1);
    }
  }

  ghost function SetOf(numbers: seq<int>): set<int> {
    if numbers == [] then {} else SetOf(numbers[..|numbers| - 1]) + {numbers[|numbers| - 1]}
  }

  lemma {:induction false} SetOfIs(numbers: seq<int>)
    ensures |SetOf(numbers)| <= |numbers| && forall k :: k in numbers ==> k in SetOf(numbers)
    decreases |numbers|
  {
    if numbers != [] {
      SetOfIs(numbers[..|numbers| - 1]);
      assert numbers == numbers[..|numbers| - 1] + [numbers[|numbers| - 1]];
    }
  }

  lemma {:induction false} NumbersSize(w: Numbering, previous: seq<NodeGroup>)
    ensures |Numbers(w, previous)| <= |previous|
    decreases |previous|
  {
    if previous != [] {
      NumbersSize(w, previous[..|previous| - 1]);
    }
  }

  lemma UnionSize(a: set<int>, b: set<int>, c: set<int>)
    requires a <= b + c
    ensures |a| <= |b| + |c|
  {
    SubsetSize(a, b + c);
    assert b + c == b + (c - b);
    SubsetSize(c - b, c);
  }

  /** A new number is at most one more than the number of groups seen before it. */
  lemma NumbersAreSmall(w: Numbering, previous: seq<NodeGroup>, groups: seq<NodeGroup>, numbers: seq<int>,
                        result: seq<NodeGroup>, i: nat)
    requires Assigned(w, previous, groups, numbers, result) && i < |groups| && IsNew(previous, groups[i].path)
    ensures numbers[i] <= |previous| + i + 1
  {
    assert NamedWell(w, previous, groups, numbers, result, i);
    RangeSize(numbers[i]);
    SetOfIs(numbers[..i]);
    NumbersSize(w, previous);
    forall k | k in Range(numbers[i])
      ensures k in Numbers(w, previous) + SetOf(numbers[..i])
    {
      assert 1 <= k < numbers[i];
    }
    UnionSize(Range(numbers[i]), Numbers(w, previous), SetOf(numbers[..i]));
  }

  /** One status build on top of another, with no more groups than an int counts. */
  ghost predicate Follows(w: Numbering, previous: seq<NodeGroup>, result: seq<NodeGroup>) {
    |previous| + |result| <= MAX_INT
      && exists groups, numbers :: Assigned(w, previous, groups, numbers, result) && DistinctPaths(groups)
  }

  lemma FollowerIsWellNamed(w: Numbering, previous: seq<NodeGroup>, result: seq<NodeGroup>)
    requires LawfulNumbering(w) && WellNamed(w, previous) && Follows(w, previous, result)
    ensures WellNamed(w, result)
  {
    var groups, numbers :| Assigned(w, previous, groups, numbers, result) && DistinctPaths(groups);
    NamesStayDistinct(w, previous, groups, numbers, result);
  }

  /** A history of statuses that begins with none. */
  ghost predicate IsHistory(w: Numbering, history: seq<seq<NodeGroup>>) {
    |history| > 0 && history[0] == [] && forall i :: 0 <= i < |history| - 1 ==> Follows(w, history[i], history[i + 1])
  }

  /** Over every sequence of status builds starting from empty, names are pairwise distinct. */
  lemma {:induction false} HistoryIsWellNamed(w: Numbering, history: seq<seq<NodeGroup>>, i: nat)
    requires LawfulNumbering(w) && IsHistory(w, history) && i < |history|
    ensures WellNamed(w, history[i])
    decreases i
  {
    if i > 0 {
      HistoryIsWellNamed(w, history, i - 1);
      assert Follows(w, history[i - 1], history[i - 1 + 1]);
      FollowerIsWellNamed(w, history[i - 1], history[i]);
    }
  }

  /** A name carries a number exactly when it is the prefix and then a positive one. */
  lemma NumberIsRead(name: string, k: int)
    ensures ParseNumber(name) == Some(k) <==>
      1 <= k <= MAX_INT && exists digits, text {:trigger Says(text, digits, k)} ::
        name == PREFIX + text && Says(text, digits, k)
  {
    if ParseNumber(name) == Some(k) {
      var text := name[|PREFIX|..];
      AtoiReads(text, k);
      var digits :| Says(text, digits, k);
      assert name == PREFIX + text && Says(text, digits, k);
    }
    if digits, text :| name == PREFIX + text && Says(text, digits, k) {
      AtoiReads(text, k);
      assert name[|PREFIX|..] == text && text != "";
    }
  }
}
