/** Topology label key templates: a prefix, the tier as a canonical decimal, a suffix.
    Rendering and matching are inverse, and CompileSet decides with a product of two
    epsilon-NFAs whether two templates can produce a common key. */
module LabelTemplate {
  import opened Wrappers
  import opened Decimal

  /** A compiled template; strings stand for the byte strings of the source. */
  datatype Template = Template(prefix: string, suffix: string)

  /** The keys of a template: prefix [1-9][0-9]* suffix. */
  ghost predicate InLanguage(t: Template, key: string) {
    exists d :: IsKeyWith(t, key, d)
  }

  ghost predicate IsKeyWith(t: Template, key: string, d: string) {
    Canonical(d) && key == t.prefix + d + t.suffix
  }

  function Render(t: Template, tier: int): Option<string> {
    if tier < 1 then None else Some(t.prefix + Itoa(tier) + t.suffix)
  }

  /** The anchored matcher: the capture is what lies between the fixed prefix and suffix. */
  function Middle(t: Template, key: string): Option<string> {
    if |key| >= |t.prefix| + |t.suffix| && t.prefix <= key && key[|key| - |t.suffix|..] == t.suffix
    then Some(key[|t.prefix|..|key| - |t.suffix|])
    else None
  }

  function MatchTier(t: Template, key: string): Option<int> {
    match Middle(t, key)
    case None => None
    case Some(d) => ParseCanonical(d)
  }

  lemma MiddleOfKey(t: Template, d: string)
    ensures Middle(t, t.prefix + d + t.suffix) == Some(d)
  {
    var key := t.prefix + d + t.suffix;
    assert key[..|t.prefix|] == t.prefix;
    assert key[|key| - |t.suffix|..] == t.suffix;
    assert key[|t.prefix|..|key| - |t.suffix|] == d;
  }

  lemma KeyOfMiddle(t: Template, key: string)
    requires Middle(t, key).Some?
    ensures key == t.prefix + Middle(t, key).value + t.suffix
  {
    assert key == key[..|t.prefix|] + key[|t.prefix|..|key| - |t.suffix|] + key[|key| - |t.suffix|..];
  }

  lemma LanguageIsMiddle(t: Template, key: string)
    ensures InLanguage(t, key) <==> Middle(t, key).Some? && Canonical(Middle(t, key).value)
  {
    if InLanguage(t, key) {
      var d :| IsKeyWith(t, key, d);
      MiddleOfKey(t, d);
    }
    if Middle(t, key).Some? && Canonical(Middle(t, key).value) {
      KeyOfMiddle(t, key);
      assert IsKeyWith(t, key, Middle(t, key).value);
    }
  }

  /** Matching inverts rendering on every 64-bit tier. */
  lemma MatchOfRender(t: Template, tier: int)
    requires 1 <= tier <= MAX_INT
    ensures Render(t, tier).Some? && MatchTier(t, Render(t, tier).value) == Some(tier)
  {
    MiddleOfKey(t, Itoa(tier));
    ParseCanonicalOfItoa(tier);
  }

  /** Rendering inverts matching: a key matches at most one tier, and no two keys match the same. */
  lemma RenderOfMatch(t: Template, key: string)
    requires MatchTier(t, key).Some?
    ensures 1 <= MatchTier(t, key).value <= MAX_INT
    ensures Render(t, MatchTier(t, key).value) == Some(key)
    ensures InLanguage(t, key)
  {
    var d := Middle(t, key).value;
    ItoaOfParseCanonical(d);
    KeyOfMiddle(t, key);
    LanguageIsMiddle(t, key);
  }

  // ------------------------------------------------------------------- the NFA

  /** States 0..|prefix| read the prefix, one state loops on digits, the rest read the suffix. */
  function DigitState(t: Template): int { |t.prefix| + 1 }
  function SuffixStart(t: Template): int { |t.prefix| + 2 }
  function AcceptState(t: Template): int { SuffixStart(t) + |t.suffix| }

  function Closure(t: Template, states: set<int>): set<int> {
    if DigitState(t) in states then states + {SuffixStart(t)} else states
  }

  /** Where one state goes on one character. */
  function Step(t: Template, state: int, c: char): set<int> {
    if 0 <= state < |t.prefix| then (if t.prefix[state] == c then {state + 1} else {})
    else if state == |t.prefix| then (if IsDigit(c) && c != '0' then {DigitState(t)} else {})
    else if state == DigitState(t) then (if IsDigit(c) then {DigitState(t)} else {})
    else if SuffixStart(t) <= state < AcceptState(t)
      then (if t.suffix[state - SuffixStart(t)] == c then {state + 1} else {})
    else {}
  }

  function Transition(t: Template, states: set<int>, c: char): set<int> {
    Closure(t, Moved(t, states, c))
  }

  function Moved(t: Template, states: set<int>, c: char): set<int> {
    set s, next | s in states && next in Step(t, s, c) :: next
  }

  /** Each state has one kind of predecessor. */
  lemma MovedInto(t: Template, states: set<int>, c: char, state: int)
    ensures state in Moved(t, states, c) <==>
      if 0 < state <= |t.prefix| then state - 1 in states && t.prefix[state - 1] == c
      else if state == DigitState(t) then (|t.prefix| in states && IsDigit(c) && c != '0')
        || (DigitState(t) in states && IsDigit(c))
      else SuffixStart(t) < state <= AcceptState(t) && state - 1 in states && t.suffix[state - 1 - SuffixStart(t)] == c
  {
    if 0 < state <= |t.prefix| && state - 1 in states {
      assert Step(t, state - 1, c) == if t.prefix[state - 1] == c then {state} else {};
    } else if state == DigitState(t) {
      assert Step(t, |t.prefix|, c) == if IsDigit(c) && c != '0' then {state} else {};
      assert Step(t, state, c) == if IsDigit(c) then {state} else {};
    } else if SuffixStart(t) < state <= AcceptState(t) && state - 1 in states {
      assert Step(t, state - 1, c) == if t.suffix[state - 1 - SuffixStart(t)] == c then {state} else {};
    }
  }

  predicate Accepts(t: Template, states: set<int>) {
    AcceptState(t) in states
  }

  function Start(t: Template): set<int> {
    Closure(t, {0})
  }

  ghost function Run(t: Template, w: string): set<int> {
    if |w| == 0 then Start(t) else Transition(t, Run(t, w[..|w| - 1]), w[|w| - 1])
  }

  /** What it means for a state to be live after reading `w`. */
  ghost predicate Live(t: Template, w: string, state: int) {
    if 0 <= state <= |t.prefix| then w == t.prefix[..state]
    else if state == DigitState(t) then t.prefix <= w && Canonical(w[|t.prefix|..])
    else if SuffixStart(t) <= state <= AcceptState(t) then
      var j := state - SuffixStart(t);
      |w| >= |t.prefix| + j && t.prefix <= w && w[|w| - j..] == t.suffix[..j] && Canonical(w[|t.prefix|..|w| - j])
    else false
  }

  lemma StartIsLive(t: Template, w: string, state: int)
    requires w == ""
    ensures state in Start(t) <==> Live(t, w, state)
  {
  }

  /** Reading one more character, state by state. */
  lemma RunInto(t: Template, v: string, c: char, state: int)
    ensures state in Run(t, v + [c]) <==>
      state in Moved(t, Run(t, v), c) || (state == SuffixStart(t) && DigitState(t) in Moved(t, Run(t, v), c))
  {
    assert (v + [c])[..|v|] == v;
  }

  /** The simulation computes exactly the live states. */
  lemma {:induction false} RunIsLive(t: Template, w: string, state: int)
    ensures state in Run(t, w) <==> Live(t, w, state)
    decreases |w|
  {
    if |w| == 0 {
      StartIsLive(t, w, state);
    } else {
      var v, c := w[..|w| - 1], w[|w| - 1];
      assert w == v + [c];
      if state == SuffixStart(t) {
        RunIsLive(t, v, |t.prefix|);
        RunIsLive(t, v, DigitState(t));
        SuffixStartIsLive(t, v, c);
      } else {
        if state == DigitState(t) {
          RunIsLive(t, v, |t.prefix|);
        }
        RunIsLive(t, v, if state == DigitState(t) then state else state - 1);
        StateIsLive(t, v, c, state);
      }
    }
  }

  lemma SuffixStartIsLive(t: Template, v: string, c: char)
    requires |t.prefix| in Run(t, v) <==> Live(t, v, |t.prefix|)
    requires DigitState(t) in Run(t, v) <==> Live(t, v, DigitState(t))
    ensures SuffixStart(t) in Run(t, v + [c]) <==> Live(t, v + [c], SuffixStart(t))
  {
    RunInto(t, v, c, SuffixStart(t));
    MovedInto(t, Run(t, v), c, SuffixStart(t));
    MovedInto(t, Run(t, v), c, DigitState(t));
    LiveDigit(t, v, c);
    LiveSuffixStart(t, v + [c]);
  }

  lemma StateIsLive(t: Template, v: string, c: char, state: int)
    requires state != SuffixStart(t)
    requires state == DigitState(t) ==>
      (|t.prefix| in Run(t, v) <==> Live(t, v, |t.prefix|)) && (state in Run(t, v) <==> Live(t, v, state))
    requires state != DigitState(t) ==> (state - 1 in Run(t, v) <==> Live(t, v, state - 1))
    ensures state in Run(t, v + [c]) <==> Live(t, v + [c], state)
  {
    RunInto(t, v, c, state);
    MovedInto(t, Run(t, v), c, state);
    if 0 < state <= |t.prefix| {
      LivePrefix(t, v, c, state);
    } else if state == DigitState(t) {
      LiveDigit(t, v, c);
    } else if SuffixStart(t) < state <= AcceptState(t) {
      LiveSuffix(t, v, c, state);
    }
  }

  lemma LiveSuffixStart(t: Template, w: string)
    ensures Live(t, w, SuffixStart(t)) <==> Live(t, w, DigitState(t))
  {
    if t.prefix <= w {
      assert w[|t.prefix|..|w|] == w[|t.prefix|..];
    }
  }

  lemma CanonicalExtend(s: string, c: char)
    ensures Canonical(s + [c]) <==> IsDigit(c) && if s == "" then c != '0' else Canonical(s)
  {
    if Canonical(s + [c]) && s != "" {
      assert s[0] == (s + [c])[0];
      assert forall i :: 0 <= i < |s| ==> s[i] == (s + [c])[i];
    }
    if AllDigits(s + [c]) {
      assert (s + [c])[|s|] == c;
    }
  }

  lemma LivePrefix(t: Template, v: string, c: char, state: int)
    requires 0 < state <= |t.prefix|
    ensures Live(t, v + [c], state) <==> Live(t, v, state - 1) && t.prefix[state - 1] == c
  {
    assert t.prefix[..state] == t.prefix[..state - 1] + [t.prefix[state - 1]];
    if v + [c] == t.prefix[..state] {
      assert v == (v + [c])[..state - 1];
    }
  }

  lemma LiveDigit(t: Template, v: string, c: char)
    ensures Live(t, v + [c], DigitState(t)) <==>
      (Live(t, v, |t.prefix|) && IsDigit(c) && c != '0') || (Live(t, v, DigitState(t)) && IsDigit(c))
  {
    var w := v + [c];
    if |w| > |t.prefix| {
      assert t.prefix <= w <==> t.prefix <= v;
      assert w[|t.prefix|..] == v[|t.prefix|..] + [c];
      CanonicalExtend(v[|t.prefix|..], c);
      assert t.prefix[..|t.prefix|] == t.prefix;
      assert v == t.prefix <==> t.prefix <= v && v[|t.prefix|..] == "";
    }
  }

  lemma LiveSuffix(t: Template, v: string, c: char, state: int)
    requires SuffixStart(t) < state <= AcceptState(t)
    ensures Live(t, v + [c], state) <==> Live(t, v, state - 1) && t.suffix[state - 1 - SuffixStart(t)] == c
  {
    var w := v + [c];
    var j := state - SuffixStart(t);
    if |w| >= |t.prefix| + j {
      assert w[|w| - j..] == v[|v| - (j - 1)..] + [c];
      assert t.suffix[..j] == t.suffix[..j - 1] + [t.suffix[j - 1]];
      assert w[|t.prefix|..|w| - j] == v[|t.prefix|..|v| - (j - 1)];
      assert t.prefix <= w <==> t.prefix <= v;
    }
  }

  /** The NFA accepts exactly the keys of the template. */
  lemma AcceptsIsLanguage(t: Template, w: string)
    ensures Accepts(t, Run(t, w)) <==> InLanguage(t, w)
  {
    RunIsLive(t, w, AcceptState(t));
    LanguageIsMiddle(t, w);
    assert t.suffix[..|t.suffix|] == t.suffix;
  }

  // ------------------------------------------------------- the product construction

  type Pair = (set<int>, set<int>)

  /** A queued product state and the word that reaches it. */
  datatype PairState = PairState(left: set<int>, right: set<int>, example: string)

  function Characters(s: string): set<char> {
    set i | 0 <= i < |s| :: s[i]
  }

  /** languageAlphabet: the digits and every character of either template. */
  function Alphabet(l: Template, r: Template): set<char> {
    Characters("0123456789") + Characters(l.prefix) + Characters(l.suffix) + Characters(r.prefix) + Characters(r.suffix)
  }

  lemma DigitsListed(c: char)
    requires IsDigit(c)
    ensures c in Characters("0123456789")
  {
    DigitCharOfValue(c);
    assert "0123456789"[DigitValue(c)] == c;
  }

  /** A character outside the alphabet leads nowhere. */
  lemma OutsideAlphabet(l: Template, r: Template, t: Template, states: set<int>, c: char)
    requires (t == l || t == r) && c !in Alphabet(l, r)
    ensures Transition(t, states, c) == {}
  {
    forall state
      ensures state !in Moved(t, states, c)
    {
      MovedInto(t, states, c, state);
      if IsDigit(c) {
        DigitsListed(c);
      }
    }
    assert Moved(t, states, c) == {};
  }

  ghost predicate IsState(t: Template, i: int) {
    0 <= i <= AcceptState(t)
  }

  ghost function States(t: Template): set<int> {
    set i | 0 <= i <= AcceptState(t) && IsState(t, i)
  }

  /** The finitely many product states. */
  ghost function Product(l: Template, r: Template): set<Pair> {
    set a, b | a <= States(l) && b <= States(r) :: (a, b)
  }

  lemma TransitionStaysInside(t: Template, states: set<int>, c: char)
    ensures Transition(t, states, c) <= States(t)
  {
    forall state | state in Moved(t, states, c)
      ensures IsState(t, state)
    {
      MovedInto(t, states, c, state);
    }
    StatesAre(t, Transition(t, states, c));
  }

  lemma StatesAre(t: Template, states: set<int>)
    requires forall s :: s in states ==> IsState(t, s)
    ensures states <= States(t)
  {
  }

  /** `p` was taken from the queue: it is not accepting and its successors have been seen. */
  ghost predicate Expanded(l: Template, r: Template, chars: set<char>, visited: set<Pair>, p: Pair) {
    && !(Accepts(l, p.0) && Accepts(r, p.1))
    && forall c {:trigger Successor(l, r, p, c)} :: c in chars ==> Seen(visited, Successor(l, r, p, c))
  }

  ghost function Successor(l: Template, r: Template, p: Pair, c: char): Pair {
    (Transition(l, p.0, c), Transition(r, p.1, c))
  }

  ghost predicate Seen(visited: set<Pair>, p: Pair) {
    p.0 == {} || p.1 == {} || p in visited
  }

  ghost predicate QueueSound(l: Template, r: Template, queue: seq<PairState>) {
    forall i :: 0 <= i < |queue| ==>
      queue[i].left == Run(l, queue[i].example) && queue[i].right == Run(r, queue[i].example)
  }

  function PairOf(s: PairState): Pair {
    (s.left, s.right)
  }

  ghost function Pairs(queue: seq<PairState>): set<Pair> {
    set i | 0 <= i < |queue| :: PairOf(queue[i])
  }

  lemma PairsMore(queue: seq<PairState>, s: PairState)
    ensures Pairs(queue + [s]) == Pairs(queue) + {PairOf(s)}
  {
    var longer := queue + [s];
    forall i | 0 <= i < |queue|
      ensures PairOf(queue[i]) in Pairs(longer)
    {
      assert longer[i] == queue[i];
    }
    assert longer[|queue|] == s;
  }

  lemma PairsTail(queue: seq<PairState>)
    requires |queue| > 0
    ensures Pairs(queue) == Pairs(queue[1..]) + {PairOf(queue[0])}
  {
    forall i | 0 <= i < |queue|
      ensures PairOf(queue[i]) in Pairs(queue[1..]) + {PairOf(queue[0])}
    {
      assert i > 0 ==> queue[1..][i - 1] == queue[i];
    }
    forall i | 0 <= i < |queue[1..]|
      ensures PairOf(queue[1..][i]) in Pairs(queue)
    {
      assert queue[1..][i] == queue[i + 1];
    }
  }

  ghost predicate Searching(l: Template, r: Template, visited: set<Pair>, queue: seq<PairState>) {
    && visited <= Product(l, r) && (Start(l), Start(r)) in visited
    && QueueSound(l, r, queue)
    && forall p {:trigger Expanded(l, r, Alphabet(l, r), visited, p)} ::
         p in visited && p !in Pairs(queue) ==> Expanded(l, r, Alphabet(l, r), visited, p)
  }

  /** Once the queue is empty, the pair reached by any word has been visited or is dead. */
  lemma {:induction false} SearchIsComplete(l: Template, r: Template, visited: set<Pair>, w: string)
    requires Searching(l, r, visited, [])
    ensures Seen(visited, (Run(l, w), Run(r, w)))
    ensures !(InLanguage(l, w) && InLanguage(r, w))
    decreases |w|
  {
    if |w| > 0 {
      var v, c := w[..|w| - 1], w[|w| - 1];
      SearchIsComplete(l, r, visited, v);
      var p := (Run(l, v), Run(r, v));
      if p in visited && c in Alphabet(l, r) {
        assert Expanded(l, r, Alphabet(l, r), visited, p);
        assert Seen(visited, Successor(l, r, p, c));
      } else if c !in Alphabet(l, r) {
        OutsideAlphabet(l, r, l, Run(l, v), c);
      } else if p.0 == {} {
        assert Moved(l, p.0, c) == {};
      } else {
        assert Moved(r, p.1, c) == {};
      }
    }
    AcceptsIsLanguage(l, w);
    AcceptsIsLanguage(r, w);
    if (Run(l, w), Run(r, w)) in visited {
      assert Expanded(l, r, Alphabet(l, r), visited, (Run(l, w), Run(r, w)));
    }
  }

  /** intersectionExample finds a key that both templates produce exactly when there is one. */
  method IntersectionExample(l: Template, r: Template) returns (example: Option<string>)
    ensures example.Some? ==> InLanguage(l, example.value) && InLanguage(r, example.value)
    ensures example.None? ==> forall w :: !(InLanguage(l, w) && InLanguage(r, w))
  {
    var queue := [PairState(Start(l), Start(r), "")];
    var visited: set<Pair> := {(Start(l), Start(r))};
    assert queue[0].left == Run(l, "") && queue[0].right == Run(r, "");
    assert visited == Pairs(queue);
    StatesAre(l, Start(l));
    StatesAre(r, Start(r));
    while |queue| > 0
      invariant Searching(l, r, visited, queue)
      decreases Product(l, r) - visited, |queue|
    {
      var current := queue[0];
      if Accepts(l, current.left) && Accepts(r, current.right) {
        AcceptsIsLanguage(l, current.example);
        AcceptsIsLanguage(r, current.example);
        return Some(current.example);
      }
      visited, queue := Expand(l, r, current, visited, queue);
    }
    forall w
      ensures !(InLanguage(l, w) && InLanguage(r, w))
    {
      SearchIsComplete(l, r, visited, w);
    }
    example := None;
  }

  /** The loop over the alphabet for one queued pair. */
  method Expand(l: Template, r: Template, current: PairState, seen: set<Pair>, work: seq<PairState>)
    returns (visited: set<Pair>, queue: seq<PairState>)
    requires Searching(l, r, seen, work) && |work| > 0 && current == work[0]
    requires !(Accepts(l, current.left) && Accepts(r, current.right))
    ensures Searching(l, r, visited, queue)
    ensures seen < visited || (visited == seen && |queue| < |work|)
  {
    visited, queue := seen, work[1..];
    var todo := Alphabet(l, r);
    while todo != {}
      invariant todo <= Alphabet(l, r) && seen <= visited <= Product(l, r)
      invariant QueueSound(l, r, queue)
      invariant visited <= seen + Pairs(queue) && Pairs(work[1..]) <= Pairs(queue)
      invariant forall c :: c in Alphabet(l, r) && c !in todo ==> Seen(visited, Successor(l, r, PairOf(current), c))
      invariant seen < visited || (visited == seen && queue == work[1..])
    {
      var c :| c in todo;
      todo := todo - {c};
      visited, queue := Visit(l, r, current, c, visited, queue);
    }
    ExpandedAll(l, r, seen, work, visited, queue);
  }

  /** One character: queue the successor unless it is dead or known. */
  method Visit(l: Template, r: Template, current: PairState, c: char, seen: set<Pair>, work: seq<PairState>)
    returns (visited: set<Pair>, queue: seq<PairState>)
    requires seen <= Product(l, r) && QueueSound(l, r, work)
    requires current.left == Run(l, current.example) && current.right == Run(r, current.example)
    ensures seen <= visited <= Product(l, r) && QueueSound(l, r, queue)
    ensures visited <= seen + Pairs(queue) && Pairs(work) <= Pairs(queue)
    ensures Seen(visited, Successor(l, r, PairOf(current), c))
    ensures seen < visited || (visited == seen && queue == work)
  {
    visited, queue := seen, work;
    var left, right := Transition(l, current.left, c), Transition(r, current.right, c);
    if left != {} && right != {} && (left, right) !in visited {
      TransitionStaysInside(l, current.left, c);
      TransitionStaysInside(r, current.right, c);
      var w := current.example + [c];
      QueueMore(l, r, queue, current, c);
      PairsMore(queue, PairState(left, right, w));
      visited := visited + {(left, right)};
      queue := queue + [PairState(left, right, w)];
    }
  }

  lemma QueueMore(l: Template, r: Template, work: seq<PairState>, current: PairState, c: char)
    requires QueueSound(l, r, work) && current.left == Run(l, current.example)
      && current.right == Run(r, current.example)
    ensures QueueSound(l, r, work
      + [PairState(Transition(l, current.left, c), Transition(r, current.right, c), current.example + [c])])
  {
    var w := current.example + [c];
    assert w[..|w| - 1] == current.example;
  }

  lemma ExpandedAll(l: Template, r: Template, seen: set<Pair>, work: seq<PairState>, visited: set<Pair>,
                    queue: seq<PairState>)
    requires Searching(l, r, seen, work) && |work| > 0 && !(Accepts(l, work[0].left) && Accepts(r, work[0].right))
    requires seen <= visited <= Product(l, r) && QueueSound(l, r, queue)
    requires visited <= seen + Pairs(queue) && Pairs(work[1..]) <= Pairs(queue)
    requires forall c :: c in Alphabet(l, r) ==> Seen(visited, Successor(l, r, PairOf(work[0]), c))
    ensures Searching(l, r, visited, queue)
  {
    PairsTail(work);
    forall p | p in visited && p !in Pairs(queue)
      ensures Expanded(l, r, Alphabet(l, r), visited, p)
    {
      if p != PairOf(work[0]) {
        assert Expanded(l, r, Alphabet(l, r), seen, p);
        forall c | c in Alphabet(l, r)
          ensures Seen(visited, Successor(l, r, p, c))
        {
          assert Seen(seen, Successor(l, r, p, c));
        }
      }
    }
  }

  // ------------------------------------------------------------------ CompileSet

  datatype TemplateSet = TemplateSet(scaleUp: Template, scaleOut: Template, storage: Template)

  ghost predicate Overlap(l: Template, r: Template) {
    exists w :: InLanguage(l, w) && InLanguage(r, w)
  }

  /** CompileSet, from the three compiled templates on: it succeeds exactly when no two of
      them share a key, and otherwise names a shared one. */
  method CompileSet(scaleUp: Template, scaleOut: Template, storage: Template) returns (r: Result<TemplateSet, string>)
    ensures r.Ok? <==> !Overlap(scaleUp, scaleOut) && !Overlap(scaleUp, storage) && !Overlap(scaleOut, storage)
    ensures r.Ok? ==> r.value == TemplateSet(scaleUp, scaleOut, storage)
    ensures r.Err? ==>
      exists i, j ::
        0 <= i < j < 3 && InLanguage([scaleUp, scaleOut, storage][i], r.error)
          && InLanguage([scaleUp, scaleOut, storage][j], r.error)
  {
    var compiled := [scaleUp, scaleOut, storage];
    for left := 0 to 3
      invariant forall i, j :: 0 <= i < left && i < j < 3 ==> !Overlap(compiled[i], compiled[j])
    {
      for right := left + 1 to 3
        invariant forall j :: left < j < right ==> !Overlap(compiled[left], compiled[j])
      {
        var example := IntersectionExample(compiled[left], compiled[right]);
        match example
        case Some(w) =>
          assert Overlap(compiled[left], compiled[right]);
          return Err(w);
        case None =>
      }
    }
    assert !Overlap(compiled[0], compiled[1]) && !Overlap(compiled[0], compiled[2])
      && !Overlap(compiled[1], compiled[2]);
    r := Ok(TemplateSet(scaleUp, scaleOut, storage));
  }

  /** A label key never belongs to two templates that do not overlap. */
  lemma MatchesAtMostOne(l: Template, r: Template, key: string)
    requires !Overlap(l, r) && MatchTier(l, key).Some?
    ensures MatchTier(r, key).None?
  {
    RenderOfMatch(l, key);
    if MatchTier(r, key).Some? {
      RenderOfMatch(r, key);
    }
  }
}
