/** Undirected graphs over device names: walks inside a set of allowed devices, the
    reachability they induce, and the closure argument every worklist proof ends with. */
module Graph {

  type Adjacency = map<string, set<string>>

  ghost predicate Symmetric(adj: Adjacency) {
    forall a, b {:trigger b in adj[a]} :: a in adj && b in adj[a] ==> b in adj && a in adj[b]
  }

  /** `w` is a non-empty walk along edges of `adj` that never leaves `within`. */
  ghost predicate Walk(adj: Adjacency, within: set<string>, w: seq<string>) {
    && |w| > 0
    && (forall i :: 0 <= i < |w| ==> w[i] in within)
    && (forall i :: 0 <= i < |w| - 1 ==> w[i] in adj && w[i + 1] in adj[w[i]])
  }

  ghost predicate WalkBetween(adj: Adjacency, within: set<string>, w: seq<string>, a: string, b: string) {
    Walk(adj, within, w) && w[0] == a && w[|w| - 1] == b
  }

  /** `a` and `b` are connected inside the subgraph induced by `within`. */
  ghost predicate Linked(adj: Adjacency, within: set<string>, a: string, b: string) {
    exists w :: WalkBetween(adj, within, w, a, b)
  }

  lemma LinkedEnds(adj: Adjacency, within: set<string>, a: string, b: string)
    requires Linked(adj, within, a, b)
    ensures a in within && b in within
  {
  }

  lemma LinkedSelf(adj: Adjacency, within: set<string>, a: string)
    requires a in within
    ensures Linked(adj, within, a, a)
  {
    assert WalkBetween(adj, within, [a], a, a);
  }

  lemma LinkedExtend(adj: Adjacency, within: set<string>, a: string, b: string, c: string)
    requires Linked(adj, within, a, b)
    requires b in adj && c in adj[b] && c in within
    ensures Linked(adj, within, a, c)
  {
    var w :| WalkBetween(adj, within, w, a, b);
    assert WalkBetween(adj, within, w + [c], a, c);
  }

  lemma LinkedEdge(adj: Adjacency, within: set<string>, a: string, b: string)
    requires a in within && b in within && a in adj && b in adj[a]
    ensures Linked(adj, within, a, b)
  {
    LinkedSelf(adj, within, a);
    LinkedExtend(adj, within, a, a, b);
  }

  lemma LinkedTrans(adj: Adjacency, within: set<string>, a: string, b: string, c: string)
    requires Linked(adj, within, a, b) && Linked(adj, within, b, c)
    ensures Linked(adj, within, a, c)
  {
    var v :| WalkBetween(adj, within, v, a, b);
    var w :| WalkBetween(adj, within, w, b, c);
    var u := v + w[1..];
    forall i | 0 <= i < |u| - 1
      ensures u[i] in adj && u[i + 1] in adj[u[i]]
    {
      if i >= |v| - 1 {
        var j := i - |v| + 1;
        assert u[i] == w[j] && u[i + 1] == w[j + 1];
      }
    }
    assert WalkBetween(adj, within, u, a, c);
  }

  lemma LinkedSym(adj: Adjacency, within: set<string>, a: string, b: string)
    requires Symmetric(adj)
    requires Linked(adj, within, a, b)
    ensures Linked(adj, within, b, a)
  {
    var w :| WalkBetween(adj, within, w, a, b);
    var r := seq(|w|, i requires 0 <= i < |w| => w[|w| - 1 - i]);
    forall i | 0 <= i < |r| - 1
      ensures r[i] in adj && r[i + 1] in adj[r[i]]
    {
      var j := |w| - 2 - i;
      assert w[j] in adj && w[j + 1] in adj[w[j]];
    }
    assert WalkBetween(adj, within, r, b, a);
  }

  lemma LinkedWiden(adj: Adjacency, within: set<string>, wider: set<string>, a: string, b: string)
    requires within <= wider
    requires Linked(adj, within, a, b)
    ensures Linked(adj, wider, a, b)
  {
    var w :| WalkBetween(adj, within, w, a, b);
    assert WalkBetween(adj, wider, w, a, b);
  }

  /** A set that holds `a` and is closed under the allowed edges holds everything linked to `a`. */
  lemma LinkedStaysInside(adj: Adjacency, within: set<string>, closed: set<string>, a: string, b: string)
    requires Linked(adj, within, a, b)
    requires a in closed
    requires forall x, y {:trigger y in adj[x]} :: x in closed && x in adj && y in adj[x] && y in within ==> y in closed
    ensures b in closed
  {
    var w :| WalkBetween(adj, within, w, a, b);
    var i := 0;
    while i < |w| - 1
      invariant 0 <= i < |w|
      invariant w[i] in closed
    {
      assert w[i] in adj && w[i + 1] in adj[w[i]];
      i := i + 1;
    }
  }
}
