/** strings.Join with a one-character separator. Two joins are equal exactly when the parts,
    cut at the separators inside them, are the same pieces. */
module Joining {

  function Join(parts: seq<string>, separator: char): string {
    if parts == [] then "" else if |parts| == 1 then parts[0] else parts[0] + [separator] + Join(parts[1..], separator)
  }

  ghost predicate Lacks(s: string, separator: char) {
    forall i :: 0 <= i < |s| ==> s[i] != separator
  }

  ghost predicate AllLack(parts: seq<string>, separator: char) {
    forall i :: 0 <= i < |parts| ==> Lacks(parts[i], separator)
  }

  /** One more character in front of the first piece. */
  function Prepend(c: char, pieces: seq<string>): (longer: seq<string>)
    requires pieces != []
  {
    [[c] + pieces[0]] + pieces[1..]
  }

  /** The pieces between the separators. */
  function Split(s: string, separator: char): (pieces: seq<string>)
    ensures pieces != []
  {
    if s == "" then [""]
    else
      var rest := Split(s[1..], separator);
      if s[0] == separator then [""] + rest else Prepend(s[0], rest)
  }

  function Pieces(parts: seq<string>, separator: char): seq<string> {
    if parts == [] then [] else Split(parts[0], separator) + Pieces(parts[1..], separator)
  }

  lemma PrependToConcat(c: char, a: seq<string>, b: seq<string>)
    requires a != []
    ensures Prepend(c, a + b) == Prepend(c, a) + b
  {
    assert (a + b)[0] == a[0] && (a + b)[1..] == a[1..] + b;
  }

  lemma {:induction false} SplitOfConcat(a: string, b: string, separator: char)
    ensures Split(a + [separator] + b, separator) == Split(a, separator) + Split(b, separator)
    decreases |a|
  {
    var whole := a + [separator] + b;
    if a == "" {
      assert whole[1..] == b;
    } else {
      SplitOfConcat(a[1..], b, separator);
      assert whole[1..] == a[1..] + [separator] + b && whole[0] == a[0];
      PrependToConcat(a[0], Split(a[1..], separator), Split(b, separator));
    }
  }

  lemma JoinOfPrepend(c: char, pieces: seq<string>, separator: char)
    requires pieces != []
    ensures Join(Prepend(c, pieces), separator) == [c] + Join(pieces, separator)
  {
    assert Prepend(c, pieces)[1..] == pieces[1..];
  }

  lemma {:induction false} JoinOfSplit(s: string, separator: char)
    ensures Join(Split(s, separator), separator) == s
    decreases |s|
  {
    if s != "" {
      var rest := Split(s[1..], separator);
      JoinOfSplit(s[1..], separator);
      if s[0] == separator {
        assert ([""] + rest)[1..] == rest;
      } else {
        JoinOfPrepend(s[0], rest, separator);
      }
    }
  }

  lemma {:induction false} SplitOfJoin(parts: seq<string>, separator: char)
    requires parts != []
    ensures Split(Join(parts, separator), separator) == Pieces(parts, separator)
    decreases |parts|
  {
    if |parts| == 1 {
      assert Pieces(parts[1..], separator) == [];
    } else {
      SplitOfConcat(parts[0], Join(parts[1..], separator), separator);
      SplitOfJoin(parts[1..], separator);
    }
  }

  lemma JoinsEqualIffPieces(p: seq<string>, q: seq<string>, separator: char)
    requires p != [] && q != []
    ensures Join(p, separator) == Join(q, separator) <==> Pieces(p, separator) == Pieces(q, separator)
  {
    SplitOfJoin(p, separator);
    SplitOfJoin(q, separator);
    JoinOfSplit(Join(p, separator), separator);
    JoinOfSplit(Join(q, separator), separator);
  }

  lemma {:induction false} SplitOfWhole(s: string, separator: char)
    requires Lacks(s, separator)
    ensures Split(s, separator) == [s]
    decreases |s|
  {
    if s != "" {
      SplitOfWhole(s[1..], separator);
      assert [s[0]] + s[1..] == s;
    }
  }

  lemma {:induction false} PiecesOfWhole(parts: seq<string>, separator: char)
    requires AllLack(parts, separator)
    ensures Pieces(parts, separator) == parts
    decreases |parts|
  {
    if parts != [] {
      SplitOfWhole(parts[0], separator);
      PiecesOfWhole(parts[1..], separator);
    }
  }

  lemma JoinInjective(p: seq<string>, q: seq<string>, separator: char)
    requires p != [] && q != [] && AllLack(p, separator) && AllLack(q, separator)
      && Join(p, separator) == Join(q, separator)
    ensures p == q
  {
    JoinsEqualIffPieces(p, q, separator);
    PiecesOfWhole(p, separator);
    PiecesOfWhole(q, separator);
  }
}
