/** normalizeResourceName: lower-case letters and digits, every run of anything else one dash,
    no dash at either end. Normalizing twice changes nothing. */
module ResourceName {

  predicate IsKept(c: char) {
    'a' <= c <= 'z' || '0' <= c <= '9'
  }

  /** Lower-casing, as far as it yields kept characters: ASCII letters, and the Kelvin sign
      and the dotted capital I, which lower to ASCII. Nothing else lowers to a kept character. */
  function Lower(c: char): char {
    if 'A' <= c <= 'Z' then (c - 'A') + 'a' else if c == '\U{212A}' then 'k' else if c == '\U{130}' then 'i' else c
  }

  /** The loop over the characters. */
  function Squeeze(s: string, previousDash: bool): string {
    if s == "" then ""
    else if IsKept(Lower(s[0])) then [Lower(s[0])] + Squeeze(s[1..], false)
    else if !previousDash then "-" + Squeeze(s[1..], true)
    else Squeeze(s[1..], true)
  }

  function TrimLeft(s: string): string {
    if s != "" && s[0] == '-' then TrimLeft(s[1..]) else s
  }

  function TrimRight(s: string): string {
    if s != "" && s[|s| - 1] == '-' then TrimRight(s[..|s| - 1]) else s
  }

  function Normalize(name: string): string {
    TrimRight(TrimLeft(Squeeze(name, false)))
  }

  /** normalizeResourceName. Trimming white space first makes no difference: it would become
      a dash at one end, and those are trimmed. */
  method NormalizeResourceName(name: string) returns (r: string)
    ensures r == Normalize(name)
  {
    var built, previousDash := "", false;
    for i := 0 to |name|
      invariant built + Squeeze(name[i..], previousDash) == Squeeze(name, false)
    {
      var c := Lower(name[i]);
      assert name[i..][1..] == name[i + 1..];
      if IsKept(c) {
        assert built + ([c] + Squeeze(name[i + 1..], false)) == (built + [c]) + Squeeze(name[i + 1..], false);
        built, previousDash := built + [c], false;
      } else if !previousDash {
        assert built + ("-" + Squeeze(name[i + 1..], true)) == (built + "-") + Squeeze(name[i + 1..], true);
        built, previousDash := built + "-", true;
      }
    }
    assert built == Squeeze(name, false);
    r := TrimRight(TrimLeft(built));
  }

  // ------------------------------------------------------------------- idempotence

  /** Kept characters and single dashes. */
  ghost predicate Squeezed(s: string) {
    && (forall i :: 0 <= i < |s| ==> IsKept(s[i]) || s[i] == '-')
    && (forall i :: 0 <= i < |s| - 1 ==> s[i] != '-' || s[i + 1] != '-')
  }

  ghost predicate Normal(s: string) {
    Squeezed(s) && (s != "" ==> s[0] != '-' && s[|s| - 1] != '-')
  }

  lemma {:induction false} SqueezeIsSqueezed(s: string, previousDash: bool)
    ensures Squeezed(Squeeze(s, previousDash))
    ensures previousDash && Squeeze(s, previousDash) != "" ==> Squeeze(s, previousDash)[0] != '-'
    decreases |s|
  {
    if s != "" {
      SqueezeIsSqueezed(s[1..], !IsKept(Lower(s[0])));
    }
  }

  lemma {:induction false} TrimLeftKeeps(s: string)
    requires Squeezed(s)
    ensures Squeezed(TrimLeft(s)) && (TrimLeft(s) != "" ==> TrimLeft(s)[0] != '-')
    decreases |s|
  {
    if s != "" && s[0] == '-' {
      TrimLeftKeeps(s[1..]);
    }
  }

  lemma {:induction false} TrimRightKeeps(s: string)
    requires Squeezed(s) && (s != "" ==> s[0] != '-')
    ensures Normal(TrimRight(s))
    decreases |s|
  {
    if s != "" && s[|s| - 1] == '-' {
      TrimRightKeeps(s[..|s| - 1]);
    }
  }

  lemma NormalizeIsNormal(name: string)
    ensures Normal(Normalize(name))
  {
    SqueezeIsSqueezed(name, false);
    TrimLeftKeeps(Squeeze(name, false));
    TrimRightKeeps(TrimLeft(Squeeze(name, false)));
  }

  lemma {:induction false} SqueezeKeepsSqueezed(s: string, previousDash: bool)
    requires Squeezed(s) && (previousDash && s != "" ==> s[0] != '-')
    ensures Squeeze(s, previousDash) == s
    decreases |s|
  {
    if s != "" {
      SqueezeKeepsSqueezed(s[1..], s[0] == '-');
    }
  }

  /** A name in normal form stays as it is, so normalizing is idempotent. */
  lemma NormalizeIdempotent(name: string)
    ensures Normalize(Normalize(name)) == Normalize(name)
  {
    NormalizeIsNormal(name);
    SqueezeKeepsSqueezed(Normalize(name), false);
  }

  // ------------------------------------------------------------------ many spellings

  function Dashes(n: nat): string {
    if n == 0 then "" else "-" + Dashes(n - 1)
  }

  lemma {:induction false} SqueezeDashes(n: nat)
    ensures |Dashes(n)| == n && Squeeze(Dashes(n), true) == ""
    ensures n > 0 ==> Squeeze(Dashes(n), false) == "-"
    decreases n
  {
    if n > 0 {
      SqueezeDashes(n - 1);
      assert Dashes(n)[1..] == Dashes(n - 1);
    }
  }

  lemma {:induction false} SqueezeThenDashes(s: string, previousDash: bool, n: nat)
    requires Squeezed(s) && (previousDash && s != "" ==> s[0] != '-') && s != "" && s[|s| - 1] != '-' && n > 0
    ensures Squeeze(s + Dashes(n), previousDash) == s + "-"
    decreases |s|
  {
    var whole := s + Dashes(n);
    assert whole[1..] == s[1..] + Dashes(n) && whole[0] == s[0];
    if |s| == 1 {
      assert whole[1..] == Dashes(n);
      SqueezeDashes(n);
    } else {
      SqueezeThenDashes(s[1..], s[0] == '-', n);
    }
  }

  /** A name in normal form followed by dashes is another spelling of it. */
  lemma DashesNormalizeAway(key: string, n: nat)
    requires Normal(key) && n > 0
    ensures Normalize(key + Dashes(n)) == key && |key + Dashes(n)| == |key| + n
  {
    SqueezeDashes(n);
    if key == "" {
      assert key + Dashes(n) == Dashes(n);
      assert TrimLeft("-") == TrimLeft("-"[1..]) == "";
    } else {
      SqueezeThenDashes(key, false, n);
      var longer := key + "-";
      assert longer[0] == key[0] && longer[|key|] == '-' && longer[..|key|] == key;
      assert TrimLeft(longer) == longer;
      assert TrimRight(longer) == TrimRight(key) == key;
    }
  }

  // ------------------------------------------------------------- the result, by position

  const CAPITALS: string := "ABCDEFGHIJKLMNOPQRSTUVWXYZ"
  const SMALL: string := "abcdefghijklmnopqrstuvwxyz"
  const DIGITS: string := "0123456789"

  /** `c` is written as the letter or digit `k`: itself, its small letter, or what the Kelvin sign
      and the dotted capital I become. */
  ghost predicate WrittenAs(c: char, k: char) {
    || (c == k && (c in SMALL || c in DIGITS))
    || (exists i :: 0 <= i < 26 && CAPITALS[i] == c && SMALL[i] == k)
    || (c == '\U{212A}' && k == 'k') || (c == '\U{130}' && k == 'i')
  }

  ghost predicate IsLetter(c: char) {
    exists k :: WrittenAs(c, k)
  }

  lemma SmallAt(c: char)
    ensures c in SMALL <==> 'a' <= c <= 'z'
    ensures 'a' <= c <= 'z' ==> SMALL[c as int - 'a' as int] == c
  {
    if c in SMALL {
      var i :| 0 <= i < |SMALL| && SMALL[i] == c;
    }
  }

  lemma CapitalAt(i: nat)
    requires i < 26
    ensures CAPITALS[i] as int == 'A' as int + i && SMALL[i] as int == 'a' as int + i
  {
  }

  lemma CapitalIn(c: char)
    ensures c in CAPITALS <==> 'A' <= c <= 'Z'
  {
    if 'A' <= c <= 'Z' {
      CapitalAt(c as int - 'A' as int);
    }
    if c in CAPITALS {
      var i :| 0 <= i < 26 && CAPITALS[i] == c;
      CapitalAt(i);
    }
  }

  lemma DigitAt(c: char)
    ensures c in DIGITS <==> '0' <= c <= '9'
  {
    if c in DIGITS {
      var i :| 0 <= i < |DIGITS| && DIGITS[i] == c;
    }
    if '0' <= c <= '9' {
      assert DIGITS[c as int - '0' as int] == c;
    }
  }

  lemma LowerIsWritten(c: char)
    ensures IsKept(Lower(c)) ==> WrittenAs(c, Lower(c)) && Lower(c) != '-'
    ensures IsLetter(c) ==> IsKept(Lower(c))
  {
    SmallAt(c);
    DigitAt(c);
    if 'A' <= c <= 'Z' {
      CapitalAt(c as int - 'A' as int);
    }
    if k :| WrittenAs(c, k) {
      if i :| 0 <= i < 26 && CAPITALS[i] == c && SMALL[i] == k {
        CapitalAt(i);
      }
    }
  }

  /** Where each character of the result comes from: letters from the letters that are written so,
      dashes from something else; in order, with every letter used, and nothing between letters
      that stand side by side. */
  ghost predicate Placed(name: string, r: string, at: seq<int>) {
    Ordered(name, r, at) && AllWritten(name, r, at) && AllUsed(name, at) && SideBySide(r, at)
  }

  ghost predicate Ordered(name: string, r: string, at: seq<int>) {
    && |at| == |r| && (forall i :: 0 <= i < |at| ==> 0 <= at[i] < |name|)
    && (forall i, j :: 0 <= i < j < |at| ==> at[i] < at[j])
  }

  ghost predicate AllWritten(name: string, r: string, at: seq<int>)
    requires Ordered(name, r, at)
  {
    forall i :: 0 <= i < |r| ==> StandsAs(name[at[i]], r[i])
  }

  ghost predicate StandsAs(c: char, k: char) {
    if k == '-' then !IsLetter(c) else WrittenAs(c, k)
  }

  ghost predicate AllUsed(name: string, at: seq<int>) {
    forall j :: 0 <= j < |name| && IsLetter(name[j]) ==> j in at
  }

  ghost predicate SideBySide(r: string, at: seq<int>)
    requires |at| == |r|
  {
    forall i {:trigger at[i]} :: 0 <= i < |r| - 1 && r[i] != '-' && r[i + 1] != '-' ==> at[i + 1] == at[i] + 1
  }

  ghost function Shifted(at: seq<int>): seq<int> {
    seq(|at|, i requires 0 <= i < |at| => at[i] + 1)
  }

  lemma UsedShifted(s: string, at: seq<int>)
    requires s != "" && AllUsed(s[1..], at)
    ensures forall j :: 0 < j < |s| && IsLetter(s[j]) ==> j in Shifted(at)
  {
    forall j | 0 < j < |s| && IsLetter(s[j])
      ensures j in Shifted(at)
    {
      assert s[1..][j - 1] == s[j] && j - 1 in at;
      var i :| 0 <= i < |at| && at[i] == j - 1;
      assert Shifted(at)[i] == j;
    }
  }

  lemma PlacedSkip(s: string, r: string, at: seq<int>)
    requires s != "" && Placed(s[1..], r, at) && !IsLetter(s[0])
    ensures Placed(s, r, Shifted(at))
  {
    UsedShifted(s, at);
    forall i | 0 <= i < |r|
      ensures StandsAs(s[Shifted(at)[i]], r[i])
    {
      assert StandsAs(s[1..][at[i]], r[i]);
    }
  }

  lemma OrderedCons(s: string, k: char, r: string, at: seq<int>)
    requires s != "" && Ordered(s[1..], r, at)
    ensures Ordered(s, [k] + r, [0] + Shifted(at))
  {
  }

  lemma WrittenCons(s: string, k: char, r: string, at: seq<int>)
    requires s != "" && Ordered(s[1..], r, at) && AllWritten(s[1..], r, at) && StandsAs(s[0], k)
    requires Ordered(s, [k] + r, [0] + Shifted(at))
    ensures AllWritten(s, [k] + r, [0] + Shifted(at))
  {
    var more, longer := [0] + Shifted(at), [k] + r;
    forall i | 0 <= i < |longer|
      ensures StandsAs(s[more[i]], longer[i])
    {
      if i > 0 {
        assert more[i] == at[i - 1] + 1 && longer[i] == r[i - 1];
        assert StandsAs(s[1..][at[i - 1]], r[i - 1]);
      }
    }
  }

  lemma SideBySideCons(k: char, r: string, at: seq<int>)
    requires |at| == |r| && SideBySide(r, at) && (r != "" && k != '-' && r[0] != '-' ==> at[0] == 0)
    ensures SideBySide([k] + r, [0] + Shifted(at))
  {
    var more, longer := [0] + Shifted(at), [k] + r;
    forall i | 0 <= i < |longer| - 1 && longer[i] != '-' && longer[i + 1] != '-'
      ensures more[i + 1] == more[i] + 1
    {
      if i > 0 {
        assert longer[i] == r[i - 1] && longer[i + 1] == r[i];
        assert at[i - 1] + 1 == more[i];
      }
    }
  }

  lemma PlacedCons(s: string, k: char, r: string, at: seq<int>)
    requires s != "" && Placed(s[1..], r, at) && StandsAs(s[0], k)
    requires r != "" && k != '-' && r[0] != '-' ==> at[0] == 0
    ensures Placed(s, [k] + r, [0] + Shifted(at))
  {
    OrderedCons(s, k, r, at);
    WrittenCons(s, k, r, at);
    SideBySideCons(k, r, at);
    UsedShifted(s, at);
    assert ([0] + Shifted(at))[0] == 0;
  }

  lemma {:induction false} SqueezePlaces(s: string, previousDash: bool) returns (at: seq<int>)
    ensures Placed(s, Squeeze(s, previousDash), at)
    ensures !previousDash && s != "" ==> at != [] && at[0] == 0
    decreases |s|
  {
    if s == "" {
      at := [];
    } else {
      LowerIsWritten(s[0]);
      var rest := SqueezePlaces(s[1..], !IsKept(Lower(s[0])));
      if IsKept(Lower(s[0])) {
        PlacedCons(s, Lower(s[0]), Squeeze(s[1..], false), rest);
        at := [0] + Shifted(rest);
      } else if !previousDash {
        PlacedCons(s, '-', Squeeze(s[1..], true), rest);
        at := [0] + Shifted(rest);
      } else {
        PlacedSkip(s, Squeeze(s[1..], true), rest);
        at := Shifted(rest);
      }
    }
  }

  lemma DropFirstDash(name: string, r: string, at: seq<int>)
    requires Placed(name, r, at) && r != "" && r[0] == '-'
    ensures Placed(name, r[1..], at[1..])
  {
    forall j | 0 <= j < |name| && IsLetter(name[j])
      ensures j in at[1..]
    {
      var i :| 0 <= i < |at| && at[i] == j;
      assert at[1..][i - 1] == j;
    }
    forall i | 0 <= i < |r[1..]| - 1 && r[1..][i] != '-' && r[1..][i + 1] != '-'
      ensures at[1..][i + 1] == at[1..][i] + 1
    {
      assert at[i + 1] == at[1..][i];
    }
  }

  lemma DropLastDash(name: string, r: string, at: seq<int>)
    requires Placed(name, r, at) && r != "" && r[|r| - 1] == '-'
    ensures Placed(name, r[..|r| - 1], at[..|r| - 1])
  {
    var n := |r| - 1;
    forall j | 0 <= j < |name| && IsLetter(name[j])
      ensures j in at[..n]
    {
      var i :| 0 <= i < |at| && at[i] == j;
      assert at[..n][i] == j;
    }
    forall i | 0 <= i < n - 1 && r[..n][i] != '-' && r[..n][i + 1] != '-'
      ensures at[..n][i + 1] == at[..n][i] + 1
    {
      assert at[i] == at[..n][i];
    }
  }

  lemma {:induction false} TrimLeftPlaces(name: string, r: string, at: seq<int>) returns (less: seq<int>)
    requires Placed(name, r, at)
    ensures Placed(name, TrimLeft(r), less)
    decreases |r|
  {
    if r != "" && r[0] == '-' {
      DropFirstDash(name, r, at);
      less := TrimLeftPlaces(name, r[1..], at[1..]);
    } else {
      less := at;
    }
  }

  lemma {:induction false} TrimRightPlaces(name: string, r: string, at: seq<int>) returns (less: seq<int>)
    requires Placed(name, r, at)
    ensures Placed(name, TrimRight(r), less)
    decreases |r|
  {
    if r != "" && r[|r| - 1] == '-' {
      DropLastDash(name, r, at);
      less := TrimRightPlaces(name, r[..|r| - 1], at[..|r| - 1]);
    } else {
      less := at;
    }
  }

  /** Every character of the normalized name has its place in the name; no dash is at an end or
      next to another. */
  lemma NormalizedByPosition(name: string) returns (at: seq<int>)
    ensures Placed(name, Normalize(name), at) && Normal(Normalize(name))
  {
    at := SqueezePlaces(name, false);
    at := TrimLeftPlaces(name, Squeeze(name, false), at);
    at := TrimRightPlaces(name, TrimLeft(Squeeze(name, false)), at);
    NormalizeIsNormal(name);
  }
}
