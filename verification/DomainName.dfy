/** Automatic domain names, tierN-groupM, and the rules for Kubernetes label values. */
module DomainName {
  import opened Wrappers
  import opened Decimal
  import ResourceName

  function Name(tier: nat, group: nat): string {
    "tier" + Itoa(tier) + "-group" + Itoa(group)
  }

  datatype Parts = Parts(tier: int, group: int)

  /** The length of the leading run of digits. */
  function DigitRun(s: string): (k: nat)
    ensures k <= |s| && AllDigits(s[..k]) && (k < |s| ==> !IsDigit(s[k]))
  {
    if s == "" || !IsDigit(s[0]) then 0 else 1 + DigitRun(s[1..])
  }

  /** ^tier([1-9][0-9]*)-group([1-9][0-9]*)$ with both captures within a 64-bit int. */
  function Parse(value: string): Option<Parts> {
    if !("tier" <= value) then None
    else
      var rest := value[4..];
      var tier := rest[..DigitRun(rest)];
      var tail := rest[DigitRun(rest)..];
      if !("-group" <= tail) then None
      else
        match (ParseCanonical(tier), ParseCanonical(tail[6..]))
        case (Some(t), Some(g)) => Some(Parts(t, g))
        case _ => None
  }

  lemma {:induction false} DigitRunOf(d: string, tail: string)
    requires AllDigits(d) && (tail == "" || !IsDigit(tail[0]))
    ensures DigitRun(d + tail) == |d|
    decreases |d|
  {
    if d == "" {
      assert d + tail == tail;
    } else {
      assert (d + tail)[1..] == d[1..] + tail;
      DigitRunOf(d[1..], tail);
    }
  }

  lemma ParseOfName(tier: nat, group: nat)
    requires 1 <= tier <= MAX_INT && 1 <= group <= MAX_INT
    ensures Parse(Name(tier, group)) == Some(Parts(tier, group))
  {
    var value := Name(tier, group);
    var tail := "-group" + Itoa(group);
    assert value == "tier" + (Itoa(tier) + tail);
    assert value[..4] == "tier" && value[4..] == Itoa(tier) + tail;
    DigitRunOf(Itoa(tier), tail);
    assert value[4..][..|Itoa(tier)|] == Itoa(tier) && value[4..][|Itoa(tier)|..] == tail;
    assert tail[..6] == "-group" && tail[6..] == Itoa(group);
    ParseCanonicalOfItoa(tier);
    ParseCanonicalOfItoa(group);
  }

  lemma Reassemble(value: string, n: nat)
    requires "tier" <= value && n <= |value| - 4 && "-group" <= value[4..][n..]
    ensures value == "tier" + value[4..][..n] + "-group" + value[4..][n..][6..]
  {
    var rest := value[4..];
    var tail := rest[n..];
    assert value == value[..4] + rest && rest == rest[..n] + tail && tail == tail[..6] + tail[6..];
  }

  /** A value that parses is the name of its parts, so parsing is injective. */
  lemma NameOfParse(value: string)
    requires Parse(value).Some?
    ensures var p := Parse(value).value;
      1 <= p.tier <= MAX_INT && 1 <= p.group <= MAX_INT && value == Name(p.tier, p.group)
  {
    var rest := value[4..];
    var tier := rest[..DigitRun(rest)];
    var tail := rest[DigitRun(rest)..];
    ItoaOfParseCanonical(tier);
    ItoaOfParseCanonical(tail[6..]);
    Reassemble(value, DigitRun(rest));
  }

  predicate IsAlphanumeric(c: char) {
    IsDigit(c) || 'a' <= c <= 'z' || 'A' <= c <= 'Z'
  }

  /** validation.IsValidLabelValue. */
  predicate IsLabelValue(s: string) {
    && |s| <= 63
    && (s == "" || (IsAlphanumeric(s[0]) && IsAlphanumeric(s[|s| - 1])))
    && forall i :: 0 <= i < |s| ==> IsAlphanumeric(s[i]) || s[i] in {'-', '_', '.'}
  }

  /** Every automatic name is a valid label value, whatever the 64-bit numbers in it. */
  lemma NameIsLabelValue(tier: nat, group: nat)
    requires 1 <= tier <= MAX_INT && 1 <= group <= MAX_INT
    ensures Name(tier, group) != "" && IsLabelValue(Name(tier, group))
  {
    IntHasAtMost19Digits(tier);
    IntHasAtMost19Digits(group);
    var a, b := Itoa(tier), Itoa(group);
    var s := Name(tier, group);
    forall i | 0 <= i < |s|
      ensures IsAlphanumeric(s[i]) || s[i] == '-'
    {
      if i < 4 {
        assert s[i] == "tier"[i];
      } else if i < 4 + |a| {
        assert s[i] == a[i - 4];
      } else if i < 10 + |a| {
        assert s[i] == "-group"[i - 4 - |a|];
      } else {
        assert s[i] == b[i - 10 - |a|];
      }
    }
    assert s[0] == 't' && s[|s| - 1] == b[|b| - 1];
  }

  // ------------------------------------------------------------------- label values, spelled out

  ghost predicate IsSpelled(c: char) {
    c in ResourceName.SMALL || c in ResourceName.CAPITALS || c in ResourceName.DIGITS
  }

  /** At most 63 characters: letters, digits, and in between also dashes, underscores and dots. */
  ghost predicate SpelledAsLabelValue(s: string) {
    && |s| <= 63 && (forall i :: 0 <= i < |s| ==> IsSpelled(s[i]) || s[i] in "-_.")
    && (s != "" ==> s[0] !in "-_." && s[|s| - 1] !in "-_.")
  }

  lemma AlphanumericIsSpelled(c: char)
    ensures IsAlphanumeric(c) <==> IsSpelled(c)
    ensures c in "-_." ==> !IsSpelled(c)
  {
    ResourceName.SmallAt(c);
    ResourceName.CapitalIn(c);
    ResourceName.DigitAt(c);
  }

  lemma LabelValueIsSpelled(s: string)
    ensures IsLabelValue(s) <==> SpelledAsLabelValue(s)
  {
    forall i | 0 <= i < |s|
      ensures IsAlphanumeric(s[i]) <==> IsSpelled(s[i])
      ensures s[i] in "-_." ==> !IsSpelled(s[i])
    {
      AlphanumericIsSpelled(s[i]);
    }
  }
}
