/** The label syntax as the controllers use it: keys that carry a tier, and values that are
    automatic domain names. The controllers rely on nothing but the laws below, and the
    real templates and names satisfy them. */
module LabelSyntax {
  import opened Wrappers
  import opened Decimal
  import LabelTemplate
  import DomainName

  /** The labels of an object. */
  type Labels = map<string, string>

  datatype Syntax = Syntax(
    matchTier: string -> Option<int>,
    render: int -> string,
    parse: string -> Option<DomainName.Parts>,
    name: (int, int) -> string,
    valid: string -> bool)

  /** Rendering and matching of keys are inverse, and so are naming and parsing of values. */
  ghost predicate Lawful(s: Syntax) {
    LawfulKeys(s) && LawfulValues(s)
  }

  ghost predicate LawfulKeys(s: Syntax) {
    && (forall t {:trigger s.render(t)} :: 1 <= t <= MAX_INT ==> s.matchTier(s.render(t)) == Some(t))
    && (forall k {:trigger s.matchTier(k)} :: s.matchTier(k).Some? ==>
          1 <= s.matchTier(k).value <= MAX_INT && s.render(s.matchTier(k).value) == k)
  }

  ghost predicate LawfulValues(s: Syntax) {
    && (forall t, g {:trigger s.name(t, g)} :: 1 <= t <= MAX_INT && 1 <= g <= MAX_INT ==>
          s.parse(s.name(t, g)) == Some(DomainName.Parts(t, g)))
    && (forall v {:trigger s.parse(v)} :: s.parse(v).Some? ==>
          && 1 <= s.parse(v).value.tier <= MAX_INT && 1 <= s.parse(v).value.group <= MAX_INT
          && s.name(s.parse(v).value.tier, s.parse(v).value.group) == v && v != "" && s.valid(v))
    && (forall v {:trigger s.valid(v)} :: s.valid(v) ==> NulFree(v))
  }

  predicate NulFree(v: string) {
    forall i :: 0 <= i < |v| ==> v[i] != '\0'
  }

  /** The syntax of one configured template. */
  function Real(t: LabelTemplate.Template): Syntax {
    Syntax(
      k => LabelTemplate.MatchTier(t, k),
      tier => RenderedKey(t, tier),
      v => DomainName.Parse(v),
      (tier, group) => AutoName(tier, group),
      v => DomainName.IsLabelValue(v))
  }

  function RenderedKey(t: LabelTemplate.Template, tier: int): string {
    match LabelTemplate.Render(t, tier)
    case Some(k) => k
    case None => ""
  }

  function AutoName(tier: int, group: int): string {
    if tier >= 0 && group >= 0 then DomainName.Name(tier, group) else ""
  }

  lemma RealIsLawful(t: LabelTemplate.Template)
    ensures Lawful(Real(t))
  {
    RealKeys(t);
    RealValues(t);
  }

  lemma RealKeys(t: LabelTemplate.Template)
    ensures LawfulKeys(Real(t))
  {
    var s := Real(t);
    forall tier | 1 <= tier <= MAX_INT
      ensures s.matchTier(s.render(tier)) == Some(tier)
    {
      LabelTemplate.MatchOfRender(t, tier);
    }
    forall k | s.matchTier(k).Some?
      ensures 1 <= s.matchTier(k).value <= MAX_INT && s.render(s.matchTier(k).value) == k
    {
      LabelTemplate.RenderOfMatch(t, k);
    }
  }

  lemma RealValues(t: LabelTemplate.Template)
    ensures LawfulValues(Real(t))
  {
    var s := Real(t);
    forall tier, group | 1 <= tier <= MAX_INT && 1 <= group <= MAX_INT
      ensures s.parse(s.name(tier, group)) == Some(DomainName.Parts(tier, group))
    {
      DomainName.ParseOfName(tier, group);
    }
    forall v | s.parse(v).Some?
      ensures 1 <= s.parse(v).value.tier <= MAX_INT && 1 <= s.parse(v).value.group <= MAX_INT
      ensures s.name(s.parse(v).value.tier, s.parse(v).value.group) == v && v != "" && s.valid(v)
    {
      DomainName.NameOfParse(v);
      DomainName.NameIsLabelValue(s.parse(v).value.tier, s.parse(v).value.group);
    }
  }
}
