/** The records of one scoring case, their shape rules, and `rate`. */
module Scoring {
  import opened Wrappers

  datatype Span = Span(item: string, start: nat, end: nat, quote: string)

  datatype Kind = Defect | Suggestion

  datatype Severity = Critical | Major | Minor | Optional

  datatype Finding = Finding(id: string, kind: Kind, category: string, severity: Severity, span: Option<Span>)

  datatype ProducerKind = Human | Model | Workflow | SyntheticProducer

  datatype Producer = Producer(kind: ProducerKind, name: string)

  datatype Basis = HistoricalExact | Reconstructed | SyntheticBasis

  datatype Independence = Independent | SameSystem | UnknownIndependence

  datatype Provenance = Provenance(producer: Option<Producer>, basis: Option<Basis>, independence: Independence)

  datatype Scope =
    | Unassessed | SyntheticReference | SelfAgreement | HumanReference | AuxiliaryModelAgreement | WorkflowAgreement

  datatype Label = Acceptable | Unacceptable | Unknown

  datatype Inventory = Complete | Partial | Unavailable

  datatype Reference = Reference(provenance: Provenance, acceptability: Label, inventory: Inventory,
                                 defects: seq<Finding>)

  datatype CheckState = Passed | Failed | UnknownState | Inapplicable | Invalid

  datatype ReviewCheck = ReviewCheck(id: string, state: CheckState)

  datatype Verdict = Pass | Edit | Block | Abstain | Error

  datatype Review = Review(producer: Producer, decision: Verdict, checks: seq<ReviewCheck>, findings: seq<Finding>)

  datatype JudgmentState = SaidMatched | SaidSpurious | SaidAmbiguous | SaidUnassessed

  datatype Judgment = Judgment(findingId: string, state: JudgmentState, defectIds: seq<string>)

  datatype Alignment = Alignment(provenance: Provenance, judgments: seq<Judgment>)

  datatype Applicability = IsRequired | IsOptional | IsInapplicable

  /** `waived` marks a fact check authorized as non-factual whose claim is not asserted. */
  datatype RubricCheck = RubricCheck(id: string, applicability: Applicability, waived: bool)

  datatype Rubric = Rubric(id: string, version: string, checks: seq<RubricCheck>)

  /** `evidence` stands for the artifact's digest, the sources' state and the sources in their sorted order. */
  datatype ScoreCase = ScoreCase(
    id: string, family: string, texts: map<string, string>, rubric: Rubric, evidence: string,
    reference: Reference, review: Option<Review>, alignment: Option<Alignment>)

  predicate Unique<T(==)>(items: seq<T>) {
    forall i, j | 0 <= i < j < |items| :: items[i] != items[j]
  }

  function FindingIds(rows: seq<Finding>): (ids: seq<string>)
    ensures |ids| == |rows|
    ensures forall i | 0 <= i < |rows| :: ids[i] == rows[i].id
  {
    seq(|rows|, i requires 0 <= i < |rows| => rows[i].id)
  }

  predicate ProvenanceOk(p: Provenance) {
    p.producer.None? <==> p.basis.None?
  }

  predicate FindingOk(f: Finding) {
    && (f.kind.Suggestion? <==> f.severity.Optional?)
    && (f.span.Some? ==> f.span.value.start < f.span.value.end)
  }

  predicate ReferenceOk(r: Reference) {
    && ProvenanceOk(r.provenance)
    && (r.provenance.producer.None? ==> r.acceptability.Unknown? && r.inventory.Unavailable?)
    && (r.inventory.Unavailable? ==> r.defects == [])
    && (forall f | f in r.defects :: f.kind.Defect? && FindingOk(f))
    && Unique(FindingIds(r.defects))
  }

  predicate ReviewOk(r: Review) {
    && (forall i, j | 0 <= i < j < |r.checks| :: r.checks[i].id != r.checks[j].id)
    && (forall f | f in r.findings :: FindingOk(f))
    && Unique(FindingIds(r.findings))
  }

  predicate JudgmentOk(j: Judgment) {
    && Unique(j.defectIds)
    && (j.state.SaidMatched? ==> |j.defectIds| == 1)
    && (j.state.SaidSpurious? ==> j.defectIds == [])
  }

  predicate AlignmentOk(a: Alignment) {
    && ProvenanceOk(a.provenance)
    && (a.provenance.producer.None? ==> a.judgments == [])
    && (forall j | j in a.judgments :: JudgmentOk(j))
    && (forall i, j | 0 <= i < j < |a.judgments| :: a.judgments[i].findingId != a.judgments[j].findingId)
  }

  function Rows(c: ScoreCase): seq<Finding> {
    if c.review.Some? then c.review.value.findings else []
  }

  /** A case that the shape rules of all its parts, and those across them, let through. */
  predicate ValidCase(c: ScoreCase) {
    && ReferenceOk(c.reference)
    && (c.review.Some? ==> ReviewOk(c.review.value))
    && (c.alignment.Some? ==> AlignmentOk(c.alignment.value))
    && (c.alignment.Some? ==>
          (forall j | j in c.alignment.value.judgments ::
            j.findingId in FindingIds(Rows(c)) && forall d | d in j.defectIds :: d in FindingIds(c.reference.defects)))
    && (forall i, j | 0 <= i < j < |c.rubric.checks| :: c.rubric.checks[i].id != c.rubric.checks[j].id)
    && (c.review.Some? ==>
          (forall k | k in c.review.value.checks :: exists r | r in c.rubric.checks :: r.id == k.id))
  }

  predicate SpanMatches(s: Span, texts: map<string, string>) {
    && s.item in texts && s.start <= s.end <= |texts[s.item]|
    && texts[s.item][s.start..s.end] == s.quote
  }

  /** A span fits when its quote is what stands between its ends in its item. */
  lemma SpanMeans(s: Span, texts: map<string, string>)
    ensures SpanMatches(s, texts) <==>
      s.item in texts && exists before: string, after: string ::
        texts[s.item] == before + s.quote + after && |before| == s.start && |before + s.quote| == s.end
  {
    if SpanMatches(s, texts) {
      var text := texts[s.item];
      assert text == text[..s.start] + s.quote + text[s.end..];
    }
    if s.item in texts {
      forall before: string, after: string |
          texts[s.item] == before + s.quote + after && |before| == s.start && |before + s.quote| == s.end
        ensures SpanMatches(s, texts)
      {
        assert (before + s.quote + after)[|before|..|before + s.quote|] == s.quote;
      }
    }
  }

  predicate Misplaced(f: Finding, texts: map<string, string>) {
    f.span.Some? && !SpanMatches(f.span.value, texts)
  }

  function ReferenceScope(p: Provenance): Scope {
    if p.producer.None? || p.independence.UnknownIndependence? then Unassessed
    else if p.basis == Some(SyntheticBasis) || p.producer.value.kind.SyntheticProducer? then SyntheticReference
    else if p.independence.SameSystem? then SelfAgreement
    else
      match p.producer.value.kind
      case Human => HumanReference
      case Model => AuxiliaryModelAgreement
      case Workflow => WorkflowAgreement
      case SyntheticProducer => SyntheticReference
  }

  /** What each scope says of a reference: who made it, on which basis, and how independently. */
  lemma ScopeMeans(p: Provenance)
    requires ProvenanceOk(p)
    ensures var s := ReferenceScope(p);
      var synthetic := p.basis == Some(SyntheticBasis) || ProducedBy(p, SyntheticProducer);
      var known := p.producer.Some? && !p.independence.UnknownIndependence?;
      && (s.Unassessed? <==> !known) && (s.SyntheticReference? <==> known && synthetic)
      && (s.SelfAgreement? <==> known && !synthetic && p.independence.SameSystem?)
      && (s.HumanReference? <==> !synthetic && p.independence.Independent? && ProducedBy(p, Human))
      && (s.AuxiliaryModelAgreement? <==> !synthetic && p.independence.Independent? && ProducedBy(p, Model))
      && (s.WorkflowAgreement? <==> !synthetic && p.independence.Independent? && ProducedBy(p, Workflow))
  {
  }

  predicate ProducedBy(p: Provenance, kind: ProducerKind) {
    match p.producer
    case None => false
    case Some(producer) => producer.kind == kind
  }

  datatype RateState = UnassessedRate | UndefinedRate | KnownRate

  /** The value of a known rate is numerator / denominator. */
  datatype Rate = Rate(state: RateState, numerator: nat, denominator: nat)

  /** `None` where the counts are refused. */
  function RateOf(numerator: int, denominator: int, assessed: bool): Option<Rate> {
    if !(0 <= numerator <= denominator) then None
    else Some(Rate(if !assessed then UnassessedRate else if denominator == 0 then UndefinedRate else KnownRate,
                   numerator, denominator))
  }

  /** Counts are refused exactly when they are no part and whole; a rate is known exactly when it is assessed of
      something. */
  lemma RateMeans(numerator: int, denominator: int, assessed: bool)
    ensures match RateOf(numerator, denominator, assessed)
      case None => numerator < 0 || numerator > denominator
      case Some(r) =>
        && 0 <= r.numerator == numerator <= r.denominator == denominator
        && (r.state.KnownRate? <==> assessed && denominator > 0) && (r.state.UnassessedRate? <==> !assessed)
  {
  }
}
