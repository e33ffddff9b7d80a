/** The records exchanged between the analysis service, the batch
    orchestration, the report and the chat assistant. Amounts in rupees are
    whole numbers here (the application stores them as JavaScript numbers). */
module Types {

  /** The five damage categories. Each is shown and sent to the model under
      its display name, see `DamageTypeName`. */
  datatype DamageType = Scratch | Dent | Crack | BrokenPart | PaintDamage

  datatype Severity = Low | Medium | High

  /** The display (and wire) name of a damage category. */
  function DamageTypeName(t: DamageType): string
  {
    match t
    case Scratch => "Scratch"
    case Dent => "Dent"
    case Crack => "Crack"
    case BrokenPart => "Broken Part"
    case PaintDamage => "Paint Damage"
  }

  /** The display (and wire) name of a severity. */
  function SeverityName(s: Severity): string
  {
    match s
    case Low => "Low"
    case Medium => "Medium"
    case High => "High"
  }

  /** Every damage category, in the order the type lists them. */
  const AllDamageTypes: seq<DamageType> := [Scratch, Dent, Crack, BrokenPart, PaintDamage]

  /** Every severity, in the order the type lists them. */
  const AllSeverities: seq<Severity> := [Low, Medium, High]

  predicate HasSpace(s: string) {
    exists i :: 0 <= i < |s| && s[i] == ' '
  }

  /** One located defect on the vehicle. `confidenceScore` is meant to lie in
      [0, 1] but nothing checks it. */
  datatype DamageDetail = DamageDetail(
    damageType: DamageType,
    location: string,
    severity: Severity,
    estimatedCostINR: int,
    confidenceScore: real,
    explanation: string)

  /** The analysis of one photograph: its damages in order, one total, and
      the factors that drove the cost. The total is taken as reported; it is
      not recomputed from the items. */
  datatype DamageAnalysis = DamageAnalysis(
    damages: seq<DamageDetail>,
    totalEstimatedCostINR: int,
    costFactors: seq<string>)

  /** One submitted photograph (by its preview reference) with its analysis. */
  datatype AnalysisResult = AnalysisResult(image: string, analysis: DamageAnalysis)

  datatype EligibleClaim = EligibleClaim(claimType: string, description: string)

  /** The claims guide: eligible claims, ordered procedure steps and the
      documents to gather. */
  datatype ClaimsInformation = ClaimsInformation(
    eligibleClaims: seq<EligibleClaim>,
    claimProcedure: seq<string>,
    requiredDocuments: seq<string>)

  /** The list of damage categories holds all five, and their names differ. */
  lemma DamageTypeNamesDistinct()
    ensures |AllDamageTypes| == 5
    ensures forall t: DamageType :: t in AllDamageTypes
    ensures forall i, j :: 0 <= i < j < |AllDamageTypes| ==>
      DamageTypeName(AllDamageTypes[i]) != DamageTypeName(AllDamageTypes[j])
  {
    forall t: DamageType
      ensures t in AllDamageTypes
    {
      match t
      case Scratch => assert AllDamageTypes[0] == t;
      case Dent => assert AllDamageTypes[1] == t;
      case Crack => assert AllDamageTypes[2] == t;
      case BrokenPart => assert AllDamageTypes[3] == t;
      case PaintDamage => assert AllDamageTypes[4] == t;
    }
    // The names already differ in their first letter.
    forall i, j | 0 <= i < j < |AllDamageTypes|
      ensures DamageTypeName(AllDamageTypes[i]) != DamageTypeName(AllDamageTypes[j])
    {
      var a, b := DamageTypeName(AllDamageTypes[i]), DamageTypeName(AllDamageTypes[j]);
      assert a[0] != b[0];
    }
  }

  /** Exactly the two two-word categories have a space in their name. */
  lemma DamageTypeNameSpaces(t: DamageType)
    ensures HasSpace(DamageTypeName(t)) <==> t == BrokenPart || t == PaintDamage
  {
    var n := DamageTypeName(t);
    match t
    case BrokenPart => assert n[6] == ' ';
    case PaintDamage => assert n[5] == ' ';
    case _ =>
  }

  /** The list of severities holds all three, and their names differ. */
  lemma SeverityNamesDistinct()
    ensures |AllSeverities| == 3
    ensures forall s: Severity :: s in AllSeverities
    ensures forall i, j :: 0 <= i < j < |AllSeverities| ==>
      SeverityName(AllSeverities[i]) != SeverityName(AllSeverities[j])
  {
    forall s: Severity
      ensures s in AllSeverities
    {
      match s
      case Low => assert AllSeverities[0] == s;
      case Medium => assert AllSeverities[1] == s;
      case High => assert AllSeverities[2] == s;
    }
    forall i, j | 0 <= i < j < |AllSeverities|
      ensures SeverityName(AllSeverities[i]) != SeverityName(AllSeverities[j])
    {
      var a, b := SeverityName(AllSeverities[i]), SeverityName(AllSeverities[j]);
      assert a[0] != b[0];
    }
  }

  /** No name is empty and none has a space, so severity and category stay
      separable when written "severity category". */
  lemma SeverityNameShape(s: Severity)
    ensures |SeverityName(s)| > 0 && !HasSpace(SeverityName(s))
  {
  }
}
