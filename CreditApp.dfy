/** The decision layer of the credit-risk front-end: the feature record built
    from stored defaults and the ten form fields, the three threshold families
    that turn the creditworthiness score into a risk tier, an action and a
    recommendation, the downloadable summary table and its file name.
    The trained preprocessor and random forest are opaque: their label and
    probability arrive as inputs. */
module CreditApp {
  import opened PyBuiltins
  import opened Banding

  // ---------------------------------------------------------------- records

  /** A value in a feature record: a category name, a whole number, or a
      real number (the stored defaults may hold any of the three). */
  datatype Value = Text(s: string) | Int(i: int) | Real(r: real)

  /** A feature record: field name to value, like the Python dictionary. */
  type FeatureRecord = map<string, Value>

  /** The ten fields of the application form. */
  datatype CreditForm = CreditForm(
    checking: string, amount: int, duration: int, age: int, savings: string,
    rate: int, plans: string, marital: string, purpose: string, employment: string)

  /** The keys of the `inputs` dictionary, in the order it lists them. */
  const InputKeys: seq<string> :=
    ["Cbal", "Camt", "Cdur", "age", "Sbal", "InRate", "inPlans", "MSG", "Cpur", "Edur"]

  /** The `inputs` dictionary built from the form. */
  function Inputs(f: CreditForm): FeatureRecord {
    map["Cbal" := Text(f.checking), "Camt" := Int(f.amount), "Cdur" := Int(f.duration),
        "age" := Int(f.age), "Sbal" := Text(f.savings), "InRate" := Int(f.rate),
        "inPlans" := Text(f.plans), "MSG" := Text(f.marital), "Cpur" := Text(f.purpose),
        "Edur" := Text(f.employment)]
  }

  /** The inputs record has exactly the ten keys, all different, so no form
      field overwrites another. */
  lemma InputsRecord(f: CreditForm)
    ensures Inputs(f).Keys == set k | k in InputKeys
    ensures |InputKeys| == 10
    ensures forall i, j :: 0 <= i < j < |InputKeys| ==> InputKeys[i] != InputKeys[j]
  {
  }

  // ------------------------------------------------------- default merging

  /** `data = defaults.copy(); data.update(inputs)` as a value: the keys of
      both, with the inputs' values winning on shared keys. */
  function Merge(defaults: FeatureRecord, inputs: FeatureRecord): (r: FeatureRecord)
    ensures r.Keys == defaults.Keys + inputs.Keys
    ensures forall k :: k in inputs ==> r[k] == inputs[k]
    ensures forall k :: k in defaults && k !in inputs ==> r[k] == defaults[k]
  {
    defaults + inputs
  }

  /** Merging the same inputs into the merged record changes nothing. */
  lemma MergeIdempotent(defaults: FeatureRecord, inputs: FeatureRecord)
    ensures Merge(Merge(defaults, inputs), inputs) == Merge(defaults, inputs)
  {
  }

  /** Every field of a schema is present after the merge as long as the
      defaults cover the fields the form does not supply. */
  lemma MergeComplete(defaults: FeatureRecord, inputs: FeatureRecord, schema: set<string>)
    requires schema - inputs.Keys <= defaults.Keys
    ensures schema <= Merge(defaults, inputs).Keys
  {
  }

  /** The trained preprocessor and random forest, seen only through what they
      return for a complete record: the class label and P(creditworthy). */
  datatype Classifier = Classifier(
    predict: FeatureRecord -> int,
    positiveProbability: FeatureRecord -> real)

  /** `predict(inputs)`: copy the defaults, update the copy with the inputs,
      and classify the merged record. */
  method Predict(defaults: FeatureRecord, inputs: FeatureRecord, model: Classifier)
    returns (pred: int, positive: real)
    ensures pred == model.predict(Merge(defaults, inputs))
    ensures positive == model.positiveProbability(Merge(defaults, inputs))
  {
    var data := defaults;
    data := data + inputs;
    pred := model.predict(data);
    positive := model.positiveProbability(data);
  }

  /** `score = prob[1] * 100`: the positive-class probability as a percentage. */
  function ScoreOf(positive: real): (score: real)
    ensures 0.0 <= positive <= 1.0 ==> 0.0 <= score <= 100.0
  {
    positive * 100.0
  }

  // ------------------------------------------------------------ the banner

  /** The big result card, chosen by the classifier's label alone; balloons
      are released with the approval card. */
  datatype Banner = Approved | ReviewNeeded

  function BannerOf(pred: int): Banner {
    if pred == 1 then Approved else ReviewNeeded
  }

  // --------------------------------------------------- the three families

  datatype RiskTier = Low | Medium | High
  datatype Action = Approve | Review | Reject
  datatype Recommendation = Strong | Good | Risky | HighRisk

  /** `"LOW" if score > 70 else "MEDIUM" if score > 40 else "HIGH"`. */
  function RiskOf(score: real): RiskTier {
    if score > 70.0 then Low else if score > 40.0 then Medium else High
  }

  /** `"APPROVE" if score > 60 else "REVIEW" if score > 40 else "REJECT"`. */
  function ActionOf(score: real): Action {
    if score > 60.0 then Approve else if score > 40.0 then Review else Reject
  }

  /** The if/elif chain that picks the recommendation box. */
  function RecommendationOf(score: real): Recommendation {
    if score > 70.0 then Strong
    else if score > 50.0 then Good
    else if score > 40.0 then Risky
    else HighRisk
  }

  /** Each family as a ladder on its own cut points, worst band first. */
  const RiskCuts: seq<real> := [40.0, 70.0]
  const RiskLadder: seq<RiskTier> := [High, Medium, Low]
  const ActionCuts: seq<real> := [40.0, 60.0]
  const ActionLadder: seq<Action> := [Reject, Review, Approve]
  const RecommendationCuts: seq<real> := [40.0, 50.0, 70.0]
  const RecommendationLadder: seq<Recommendation> := [HighRisk, Risky, Good, Strong]

  /** How good an outcome is: its position on the family's ladder. */
  function RiskRank(t: RiskTier): (k: nat)
    ensures k < |RiskLadder| && RiskLadder[k] == t
  {
    match t
    case High => 0
    case Medium => 1
    case Low => 2
  }

  function ActionRank(a: Action): (k: nat)
    ensures k < |ActionLadder| && ActionLadder[k] == a
  {
    match a
    case Reject => 0
    case Review => 1
    case Approve => 2
  }

  function RecommendationRank(r: Recommendation): (k: nat)
    ensures k < |RecommendationLadder| && RecommendationLadder[k] == r
  {
    match r
    case HighRisk => 0
    case Risky => 1
    case Good => 2
    case Strong => 3
  }

  /** Each conditional chain agrees with the band ladder on its cut points. */
  lemma FamiliesFollowCuts(score: real)
    ensures RiskOf(score) == RiskLadder[BandIndex(score, RiskCuts)]
    ensures ActionOf(score) == ActionLadder[BandIndex(score, ActionCuts)]
    ensures RecommendationOf(score) == RecommendationLadder[BandIndex(score, RecommendationCuts)]
  {
  }

  /** Risk tier: LOW above 70, MEDIUM above 40 up to 70, HIGH up to 40. */
  lemma RiskBands(score: real)
    ensures RiskOf(score) == Low <==> score > 70.0
    ensures RiskOf(score) == Medium <==> 40.0 < score <= 70.0
    ensures RiskOf(score) == High <==> score <= 40.0
  {
    FamiliesFollowCuts(score);
    BandIndexExact(score, RiskCuts, 0);
    BandIndexExact(score, RiskCuts, 1);
    BandIndexExact(score, RiskCuts, 2);
  }

  /** Action: APPROVE above 60, REVIEW above 40 up to 60, REJECT up to 40. */
  lemma ActionBands(score: real)
    ensures ActionOf(score) == Approve <==> score > 60.0
    ensures ActionOf(score) == Review <==> 40.0 < score <= 60.0
    ensures ActionOf(score) == Reject <==> score <= 40.0
  {
    FamiliesFollowCuts(score);
    BandIndexExact(score, ActionCuts, 0);
    BandIndexExact(score, ActionCuts, 1);
    BandIndexExact(score, ActionCuts, 2);
  }

  /** Recommendation: STRONG above 70, GOOD above 50, RISKY above 40, else HIGH RISK. */
  lemma RecommendationBands(score: real)
    ensures RecommendationOf(score) == Strong <==> score > 70.0
    ensures RecommendationOf(score) == Good <==> 50.0 < score <= 70.0
    ensures RecommendationOf(score) == Risky <==> 40.0 < score <= 50.0
    ensures RecommendationOf(score) == HighRisk <==> score <= 40.0
  {
    FamiliesFollowCuts(score);
    BandIndexExact(score, RecommendationCuts, 0);
    BandIndexExact(score, RecommendationCuts, 1);
    BandIndexExact(score, RecommendationCuts, 2);
    BandIndexExact(score, RecommendationCuts, 3);
  }

  /** Every cut point belongs to the band below it. */
  lemma CutPointsFallLow()
    ensures RiskOf(70.0) == Medium && RiskOf(40.0) == High
    ensures ActionOf(60.0) == Review && ActionOf(40.0) == Reject
    ensures RecommendationOf(70.0) == Good && RecommendationOf(50.0) == Risky
    ensures RecommendationOf(40.0) == HighRisk
  {
  }

  /** A higher score never yields a worse tier, action or recommendation. */
  lemma FamiliesMonotone(s1: real, s2: real)
    requires s1 <= s2
    ensures RiskRank(RiskOf(s1)) <= RiskRank(RiskOf(s2))
    ensures ActionRank(ActionOf(s1)) <= ActionRank(ActionOf(s2))
    ensures RecommendationRank(RecommendationOf(s1)) <= RecommendationRank(RecommendationOf(s2))
  {
    FamiliesFollowCuts(s1);
    FamiliesFollowCuts(s2);
    BandIndexMonotone(s1, s2, RiskCuts);
    BandIndexMonotone(s1, s2, ActionCuts);
    BandIndexMonotone(s1, s2, RecommendationCuts);
  }

  /** Above the lowest band the families differ, but never contradict: a
      STRONG box comes with LOW risk and APPROVE, and APPROVE never comes
      with HIGH risk. */
  lemma FamiliesConsistent(score: real)
    ensures RecommendationOf(score) == Strong <==> RiskOf(score) == Low
    ensures RiskOf(score) == Low ==> ActionOf(score) == Approve
    ensures ActionOf(score) == Approve ==> RiskOf(score) != High
    ensures RecommendationOf(score) == Risky ==> ActionOf(score) == Review && RiskOf(score) == Medium
  {
  }

  // ------------------------------------------------------ displayed texts

  /** The risk card's text, an emoji, a space and the tier's name. */
  function RiskText(t: RiskTier): string {
    match t
    case Low => "\U{1F7E2} LOW"
    case Medium => "\U{1F7E1} MEDIUM"
    case High => "\U{1F534} HIGH"
  }

  function ActionText(a: Action): string {
    match a
    case Approve => "\U{2705} APPROVE"
    case Review => "\U{1F4CB} REVIEW"
    case Reject => "\U{274C} REJECT"
  }

  /** Which of Streamlit's four message boxes shows the recommendation. */
  datatype BoxKind = Success | Info | Warning | Error

  datatype RecommendationBox = RecommendationBox(kind: BoxKind, headline: string, points: seq<string>)

  function RecommendationBoxOf(r: Recommendation): RecommendationBox {
    match r
    case Strong => RecommendationBox(Success, "\U{2705} STRONG CANDIDATE",
      ["Approve immediately", "Standard terms apply", "No extra documents needed"])
    case Good => RecommendationBox(Info, "\U{1F4CB} GOOD CANDIDATE",
      ["Approve with verification", "Check recent bank statements", "Standard monitoring"])
    case Risky => RecommendationBox(Warning, "\U{26A0}\U{FE0F} RISKY CANDIDATE",
      ["Needs guarantor", "Consider lower amount", "Extra documentation required"])
    case HighRisk => RecommendationBox(Error, "\U{274C} HIGH RISK",
      ["Reject or need collateral", "Too many risk factors", "Alternative products only"])
  }

  // ------------------------------------------------------ the summary table

  /** A cell of the Value column, kept typed; the thousands separator and the
      unit words are formatting. */
  datatype Cell = Plain(text: string) | Rupees(amount: int) | Months(months: int)
                | Years(years: int) | Percent(percent: int)

  /** The value a Value-column cell displays, as a feature-record value. */
  function CellValue(c: Cell): Value {
    match c
    case Plain(t) => Text(t)
    case Rupees(n) => Int(n)
    case Months(n) => Int(n)
    case Years(n) => Int(n)
    case Percent(n) => Int(n)
  }

  /** The five columns of the downloadable summary; the credit score column
      holds the score itself, its one-decimal rendering being formatting. */
  datatype Summary = Summary(
    field: seq<string>, value: seq<Cell>, creditScore: seq<real>,
    decision: seq<string>, riskLevel: seq<string>)

  const SummaryFields: seq<string> :=
    ["Checking Balance", "Credit Amount", "Duration", "Age", "Savings Balance",
     "Installment Rate", "Other Plans", "Marital Status", "Loan Purpose", "Employment Duration"]

  const Green: string := "\U{1F7E2} "
  const Yellow: string := "\U{1F7E1} "
  const Red: string := "\U{1F534} "

  /** `risk.replace(green, "").replace(yellow, "").replace(red, "")`. */
  function StripTierEmoji(risk: string): string {
    Replace(Replace(Replace(risk, Green, ""), Yellow, ""), Red, "")
  }

  /** The tier's bare name. */
  function TierName(t: RiskTier): string {
    match t
    case Low => "LOW"
    case Medium => "MEDIUM"
    case High => "HIGH"
  }

  /** Stripping removes one leading tier emoji from a name that has none. */
  lemma StripLeadingEmoji(emoji: string, name: string)
    requires emoji == Green || emoji == Yellow || emoji == Red
    requires Green[0] !in name && Yellow[0] !in name && Red[0] !in name
    ensures StripTierEmoji(emoji + name) == name
  {
    assert "" + name == name;
    if emoji == Green {
      ReplaceLeading(Green, name, "");
      ReplaceAbsent(name, Yellow, "");
      ReplaceAbsent(name, Red, "");
    } else if emoji == Yellow {
      ReplaceAbsent(emoji + name, Green, "");
      ReplaceLeading(Yellow, name, "");
      ReplaceAbsent(name, Red, "");
    } else {
      ReplaceAbsent(emoji + name, Green, "");
      ReplaceAbsent(emoji + name, Yellow, "");
      ReplaceLeading(Red, name, "");
    }
  }

  /** Stripping the emoji from the risk card's text leaves the tier's name. */
  lemma StripRiskText(t: RiskTier)
    ensures StripTierEmoji(RiskText(t)) == TierName(t)
  {
    match t
    case Low =>
      assert RiskText(t) == Green + "LOW";
      StripLeadingEmoji(Green, "LOW");
    case Medium =>
      assert RiskText(t) == Yellow + "MEDIUM";
      StripLeadingEmoji(Yellow, "MEDIUM");
    case High =>
      assert RiskText(t) == Red + "HIGH";
      StripLeadingEmoji(Red, "HIGH");
  }

  function DecisionText(pred: int): string {
    if pred == 1 then "APPROVED" else "REVIEW NEEDED"
  }

  function SummaryOf(f: CreditForm, pred: int, score: real): Summary {
    Summary(
      SummaryFields,
      [Plain(f.checking), Rupees(f.amount), Months(f.duration), Years(f.age), Plain(f.savings),
       Percent(f.rate), Plain(f.plans), Plain(f.marital), Plain(f.purpose), Plain(f.employment)],
      Repeat(score, 10),
      Repeat(DecisionText(pred), 10),
      Repeat(StripTierEmoji(RiskText(RiskOf(score))), 10))
  }

  /** The summary has five columns of ten rows; the score, decision and risk
      columns are constant; the decision says APPROVED exactly for label 1,
      whatever the score; the risk column is the bare tier name. */
  lemma SummaryShape(f: CreditForm, pred: int, score: real)
    ensures var s := SummaryOf(f, pred, score);
      && |s.field| == |s.value| == |s.creditScore| == |s.decision| == |s.riskLevel| == 10
      && forall i :: 0 <= i < 10 ==>
           && s.creditScore[i] == score
           && (s.decision[i] == "APPROVED" <==> pred == 1)
           && (s.decision[i] == "APPROVED" || s.decision[i] == "REVIEW NEEDED")
           && s.riskLevel[i] == TierName(RiskOf(score))
           && s.riskLevel[i] in ["LOW", "MEDIUM", "HIGH"]
  {
    StripRiskText(RiskOf(score));
  }

  /** Row i of the summary echoes the value the form put under InputKeys[i]. */
  lemma SummaryEchoesInputs(f: CreditForm, pred: int, score: real)
    ensures forall i :: 0 <= i < 10 ==>
      CellValue(SummaryOf(f, pred, score).value[i]) == Inputs(f)[InputKeys[i]]
  {
  }

  // ------------------------------------------------------ the report name

  const ReportPrefix: string := "credit_report_"
  const ReportSuffix: string := ".csv"

  /** `f"credit_report_{amount}_{age}.csv"`. */
  function ReportFileName(amount: int, age: int): string {
    ReportPrefix + IntToString(amount) + "_" + IntToString(age) + ReportSuffix
  }

  /** Reads amount and age back out of a report file name. */
  function ParseReportFileName(name: string): Option<(int, int)> {
    if |name| < |ReportPrefix| + |ReportSuffix| then None
    else if name[..|ReportPrefix|] != ReportPrefix then None
    else if name[|name| - |ReportSuffix|..] != ReportSuffix then None
    else
      var middle := name[|ReportPrefix|..|name| - |ReportSuffix|];
      var u := IndexOf(middle, '_');
      if u == |middle| then None
      else match (ParseInt(middle[..u]), ParseInt(middle[u + 1..]))
        case (Some(amount), Some(age)) => Some((amount, age))
        case _ => None
  }

  /** The amount and the age can be read back from the file name. */
  lemma ReportFileNameRoundTrip(amount: int, age: int)
    ensures ParseReportFileName(ReportFileName(amount, age)) == Some((amount, age))
  {
    var a, g := IntToString(amount), IntToString(age);
    var name := ReportFileName(amount, age);
    var middle := a + "_" + g;
    assert name == ReportPrefix + middle + ReportSuffix;
    assert name[..|ReportPrefix|] == ReportPrefix;
    assert name[|name| - |ReportSuffix|..] == ReportSuffix;
    assert name[|ReportPrefix|..|name| - |ReportSuffix|] == middle;
    assert middle[|a|] == '_';
    assert IndexOf(middle, '_') == |a|;
    assert middle[..|a|] == a;
    assert middle[|a| + 1..] == g;
    IntToStringRoundTrip(amount);
    IntToStringRoundTrip(age);
  }

  /** Two reports share a file name only when they share amount and age. */
  lemma ReportFileNameInjective(amount1: int, age1: int, amount2: int, age2: int)
    requires ReportFileName(amount1, age1) == ReportFileName(amount2, age2)
    ensures amount1 == amount2 && age1 == age2
  {
    ReportFileNameRoundTrip(amount1, age1);
    ReportFileNameRoundTrip(amount2, age2);
  }

  // ------------------------------------------------------ the whole result

  datatype CreditReport = CreditReport(
    banner: Banner, score: real, risk: RiskTier, action: Action,
    riskCard: string, actionCard: string,
    recommendation: RecommendationBox, summary: Summary, fileName: string)

  /** The banner, the risk and action cards, the recommendation box, the
      summary table and the report's file name, from the form, the label and
      the score. */
  function Assess(f: CreditForm, pred: int, score: real): (r: CreditReport)
    ensures r.banner == Approved <==> pred == 1
    ensures r.risk == RiskOf(score) && r.action == ActionOf(score)
    ensures r.riskCard == RiskText(r.risk) && r.actionCard == ActionText(r.action)
    ensures r.recommendation == RecommendationBoxOf(RecommendationOf(score))
    ensures |r.summary.decision| == |r.summary.riskLevel| == 10
    ensures forall i :: 0 <= i < 10 ==>
      (r.summary.decision[i] == "APPROVED" <==> r.banner == Approved) &&
      r.summary.riskLevel[i] == TierName(r.risk)
  {
    SummaryShape(f, pred, score);
    CreditReport(BannerOf(pred), score, RiskOf(score), ActionOf(score),
      RiskText(RiskOf(score)), ActionText(ActionOf(score)),
      RecommendationBoxOf(RecommendationOf(score)), SummaryOf(f, pred, score),
      ReportFileName(f.amount, f.age))
  }

  /** The banner follows the label and the action follows the score, so an
      approval banner can sit beside a REJECT card. */
  lemma BannerIndependentOfAction(f: CreditForm)
    ensures Assess(f, 1, 10.0).banner == Approved && Assess(f, 1, 10.0).action == Reject
    ensures Assess(f, 0, 90.0).banner == ReviewNeeded && Assess(f, 0, 90.0).action == Approve
  {
  }

  /** The ANALYZE branch: build the inputs record, classify it merged into
      the defaults, turn P(creditworthy) into the score, and assess. */
  method Analyze(defaults: FeatureRecord, f: CreditForm, model: Classifier) returns (r: CreditReport)
    ensures var record := Merge(defaults, Inputs(f));
      r == Assess(f, model.predict(record), ScoreOf(model.positiveProbability(record)))
    ensures r.fileName == ReportFileName(f.amount, f.age)
  {
    var inputs := Inputs(f);
    var pred, positive := Predict(defaults, inputs, model);
    var score := ScoreOf(positive);
    r := Assess(f, pred, score);
  }
}
