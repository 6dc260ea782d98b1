/** The decision layer of the heart-disease front-end: the guard on the loaded
    model, the input row handed to the classifier, the fixed verdict and gauge
    chosen by the predicted label, the parameter summary with its display
    names, and the round-robin layout of its cards. The trained classifier is
    opaque: it is a parameter. */
module DiseaseApp {
  import opened PyBuiltins

  // -------------------------------------------------------------- the form

  /** The ten health indicators entered on the form; the enumerated ones
      (slope, cp, ca, thal, sex) are codes. */
  datatype HealthForm = HealthForm(
    age: int, trestbps: int, chol: int, thalach: int, oldpeak: real,
    slope: int, cp: int, ca: int, thal: int, sex: int)

  /** The codes each select box of the form offers. */
  const SlopeOptions: seq<int> := [0, 1, 2]
  const ChestPainOptions: seq<int> := [0, 1, 2, 3]
  const ThalOptions: seq<int> := [0, 1, 2, 3]
  const SexOptions: seq<int> := [0, 1]

  /** The codes the enumerated select boxes offer for the four fields whose
      names are looked up later. */
  predicate CodesSelectable(f: HealthForm) {
    && f.slope in SlopeOptions
    && f.cp in ChestPainOptions
    && f.thal in ThalOptions
    && f.sex in SexOptions
  }

  /** `[x][code]` with a list of names: the name at a code, which must be in
      bounds. */
  function DisplayName(names: seq<string>, code: int): (name: string)
    requires 0 <= code < |names|
    ensures name in names
  {
    names[code]
  }

  /** The names each select box's `format_func` shows for its options. */
  const SlopeFormatNames: seq<string> := ["Upsloping", "Flat", "Downsloping"]
  const ChestPainFormatNames: seq<string> := ["Typical", "Atypical", "Non-anginal", "Asymptomatic"]
  const ThalFormatNames: seq<string> := ["Normal", "Fixed Defect", "Reversible", "Unknown"]
  const SexFormatNames: seq<string> := ["Female", "Male"]

  /** Each select box's `format_func`, defined on the options it offers. */
  function SlopeLabel(x: int): string
    requires x in SlopeOptions
  {
    DisplayName(SlopeFormatNames, x)
  }

  function ChestPainLabel(x: int): string
    requires x in ChestPainOptions
  {
    DisplayName(ChestPainFormatNames, x)
  }

  function ThalLabel(x: int): string
    requires x in ThalOptions
  {
    DisplayName(ThalFormatNames, x)
  }

  function SexLabel(x: int): string
    requires x in SexOptions
  {
    DisplayName(SexFormatNames, x)
  }

  // ------------------------------------------------------- the input row

  /** The column order of the one-row frame given to the classifier. */
  const InputColumns: seq<string> :=
    ["cp", "ca", "age", "chol", "thal", "oldpeak", "trestbps", "thalach", "slope", "sex"]

  /** The one row, in InputColumns order. */
  function InputRow(f: HealthForm): seq<real> {
    [f.cp as real, f.ca as real, f.age as real, f.chol as real, f.thal as real,
     f.oldpeak, f.trestbps as real, f.thalach as real, f.slope as real, f.sex as real]
  }

  /** The form's value for a column name. */
  function FeatureValue(f: HealthForm, column: string): real
    requires column in InputColumns
  {
    if column == "age" then f.age as real
    else if column == "trestbps" then f.trestbps as real
    else if column == "chol" then f.chol as real
    else if column == "thalach" then f.thalach as real
    else if column == "oldpeak" then f.oldpeak
    else if column == "slope" then f.slope as real
    else if column == "cp" then f.cp as real
    else if column == "ca" then f.ca as real
    else if column == "thal" then f.thal as real
    else f.sex as real
  }

  /** The scaler's fixed mean and scale vectors, one entry per column. */
  const ScalerMean: seq<real> := [1.0, 1.0, 54.0, 246.0, 0.5, 1.0, 131.0, 149.0, 1.0, 0.5]
  const ScalerScale: seq<real> := [1.0, 1.2, 9.0, 51.0, 1.0, 1.2, 17.0, 23.0, 0.6, 0.5]

  /** The row has ten values, and the value in each position is the form's
      value for the column named there; the scaler vectors have the same
      length, and no scale entry is zero. */
  lemma InputRowLayout(f: HealthForm)
    ensures |InputRow(f)| == |InputColumns| == |ScalerMean| == |ScalerScale| == 10
    ensures forall i :: 0 <= i < 10 ==> InputRow(f)[i] == FeatureValue(f, InputColumns[i])
    ensures forall i :: 0 <= i < 10 ==> ScalerScale[i] > 0.0
  {
  }

  // ------------------------------------------------- the model and its guard

  /** What `joblib.load` did: returned a model, or raised. */
  datatype LoadOutcome<M> = Loaded(model: M) | LoadFailed

  datatype LoadResult<M> = LoadResult(model: Option<M>, error: Option<string>)

  /** `load_model()`: the model, or None together with an error message when
      loading raised anything. */
  function LoadModel<M>(outcome: LoadOutcome<M>): (r: LoadResult<M>)
    ensures r.model.Some? <==> outcome.Loaded?
    ensures r.model.Some? ==> r.model.value == outcome.model
    ensures r.error.Some? <==> r.model.None?
  {
    match outcome
    case Loaded(m) => LoadResult(Some(m), None)
    case LoadFailed => LoadResult(None, Some("Model file not found!"))
  }

  // ---------------------------------------------------------- the verdict

  datatype RiskTier = HighRisk | LowRisk

  /** The result card, its colour, the recommendation under it and the fixed
      value the gauge shows. */
  datatype Verdict = Verdict(
    tier: RiskTier, riskValue: int, cardColor: string,
    headline: string, detail: string, advice: string)

  const HighColor: string := "#ff4b5c"
  const LowColor: string := "#06ffa5"

  /** `if prediction == 1: ... else: ...` */
  function VerdictOf(prediction: int): Verdict {
    if prediction == 1 then
      Verdict(HighRisk, 85, HighColor, "\U{26A0}\U{FE0F} High Risk",
        "Indicators for heart disease detected",
        "**Recommendation:** Consult a cardiologist for detailed evaluation.")
    else
      Verdict(LowRisk, 15, LowColor, "\U{2705} Low Risk",
        "No significant indicators found",
        "**Great news!** Keep maintaining a healthy lifestyle.")
  }

  /** The gauge: its needle value, bar colour and threshold marker. */
  datatype Gauge = Gauge(value: int, barColor: string, threshold: int)

  function GaugeOf(prediction: int, riskValue: int): Gauge {
    Gauge(riskValue, if prediction == 1 then HighColor else LowColor, riskValue)
  }

  /** The gauge's three coloured steps, lowest first. */
  const GaugeSteps: seq<(int, int)> := [(0, 30), (30, 70), (70, 100)]

  predicate InStep(v: int, k: nat)
    requires k < |GaugeSteps|
  {
    GaugeSteps[k].0 <= v <= GaugeSteps[k].1
  }

  /** Label 1 gives HIGH risk and 85, any other label LOW risk and 15. */
  lemma VerdictByLabel(prediction: int)
    ensures VerdictOf(prediction).tier == HighRisk <==> prediction == 1
    ensures VerdictOf(prediction).riskValue == (if prediction == 1 then 85 else 15)
    ensures VerdictOf(prediction).riskValue == 85 <==> VerdictOf(prediction).tier == HighRisk
  {
  }

  /** The gauge agrees with the card: its bar has the card's colour, which is
      the high-risk colour exactly for label 1, its needle and marker sit in
      the top step alone for HIGH risk and in the bottom step alone for LOW. */
  lemma GaugeAgreesWithVerdict(prediction: int)
    ensures var v := VerdictOf(prediction); var g := GaugeOf(prediction, v.riskValue);
      && g.barColor == v.cardColor
      && (g.barColor == HighColor <==> prediction == 1)
      && g.value == g.threshold == v.riskValue
      && (v.tier == HighRisk <==> InStep(g.value, 2) && !InStep(g.value, 1) && !InStep(g.value, 0))
      && (v.tier == LowRisk <==> InStep(g.value, 0) && !InStep(g.value, 1) && !InStep(g.value, 2))
  {
  }

  // ------------------------------------------------ the parameter summary

  datatype ParamValue = IntParam(i: int) | RealParam(r: real) | TextParam(s: string)

  /** The name lists the parameter summary indexes with the chosen codes;
      they are written out a second time in the summary, apart from the
      select boxes' own lists. */
  const ChestPainSummaryNames: seq<string> := ["Typical", "Atypical", "Non-anginal", "Asymptomatic"]
  const SlopeSummaryNames: seq<string> := ["Upsloping", "Flat", "Downsloping"]
  const ThalSummaryNames: seq<string> := ["Normal", "Fixed Defect", "Reversible", "Unknown"]
  const SexSummaryNames: seq<string> := ["Female", "Male"]

  /** The `params` dictionary, in its insertion order; every name lookup is
      in bounds because the select boxes offer only in-range codes. */
  function Params(f: HealthForm): (p: seq<(string, ParamValue)>)
    requires CodesSelectable(f)
    ensures |p| == 10
  {
    [("Age", IntParam(f.age)),
     ("Resting BP", IntParam(f.trestbps)),
     ("Cholesterol", IntParam(f.chol)),
     ("Max Heart Rate", IntParam(f.thalach)),
     ("ST Depression", RealParam(f.oldpeak)),
     ("Chest Pain Type", TextParam(DisplayName(ChestPainSummaryNames, f.cp))),
     ("ST Slope", TextParam(DisplayName(SlopeSummaryNames, f.slope))),
     ("Thalassemia", TextParam(DisplayName(ThalSummaryNames, f.thal))),
     ("Sex", TextParam(DisplayName(SexSummaryNames, f.sex))),
     ("Major Vessels", IntParam(f.ca))]
  }

  /** The value of the first entry with a given key: what the summary shows
      under that key. */
  function Entry(p: seq<(string, ParamValue)>, key: string): (r: Option<ParamValue>)
    ensures r.None? <==> forall i :: 0 <= i < |p| ==> p[i].0 != key
    ensures r.Some? ==> exists i :: 0 <= i < |p| && p[i] == (key, r.value)
  {
    if p == [] then None
    else if p[0].0 == key then Some(p[0].1)
    else Entry(p[1..], key)
  }

  /** The entry at position k is the one found when no earlier entry has
      its key. */
  lemma {:induction false} EntryAt(p: seq<(string, ParamValue)>, k: nat)
    requires k < |p|
    requires forall i :: 0 <= i < k ==> p[i].0 != p[k].0
    ensures Entry(p, p[k].0) == Some(p[k].1)
  {
    if k > 0 {
      assert p[1..][k - 1] == p[k];
      EntryAt(p[1..], k - 1);
    }
  }

  /** The summary's keys are all different, so no entry hides another. */
  lemma ParamKeysDistinct(f: HealthForm)
    requires CodesSelectable(f)
    ensures forall i, j :: 0 <= i < j < |Params(f)| ==> Params(f)[i].0 != Params(f)[j].0
  {
  }

  /** Under the key of each enumerated field the summary shows the name that
      field's select box displayed for the chosen code. */
  lemma ParamsShowSelectedNames(f: HealthForm)
    requires CodesSelectable(f)
    ensures Entry(Params(f), "Chest Pain Type") == Some(TextParam(ChestPainLabel(f.cp)))
    ensures Entry(Params(f), "ST Slope") == Some(TextParam(SlopeLabel(f.slope)))
    ensures Entry(Params(f), "Thalassemia") == Some(TextParam(ThalLabel(f.thal)))
    ensures Entry(Params(f), "Sex") == Some(TextParam(SexLabel(f.sex)))
  {
    var p := Params(f);
    ParamKeysDistinct(f);
    assert p[5] == ("Chest Pain Type", TextParam(ChestPainLabel(f.cp)));
    EntryAt(p, 5);
    assert p[6] == ("ST Slope", TextParam(SlopeLabel(f.slope)));
    EntryAt(p, 6);
    assert p[7] == ("Thalassemia", TextParam(ThalLabel(f.thal)));
    EntryAt(p, 7);
    assert p[8] == ("Sex", TextParam(SexLabel(f.sex)));
    EntryAt(p, 8);
  }

  /** One rendered summary card: its column, background colour and contents. */
  datatype Card = Card(column: nat, color: string, key: string, value: ParamValue)

  const ColumnCount: nat := 5
  const CardColors: seq<string> := ["#ff6b81", "#06ffa5", "#ffd93d", "#6a4c93", "#00d4ff"]

  /** The card loop: entry i goes to column i % 5 with colour colors[i % 5]. */
  method LayoutCards(params: seq<(string, ParamValue)>) returns (cards: seq<Card>)
    ensures |cards| == |params|
    ensures forall i :: 0 <= i < |cards| ==>
      && cards[i].key == params[i].0 && cards[i].value == params[i].1
      && cards[i].column < ColumnCount && cards[i].color == CardColors[cards[i].column]
      && cards[i].column == i % ColumnCount
  {
    cards := [];
    for i := 0 to |params|
      invariant |cards| == i
      invariant forall j :: 0 <= j < i ==>
        cards[j] == Card(j % ColumnCount, CardColors[j % ColumnCount], params[j].0, params[j].1)
    {
      var (key, value) := params[i];
      cards := cards + [Card(i % ColumnCount, CardColors[i % ColumnCount], key, value)];
    }
  }

  // ------------------------------------------------------- the prediction

  /** What the results section shows. */
  datatype DiseaseReport = DiseaseReport(
    prediction: int, verdict: Verdict, gauge: Gauge, cards: seq<Card>)

  /** The predict branch: nothing when no model was loaded; otherwise the
      label for the input row, its verdict and gauge, and the summary cards. */
  method PredictRisk<M>(model: Option<M>, f: HealthForm, classify: (M, seq<real>) -> int)
    returns (report: Option<DiseaseReport>)
    requires CodesSelectable(f)
    ensures report.Some? <==> model.Some?
    ensures report.Some? ==>
      && report.value.prediction == classify(model.value, InputRow(f))
      && report.value.verdict == VerdictOf(report.value.prediction)
      && report.value.gauge == GaugeOf(report.value.prediction, report.value.verdict.riskValue)
      && |report.value.cards| == 10
      && forall i :: 0 <= i < 10 ==>
           report.value.cards[i] ==
             Card(i % ColumnCount, CardColors[i % ColumnCount], Params(f)[i].0, Params(f)[i].1)
  {
    if model.None? {
      return None;
    }
    var prediction := classify(model.value, InputRow(f));
    var verdict := VerdictOf(prediction);
    var gauge := GaugeOf(prediction, verdict.riskValue);
    var cards := LayoutCards(Params(f));
    report := Some(DiseaseReport(prediction, verdict, gauge, cards));
  }
}
