# Credit and heart-disease front-ends: the decision layer

Two Streamlit front-ends each wrap a single call into a pre-trained
classifier. The credit analyser merges ten form fields into stored defaults,
classifies the merged record, and turns the creditworthiness score
(`prob[1] * 100`) into three separately banded outputs: a risk tier, an
action and a recommendation box. It also builds a downloadable ten-row
summary table and names the file after the amount and the age. The
heart-disease checker runs only when its model loaded. It classifies a
ten-value input row and maps the label to a fixed verdict and gauge value,
85 or 15. It then lays out a ten-entry parameter summary as cards in five
columns.

This project models that decision layer in Dafny and proves its contracts.
Each classifier is opaque and appears only through its outputs. For the
credit app these are a label `pred` and a real `score`. For the heart app
the classifier is a function parameter.

Modules:

- `PyBuiltins`: the Python built-ins the layer relies on, namely `[x] * n`,
  `str.replace`, `str(int)` and a parser that undoes `str(int)`.
- `Banding`: a ladder of strict `>` comparisons against ascending cut
  points. Each of the credit app's three chains is checked against it as
  an independent reference.
- `CreditApp`: the credit analyser (`CodeAlpha_CreditworthinessPrediction/app.py`).
- `DiseaseApp`: the heart-disease checker (`CodeAlpha_DiseasePrediction/app.py`).

The score is a `real` and every comparison is a strict `>`, so each cut
point (40, 50, 60, 70) falls in the band below it. The banner and the
Decision column follow `pred`. The risk, action and recommendation follow
`score`. The decision layer does not tie the banner to the action: it takes
`pred` and `score` as separate inputs, so an approval banner beside a REJECT
card is a combination it would show (`BannerIndependentOfAction`). Whether
the two can disagree in the running program depends on the classifier.

The default merge follows the code, `defaults.copy()` then
`update(inputs)`. An input key that is missing from the defaults is simply
added. Nothing rejects it as a configuration error.

## Model

| member | source | states |
|---|---|---|
| `PyBuiltins.Repeat` | CodeAlpha_CreditworthinessPrediction/app.py:282-284 | `[x] * n` has exactly n entries and every entry is x |
| `PyBuiltins.ReplaceAbsent` | CodeAlpha_CreditworthinessPrediction/app.py:284 | `replace` leaves unchanged a string in which the pattern's first character never occurs |
| `PyBuiltins.ReplaceLeading` | CodeAlpha_CreditworthinessPrediction/app.py:284 | `replace` on a string that starts with the pattern and has no further match gives the replacement followed by the tail |
| `PyBuiltins.IntToStringRoundTrip` | CodeAlpha_CreditworthinessPrediction/app.py:312 | `str(n)` of every integer, negative ones included, parses back to n |
| `Banding.BandIndexMonotone` | CodeAlpha_CreditworthinessPrediction/app.py:214-271 | on any cut list, a higher score never lands in a lower band |
| `Banding.BandIndexSplits` | CodeAlpha_CreditworthinessPrediction/app.py:214-271 | on ascending cuts, the score is strictly above every cut below its band index and at or below every cut from it on |
| `Banding.BandIndexExact` | CodeAlpha_CreditworthinessPrediction/app.py:214-271 | band k holds exactly the scores in (cuts[k-1], cuts[k]], in both directions |
| `CreditApp.InputsRecord` | CodeAlpha_CreditworthinessPrediction/app.py:154-158 | the inputs dictionary has exactly the ten keys Cbal to Edur, and they are pairwise different, so no form field overwrites another |
| `CreditApp.Merge` | CodeAlpha_CreditworthinessPrediction/app.py:78-80 | merged keys are the union of both key sets; every input key maps to the input's value; every other default key keeps its default |
| `CreditApp.MergeIdempotent` | CodeAlpha_CreditworthinessPrediction/app.py:79-80 | merging the same inputs into the merged record again changes nothing |
| `CreditApp.MergeComplete` | CodeAlpha_CreditworthinessPrediction/app.py:79-80 | every schema field is present after the merge when the defaults cover the fields the form does not supply |
| `CreditApp.Predict` | CodeAlpha_CreditworthinessPrediction/app.py:78-85 | the classifier's label and probability are those of the merged record, not of the raw inputs |
| `CreditApp.ScoreOf` | CodeAlpha_CreditworthinessPrediction/app.py:163 | a probability in [0,1] gives a score in [0,100] |
| `CreditApp.FamiliesFollowCuts` | CodeAlpha_CreditworthinessPrediction/app.py:214-271 | each conditional chain equals its ladder indexed by the band on its own cuts: risk on 40/70, action on 40/60, recommendation on 40/50/70 |
| `CreditApp.RiskBands` | CodeAlpha_CreditworthinessPrediction/app.py:214 | LOW iff score > 70; MEDIUM iff 40 < score <= 70; HIGH iff score <= 40; derived from the reference ladder on cuts 40/70 |
| `CreditApp.ActionBands` | CodeAlpha_CreditworthinessPrediction/app.py:215 | APPROVE iff score > 60; REVIEW iff 40 < score <= 60; REJECT iff score <= 40; derived from the reference ladder on cuts 40/60 |
| `CreditApp.RecommendationBands` | CodeAlpha_CreditworthinessPrediction/app.py:244-271 | STRONG iff > 70; GOOD iff in (50,70]; RISKY iff in (40,50]; HIGH RISK iff <= 40; derived from the reference ladder on cuts 40/50/70. With the two rows above, REJECT, HIGH risk and HIGH RISK each hold exactly when score <= 40 |
| `CreditApp.CutPointsFallLow` | CodeAlpha_CreditworthinessPrediction/app.py:214-271 | scores of exactly 70, 60, 50 and 40 fall in the lower band of every family |
| `CreditApp.FamiliesMonotone` | CodeAlpha_CreditworthinessPrediction/app.py:214-271 | a higher score never yields a worse tier, action or recommendation; derived from the monotone reference ladder |
| `CreditApp.FamiliesConsistent` | CodeAlpha_CreditworthinessPrediction/app.py:214-271 | STRONG iff LOW; LOW implies APPROVE; APPROVE never comes with HIGH; RISKY comes with REVIEW and MEDIUM |
| `CreditApp.StripLeadingEmoji` | CodeAlpha_CreditworthinessPrediction/app.py:284 | the three chained replacements remove one leading tier emoji and its space from a name that contains no emoji |
| `CreditApp.StripRiskText` | CodeAlpha_CreditworthinessPrediction/app.py:284 | stripping the risk card's text leaves the bare tier name LOW, MEDIUM or HIGH |
| `CreditApp.SummaryShape` | CodeAlpha_CreditworthinessPrediction/app.py:277-285 | all five columns have ten rows; Score, Decision and Risk Level are constant; Decision is APPROVED iff pred == 1, whatever the score; Risk Level is in {LOW, MEDIUM, HIGH} |
| `CreditApp.SummaryEchoesInputs` | CodeAlpha_CreditworthinessPrediction/app.py:277-285 | Value row i shows the value the inputs record holds under key i |
| `CreditApp.ReportFileNameRoundTrip` | CodeAlpha_CreditworthinessPrediction/app.py:312 | amount and age read back from `credit_report_{amount}_{age}.csv` are the ones it was built from |
| `CreditApp.ReportFileNameInjective` | CodeAlpha_CreditworthinessPrediction/app.py:312 | two reports share a file name only if they share amount and age |
| `CreditApp.Assess` | CodeAlpha_CreditworthinessPrediction/app.py:163-312 | the banner is APPROVED iff pred == 1; tier, action, card texts and box follow the score; the summary's Decision agrees with the banner and its Risk Level names the tier |
| `CreditApp.Analyze` | CodeAlpha_CreditworthinessPrediction/app.py:153-163 | the report is the assessment of the label and of 100 times P(creditworthy) that the classifier gives for the form's inputs merged into the defaults; the file name is built from the form's amount and age |
| `CreditApp.BannerIndependentOfAction` | CodeAlpha_CreditworthinessPrediction/app.py:168-215 | label 1 with score 10 gives the approval banner beside REJECT; label 0 with score 90 gives REVIEW NEEDED beside APPROVE |
| `DiseaseApp.DisplayName` | CodeAlpha_DiseasePrediction/app.py:155-158 | indexing a name list with an in-bounds code yields one of its names |
| `DiseaseApp.InputRowLayout` | CodeAlpha_DiseasePrediction/app.py:90-96 | the row has 10 values; value i is the form's value for column i of cp, ca, age, chol, thal, oldpeak, trestbps, thalach, slope, sex; both scaler vectors have length 10 and no scale entry is zero |
| `DiseaseApp.LoadModel` | CodeAlpha_DiseasePrediction/app.py:39-46 | a model is returned iff loading succeeded, and an error is shown iff no model is returned |
| `DiseaseApp.VerdictByLabel` | CodeAlpha_DiseasePrediction/app.py:108-125 | label 1 gives High Risk and 85; any other label gives Low Risk and 15 |
| `DiseaseApp.GaugeAgreesWithVerdict` | CodeAlpha_DiseasePrediction/app.py:108-143 | bar colour equals the card colour and is #ff4b5c iff label 1; needle and marker both show the risk value; it lies in the top step [70,100] alone for High Risk and the bottom step [0,30] alone for Low Risk |
| `DiseaseApp.Params` | CodeAlpha_DiseasePrediction/app.py:149-160 | for every code the select boxes offer, all four name lookups are in bounds and the summary has ten entries |
| `DiseaseApp.ParamKeysDistinct` | CodeAlpha_DiseasePrediction/app.py:149-160 | the ten summary keys are pairwise different, so no dictionary entry replaces another |
| `DiseaseApp.ParamsShowSelectedNames` | CodeAlpha_DiseasePrediction/app.py:75-158 | for every code the select boxes offer, the summary entry keyed Chest Pain Type, ST Slope, Thalassemia or Sex holds the name that box's `format_func` displayed for the code; the select boxes' lists and the summary's lists are kept as separate constants and checked against each other |
| `DiseaseApp.LayoutCards` | CodeAlpha_DiseasePrediction/app.py:162-171 | one card per entry, in order; card i goes to column i % 5 (< 5) with the colour of that column |
| `DiseaseApp.PredictRisk` | CodeAlpha_DiseasePrediction/app.py:88-171 | a report exists iff a model is loaded; its verdict is that of the classifier's label for the input row; the gauge (value, bar colour, threshold marker) is the one for that label; card i shows parameter i in column i % 5 with colour colors[i % 5] |

## Left out

- Streamlit page set-up, CSS and HTML markup, balloons, columns and widgets are presentation. The `if btn:` and button gates around both results sections are omitted as well.
- The numeric bounds of the form widgets (amount, duration, age, blood pressure and the rest) are omitted because no modelled operation depends on them. The options of the Major Vessels select box (0 to 4) are omitted for the same reason. The options and `format_func` name lists of the other four select boxes are modelled, because the summary's name lookups depend on them.
- Loading the credit model, preprocessor and defaults with `joblib`, and the `st.cache_resource` caching, are file I/O and framework lifecycle. The defaults record is a parameter.
- The random forest, the SVM, `predict_proba` and `preprocessor.transform` are trained artifacts called as foreign code. The credit app's label and probability come through a `Classifier` value. The heart app's classifier is a function parameter.
- The heart app's `StandardScaler` transform is floating-point library arithmetic. The classifier parameter receives the unscaled row, so the scaling is treated as part of the opaque call. Only the shape of the two constant vectors is kept.
- `CreditApp.ScoreOf`: the score is a mathematical real, not a 64-bit float, so rounding in `prob[1] * 100` is not modelled.
- String formatting is omitted: `:.1f`, `:,`, " months", " years" and "%". Summary cells are typed values, and the Credit Score column holds the score itself.
- pandas DataFrame construction and `to_csv` serialisation are omitted. The summary is five sequences, not CSV text.
- The Plotly gauge is modelled only through its value, bar colour, threshold marker and step ranges.
- The credit app's gauge colour steps (lines 201-205) are display only and are not modelled.
- The credit app's amount card (line 236) and the Financial Details and Applicant Profile panels (lines 291-305) only echo form fields with formatting. They are not part of `CreditReport`.
- `DiseaseApp.PredictRisk`: `if model:` is modelled as "a model was loaded". Python truthiness of a loaded estimator object is not modelled.
