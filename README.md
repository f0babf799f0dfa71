# Job-posting fraud service: a Dafny model

This project models the inference core of a small job-posting fraud detection
service (`app.py`). A form posts nine text fields of a job posting. The
service normalises them into the seven-column feature row the classifier was
trained on: six structured fields, then `all_text`, the three free-text
fields joined by single spaces. It asks a pre-trained classifier for a label
and the two class probabilities, and answers with a verdict: the label and
its text, both confidences in percent, and a risk tier. A second handler
reports the stored evaluation metrics. Both handlers refuse when what they
need was not loaded at startup.

Modules, one per part of `app.py`:

- `Wrappers` (wrappers.dfy): `Option` for Python's `None` or an absent key, and `Result` for a step that may raise.
- `TextFields` (all_text.dfy): `build_all_text` as a method with its loop, proved equal to a direct definition `AllText`, with lemmas about how the result is laid out.
- `Frames` (frames.dfy): the part of a one-row pandas DataFrame that is used. It is a class whose `row` is set in place by `SetColumn`. `Select` picks columns by label in the order asked for and raises `KeyError` for absent labels.
- `Features` (features.dfy): `preprocess_input` as a method over a `DataFrame`, proved equal to the reference row `FeatureVector`, plus the form reading done by `predict`.
- `Verdict` (verdict.dfy): `prediction_text`, the risk ladder, Python's half-to-even rounding to 2 and 4 decimals, and the result record.
- `Service` (service.dfy): the classifier, which is an opaque pair of functions that may fail; the startup outcome; and the `App` class with `Predict` and `ModelInfo`.

## Model

| member | source | states |
|---|---|---|
| TextFields.Coalesce | app.py:32-33 | a missing value reads as `""`, a present one as itself |
| TextFields.Join | app.py:35 | `sep.join(parts)` is `""` for no parts; otherwise it starts with the first part and is as long as the parts together plus one separator per neighbouring pair |
| TextFields.JoinThree | app.py:35 | joining three parts gives first, separator, second, separator, third |
| TextFields.AllText | app.py:28-35 | the reference definition of `all_text`: the three coalesced parts with a single space after the first and after the second, and length their lengths plus 2 |
| TextFields.BuildAllText | app.py:28-35 | the loop replaces each missing value by `""` and joins the list with `" "`; the result is the three coalesced parts in the fixed order with one space between each, and its length is their lengths plus 2 |
| TextFields.AllTextLayout | app.py:30-35 | `all_text` is the first part, a space, the second part, a space, the third part, each at its own position |
| TextFields.AllTextInjective | app.py:30-35 | when the first two parts have the same lengths, equal `all_text` values have equal parts, so no part is merged into another or dropped |
| TextFields.MissingPartKept | app.py:31-34 | a missing middle part stays as an empty part: ("A", None, "C") gives "A  C" |
| TextFields.NoTrimming | app.py:35 | nothing is trimmed: an empty first part leaves a leading space, an empty last part a trailing space, and three missing parts give "  " |
| Frames.Project | app.py:51 | the projection has one column per requested label, in request order, each holding the row's cell under that label |
| Frames.Missing | app.py:51 | the requested labels that are not columns, in request order: a label is listed exactly when it was requested and is absent |
| Frames.DataFrame.constructor | app.py:40 | the frame's single row is the record |
| Frames.DataFrame.SetColumn | app.py:43-47 | setting a column adds it, or overwrites an existing one, and changes nothing else |
| Frames.DataFrame.Select | app.py:50-51 | selection succeeds exactly when every label is a column; it then yields exactly the requested columns in order, each with its cell; otherwise it raises, naming exactly the absent labels |
| Features.FeatureVector | app.py:37-53 | the feature row exists exactly when the six structured fields are present; it then has exactly the seven columns `job_title, location, industry, salary_range, company_profile, employment_type, all_text` in that order, the structured cells unchanged and `all_text` built from `job_desc`, `skills_desc` and `text` with `""` for an absent key; otherwise the error names exactly the absent structured fields |
| Features.PreprocessInput | app.py:37-53 | building the frame, setting `all_text` in place and selecting the feature columns gives exactly `FeatureVector` of the record, including the error case |
| Features.SelectFeatureCols | app.py:43-51 | after `all_text` is set, the selection reports the same absent labels as the structured fields alone, and its row is the reference row |
| Features.Get | app.py:44-46 | `data.get(key, "")`: the stored value when the key is present (which may be `None`), `""` when it is absent |
| Features.FormValue | app.py:67-75 | `request.form.get(name, '')`: the submitted value, or `""` when the field was not sent |
| Features.FormRecord | app.py:66-76 | the record `predict` builds has exactly the nine form fields as keys, each holding the submitted value or `""`; other form fields are dropped |
| Features.FormFeatures | app.py:66-79 | what `predict` hands to the classifier: seven columns in the fixed order, each structured cell the submitted value or `""`, and `all_text` the three submitted text values or `""`, joined by single spaces |
| Features.FormRecordPreprocesses | app.py:66-79 | preprocessing the record built from any form never raises |
| Features.FeatureVectorIgnoresOtherKeys | app.py:50-51 | two records that agree on the nine fields, in presence and in value, give the same feature row, whatever other keys they carry |
| Features.AgreeOnStructured | app.py:22-26 | every structured column is one of the nine fields, so records that agree on the nine fields agree on it |
| Features.AgreeOnAllText | app.py:43-47 | records that agree on the nine fields have the same `all_text` |
| Verdict.PredictionText | app.py:91 | "Fraudulent" exactly when the prediction is 1, "Legitimate" exactly when it is not |
| Verdict.RiskLevel | app.py:94 | "High" exactly above 70, "Medium" exactly in (30, 70], "Low" exactly at or below 30 |
| Verdict.RiskLevelMonotone | app.py:94 | a higher fraud confidence never gives a lower tier |
| Verdict.RiskLevelBoundaries | app.py:94 | 71 is High; 70 and 69.99 are Medium; 30 is Low |
| Verdict.RoundHalfEven | app.py:92-93 | Python's rounding to an integer: the nearest integer, and at an exact half the even one |
| Verdict.RoundHalfEvenIntegral | app.py:92-93 | an integer rounds to itself |
| Verdict.Round | app.py:92-93 | `round(x, digits)` with `scale` ten to the `digits`: scaled up, the result is the half-to-even rounding of the scaled `x`, an integer within one half of it; used with scale 100 for the confidences and 10000 for the AUC (app.py:110) |
| Verdict.RoundExact | app.py:92-93 | a confidence with at most two decimals is reported unchanged |
| Verdict.MakeResult | app.py:86-95 | the result carries the label and its text ("Fraudulent" exactly for 1, "Legitimate" exactly for 0), each confidence a two-decimal value within 0.005 of 100 times its probability, and the tier of the unrounded fraud confidence |
| Verdict.RiskUsesUnroundedConfidence | app.py:87-94 | a fraud probability of 0.70004 is reported as 70.0 percent but is High, while 70.0 itself would be Medium |
| Verdict.ConfidencesSumToHundred | app.py:86-93 | when the probabilities sum to 1, the two reported confidences sum to 100 within 0.01 |
| Verdict.LegitimateResult | app.py:86-95 | label 0 with [0.85, 0.15] gives Legitimate, 85.0, 15.0, Low |
| Verdict.FraudulentResult | app.py:86-95 | label 1 with [0.1, 0.9] gives Fraudulent, 10.0, 90.0, High |
| Service.PredictReply | app.py:59-100 | with no model the reply is "Model not loaded"; otherwise it is a verdict exactly when both classifier calls on the normalised form succeed, and the verdict is the mapping of their answers; when `predict` raises, the reply is its message; when `predict` succeeds and `predict_proba` raises, the reply is that message |
| Service.StartupAsWritten | app.py:11-19 | after the single try block, the classifier and the evaluation record are both present or both absent, and they are present only when both artifacts loaded |
| Service.Startup | app.py:11-19 | with the artifacts loaded independently, the classifier is present exactly when its artifact loaded, and the same holds for the record |
| Service.MissingResultsDisablePredict | app.py:11-19 | as written, a working classifier without its evaluation record still makes `predict` answer "Model not loaded" |
| Service.MissingResultsKeepPredict | run.py:17-19 | with independent loading, the same classifier answers its verdict and only the metrics are unavailable |
| Service.LegitimateStubVerdict | app.py:59-97 | a classifier answering 0 and [0.85, 0.15] yields the legitimate verdict with 85.0, 15.0 and Low, for any posted form |
| Service.FraudulentStubVerdict | app.py:59-97 | a classifier answering 1 and [0.1, 0.9] yields the fraudulent verdict with 10.0, 90.0 and High, for any posted form |
| Service.App.constructor | app.py:11-19 | the service state is the startup outcome as app.py has it: both present when both artifacts loaded, otherwise both absent; the fields are constants, so nothing reloads or unloads them |
| Service.App.Predict | app.py:59-100 | without a model, it answers "Model not loaded" before reading the form; otherwise it reads the form, preprocesses, calls the classifier for the label and then the probabilities, and its reply is `PredictReply` |
| Service.App.ModelInfo | app.py:102-115 | without a record, it answers "Model results not available". A missing key gives the quoted key name as the error. Otherwise the reply has the AUC rounded to four decimals, within 0.00005, and the confusion matrix unchanged |

## Left out

- HTTP routing, the form page, `jsonify` and status codes are not modelled. An `Error` reply stands for `{"error": message}` with status 500.
- Loading the artifacts with `joblib.load` and `pickle.load` is not modelled. Only the outcome is: each artifact is present or absent. The startup messages are left out too.
- The classifier's `predict` and `predict_proba` are opaque functions. They may raise with a message, and are otherwise unconstrained. The label is assumed to be 0 or 1 (`Label`). `PredictionText` is stated for any integer.
- Confidences are exact reals. Binary floating point is not modelled. For a fraud probability of 0.7000000000000001 (the double just above 0.7), the exact product with 100 is above 70 and the model gives tier High. The double product rounds to exactly 70.0, so the source gives Medium.
- Rounding is half-to-even on exact reals. Rounding the binary value of a float can differ at apparent halves.
- `pd.isna` is read as "is None". Its handling of NaN and of non-string values is not modelled.
- DataFrame column order and dtypes before the final selection are not modelled; the selection fixes the order of the result. The exact text of pandas' `KeyError` is not modelled either; the error carries the absent labels. `predict` never reaches this error (`Features.FormRecordPreprocesses`).
- Service.App.ModelInfo: the only failures modelled are a missing `auc_score` or `confusion_matrix` key. Other failures are not, such as a non-numeric AUC or a matrix without `tolist`. The matrix shape is not checked, and neither does the source check it.
- test_app.py is an HTTP client script and is not part of this model. In run.py, only the warning about a missing results file is used, as evidence of intent for the finding below.
- `app.py` couples the two artifacts: a failure loading either leaves both absent. `Service.StartupAsWritten` and `Service.App.constructor` follow the code; the finding below records why independent loading was evidently intended.

## Findings

| source | as written | input that shows it | evidently intended | confidence | as-written member | corrected member |
|---|---|---|---|---|---|---|
| app.py:11-19 | one try block loads the classifier and then the evaluation record, and its handler sets both to `None` | the classifier artifact loads and `model_results.pkl` is missing: every `predict` answers "Model not loaded" | the classifier stays loaded and predictions work; run.py:17-19 only warns that performance information will be unavailable | medium; not executed | Service.StartupAsWritten, Service.MissingResultsDisablePredict | Service.Startup, Service.MissingResultsKeepPredict |
