/**
 * The inference service (app.py): startup state, the prediction handler and
 * the model-information handler. HTTP routing and JSON encoding are not
 * modelled; a handler's reply is either its JSON body or an error message,
 * which the service sends with status 500.
 */
module Service {
  import opened Wrappers
  import opened TextFields
  import opened Frames
  import opened Features
  import opened Verdict

  /**
   * The trained classifier as the service uses it: a label and a probability row
   * for a one-row feature frame. Either call may raise, with a message.
   */
  datatype Classifier = Classifier(
    predict: seq<Column> -> Result<Label, string>,
    predictProba: seq<Column> -> Result<Proba, string>)

  /** The unpickled evaluation record; either key may be absent from it. */
  datatype ModelResults = ModelResults(aucScore: Option<real>, confusionMatrix: Option<seq<seq<int>>>)

  /** The JSON body of model_info. */
  datatype Metrics = Metrics(aucScore: real, confusionMatrix: seq<seq<int>>)

  /** A handler's reply: its JSON body, or `{"error": message}` with status 500. */
  datatype Reply<T> = Ok(body: T) | Error(message: string)

  const MODEL_NOT_LOADED: string := "Model not loaded"
  const RESULTS_NOT_AVAILABLE: string := "Model results not available"

  /**
   * What predict answers for a form: the not-loaded error when there is no
   * model; otherwise the classifier's verdict on the normalised form, or the
   * message of whichever classifier call raised first.
   */
  function PredictReply(model: Option<Classifier>, form: map<string, string>): (r: Reply<PredictionResult>)
    ensures model.None? ==> r == Error(MODEL_NOT_LOADED)
    ensures r.Ok? <==>
      && model.Some?
      && model.value.predict(FormFeatures(form)).Success?
      && model.value.predictProba(FormFeatures(form)).Success?
    ensures r.Ok? ==>
      r.body == MakeResult(model.value.predict(FormFeatures(form)).value,
                           model.value.predictProba(FormFeatures(form)).value)
    ensures model.Some? && model.value.predict(FormFeatures(form)).Failure? ==>
      r == Error(model.value.predict(FormFeatures(form)).error)
    ensures model.Some? && model.value.predict(FormFeatures(form)).Success?
            && model.value.predictProba(FormFeatures(form)).Failure? ==>
      r == Error(model.value.predictProba(FormFeatures(form)).error)
  {
    if model.None? then Error(MODEL_NOT_LOADED)
    else
      var features := FormFeatures(form);
      match model.value.predict(features)
      case Failure(e) => Error(e)
      case Success(prediction) =>
        match model.value.predictProba(features)
        case Failure(e) => Error(e)
        case Success(proba) => Ok(MakeResult(prediction, proba))
  }

  /**
   * Startup as app.py writes it: one try block loads the classifier and then the
   * evaluation record, and any failure leaves both absent.
   */
  function StartupAsWritten(modelFile: Option<Classifier>, resultsFile: Option<ModelResults>)
    : (state: (Option<Classifier>, Option<ModelResults>))
    ensures state.0.Some? <==> state.1.Some?
    ensures state.0.Some? <==> modelFile.Some? && resultsFile.Some?
    ensures state.0.Some? ==> state == (modelFile, resultsFile)
  {
    if modelFile.None? then (None, None)
    else if resultsFile.None? then (None, None)
    else (modelFile, resultsFile)
  }

  /**
   * Startup with the two artifacts loaded independently: the classifier is
   * present exactly when its artifact loaded, whatever became of the record.
   */
  function Startup(modelFile: Option<Classifier>, resultsFile: Option<ModelResults>)
    : (state: (Option<Classifier>, Option<ModelResults>))
    ensures state.0.Some? <==> modelFile.Some?
    ensures state.1.Some? <==> resultsFile.Some?
    ensures state.0.Some? ==> state.0 == modelFile
    ensures state.1.Some? ==> state.1 == resultsFile
  {
    (modelFile, resultsFile)
  }

  /** A classifier that always answers the given label and probability row. */
  function Stub(prediction: Label, proba: Proba): Classifier
  {
    Classifier(features => Success(prediction), features => Success(proba))
  }

  /**
   * As written, a missing evaluation record switches predictions off: with a
   * working classifier, predict still answers "Model not loaded".
   */
  lemma MissingResultsDisablePredict(form: map<string, string>)
    ensures var state := StartupAsWritten(Some(Stub(0, Proba(0.85, 0.15))), None);
            PredictReply(state.0, form) == Error(MODEL_NOT_LOADED)
  {
  }

  /** Loaded independently, the same classifier answers its verdict without the record. */
  lemma MissingResultsKeepPredict(form: map<string, string>)
    ensures var state := Startup(Some(Stub(0, Proba(0.85, 0.15))), None);
            PredictReply(state.0, form) == Ok(PredictionResult(0, "Legitimate", 85.0, 15.0, "Low"))
            && state.1.None?
  {
    LegitimateStubVerdict(form);
  }

  /**
   * Against a classifier that answers 0 and [0.85, 0.15], every form gets the
   * legitimate verdict: 85.0 and 15.0 percent, tier Low.
   */
  lemma LegitimateStubVerdict(form: map<string, string>)
    ensures PredictReply(Some(Stub(0, Proba(0.85, 0.15))), form)
            == Ok(PredictionResult(0, "Legitimate", 85.0, 15.0, "Low"))
  {
    var stub := Stub(0, Proba(0.85, 0.15));
    var features := FormFeatures(form);
    assert stub.predict(features) == Success(0);
    assert stub.predictProba(features) == Success(Proba(0.85, 0.15));
    LegitimateResult();
  }

  /**
   * Against a classifier that answers 1 and [0.1, 0.9], every form gets the
   * fraudulent verdict: 10.0 and 90.0 percent, tier High.
   */
  lemma FraudulentStubVerdict(form: map<string, string>)
    ensures PredictReply(Some(Stub(1, Proba(0.1, 0.9))), form)
            == Ok(PredictionResult(1, "Fraudulent", 10.0, 90.0, "High"))
  {
    var stub := Stub(1, Proba(0.1, 0.9));
    var features := FormFeatures(form);
    assert stub.predict(features) == Success(1);
    assert stub.predictProba(features) == Success(Proba(0.1, 0.9));
    FraudulentResult();
  }

  /**
   * The service state, fixed at startup: the classifier and the evaluation
   * record, each possibly absent. Nothing reloads or unloads them afterwards.
   */
  class App {
    const model: Option<Classifier>
    const modelResults: Option<ModelResults>

    /**
     * Starts the service from the outcome of loading each artifact, as app.py
     * does: a failure of either load leaves both absent.
     */
    constructor (modelFile: Option<Classifier>, resultsFile: Option<ModelResults>)
      ensures (model, modelResults) == StartupAsWritten(modelFile, resultsFile)
    {
      if modelFile.Some? && resultsFile.Some? {
        model := modelFile;
        modelResults := resultsFile;
      } else {
        model := None;
        modelResults := None;
      }
    }

    /**
     * predict: refuses at once without a model; otherwise reads the nine form
     * fields (absent ones as ""), preprocesses them, asks the classifier for a
     * label and then for probabilities, and maps them to the verdict.
     */
    method Predict(form: map<string, string>) returns (reply: Reply<PredictionResult>)
      ensures reply == PredictReply(model, form)
      ensures model.None? ==> reply == Error(MODEL_NOT_LOADED)
    {
      if model.None? {
        return Error(MODEL_NOT_LOADED);
      }
      var data := FormRecord(form);
      var df := PreprocessInput(data);
      FormRecordPreprocesses(form);
      var prediction := model.value.predict(df.value);
      if prediction.Failure? {
        return Error(prediction.error);
      }
      var proba := model.value.predictProba(df.value);
      if proba.Failure? {
        return Error(proba.error);
      }
      reply := Ok(MakeResult(prediction.value, proba.value));
    }

    /**
     * model_info: refuses without an evaluation record; otherwise reports the
     * AUC to four decimals and the confusion matrix as stored. A key missing
     * from the record raises, and the reply carries the quoted key.
     */
    method ModelInfo() returns (reply: Reply<Metrics>)
      ensures modelResults.None? ==> reply == Error(RESULTS_NOT_AVAILABLE)
      ensures reply.Ok? <==>
        modelResults.Some? && modelResults.value.aucScore.Some? && modelResults.value.confusionMatrix.Some?
      ensures reply.Ok? ==>
        && -0.00005 <= reply.body.aucScore - modelResults.value.aucScore.value <= 0.00005
        && (reply.body.aucScore * 10000.0).Floor as real == reply.body.aucScore * 10000.0
        && reply.body.confusionMatrix == modelResults.value.confusionMatrix.value
      ensures modelResults.Some? && modelResults.value.aucScore.None? ==> reply == Error("'auc_score'")
      ensures modelResults.Some? && modelResults.value.aucScore.Some? && modelResults.value.confusionMatrix.None?
        ==> reply == Error("'confusion_matrix'")
    {
      if modelResults.None? {
        return Error(RESULTS_NOT_AVAILABLE);
      }
      var results := modelResults.value;
      if results.aucScore.None? {
        return Error("'auc_score'");
      }
      var aucScore := Round(results.aucScore.value, 10000.0);
      if results.confusionMatrix.None? {
        return Error("'confusion_matrix'");
      }
      reply := Ok(Metrics(aucScore, results.confusionMatrix.value));
    }
  }
}
