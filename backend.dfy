/**
 * The scoring service (backend/app.py). The trained model is an input: a run
 * of it either yields a label (or, for a CSV upload, one label per row) or
 * raises an exception whose text is given.
 */
module Backend {
  import opened Wrappers
  import opened Records
  import opened Quality

  /** The body of a successful `/predict` response. */
  datatype PredictionResponse = PredictionResponse(
    prediction: string,
    qualityScore: real,
    accepted: bool,
    predictionConfidence: real,
    featuresUsed: seq<string>)

  /** An `HTTPException` the handler raises. */
  datatype HttpException = HttpException(statusCode: nat, detail: string)

  /** A run of the model pipeline: its output, or the text of the exception it raised. */
  datatype ModelRun<T> = Completed(output: T) | Raised(message: string)

  /**
   * The fixed triple for a label: High is (0.9, accepted, 0.95), Medium is
   * (0.7, accepted, 0.8) and every other label (0.3, rejected, 0.7). Each
   * score lies in the client tier of the same name.
   */
  method ScoreLabel(prediction: string) returns (qualityScore: real, accepted: bool, confidence: real)
    ensures prediction == "High" ==> qualityScore == 0.9 && accepted && confidence == 0.95
    ensures prediction == "Medium" ==> qualityScore == 0.7 && accepted && confidence == 0.8
    ensures prediction != "High" && prediction != "Medium" ==>
      qualityScore == 0.3 && !accepted && confidence == 0.7
    ensures accepted <==> prediction == "High" || prediction == "Medium"
    ensures InTier(qualityScore, LabelTier(prediction))
  {
    qualityScore := 0.0;
    accepted := false;
    confidence := 0.0;
    if prediction == "High" {
      qualityScore := 0.9;
      accepted := true;
      confidence := 0.95;
    } else if prediction == "Medium" {
      qualityScore := 0.7;
      accepted := true;
      confidence := 0.8;
    } else {
      qualityScore := 0.3;
      accepted := false;
      confidence := 0.7;
    }
  }

  /**
   * `/predict`: the label mapped to its triple, with the first four keys of
   * the submitted record; any exception becomes a 400 whose detail starts
   * with "Prediction error: ".
   */
  method PredictSingle(data: Record, run: ModelRun<string>) returns (r: Result<PredictionResponse, HttpException>)
    ensures run.Raised? ==> r == Failure(HttpException(400, "Prediction error: " + run.message))
    ensures run.Completed? ==> r.Success?
    ensures run.Completed? ==> r.value.prediction == run.output
    ensures run.Completed? ==> (r.value.accepted <==> LabelTier(run.output) != Low)
    ensures run.Completed? ==> InTier(r.value.qualityScore, LabelTier(run.output))
    ensures run.Completed? ==> r.value.featuresUsed == FirstKeys(data, 4)
    ensures run.Completed? ==> (r.value.qualityScore ==
      if run.output == "High" then 0.9 else if run.output == "Medium" then 0.7 else 0.3)
    ensures run.Completed? ==> (r.value.predictionConfidence ==
      if run.output == "High" then 0.95 else if run.output == "Medium" then 0.8 else 0.7)
  {
    match run {
      case Raised(message) =>
        r := Failure(HttpException(400, "Prediction error: " + message));
      case Completed(predicted) =>
        var qualityScore, accepted, confidence := ScoreLabel(predicted);
        var featuresUsedList := FirstKeys(data, 4);
        r := Success(PredictionResponse(predicted, qualityScore, accepted, confidence, featuresUsedList));
    }
  }

  /** `/predict_csv`: the labels of all rows; any exception becomes a 400 whose detail starts with "CSV error: ". */
  method PredictCsv(run: ModelRun<seq<string>>) returns (r: Result<seq<string>, HttpException>)
    ensures run.Raised? ==> r == Failure(HttpException(400, "CSV error: " + run.message))
    ensures run.Completed? ==> r == Success(run.output)
  {
    match run {
      case Raised(message) =>
        r := Failure(HttpException(400, "CSV error: " + message));
      case Completed(labels) =>
        r := Success(labels);
    }
  }
}
