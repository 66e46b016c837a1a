/**
 * The prediction hook of the client (src/hooks/useLeadData.ts): it sends the
 * lead record to the scoring service, turns whatever comes back into a
 * complete result, and keeps three pieces of page state: the result, whether
 * a request is in flight, and the error message.
 *
 * The network exchange is an input (`FetchOutcome`); each `Math.random()`
 * draw is a parameter in [0, 1).
 */
module LeadData {
  import opened Wrappers
  import opened Text
  import opened Records
  import opened Quality

  /** The result the page renders. `prediction` echoes the service's label, None when it sent none. */
  datatype LeadResponse = LeadResponse(
    prediction: Option<string>,
    qualityScore: real,
    accepted: bool,
    predictionConfidence: real,
    featuresUsed: seq<string>)

  /** A value `Math.random()` can return. */
  predicate IsDraw(r: real) { 0.0 <= r < 1.0 }

  /** Every field present and in range: both scores in [0, 1], at most four factors. */
  predicate Populated(r: LeadResponse)
  {
    && 0.0 <= r.qualityScore <= 1.0
    && 0.0 <= r.predictionConfidence <= 1.0
    && |r.featuresUsed| <= 4
  }

  /** What a `catch` clause can receive: an `Error` carrying a message, or any other thrown value. */
  datatype Thrown = ErrorObject(message: string) | NonError

  /** The body of a response as `response.json()` reads it. */
  datatype JsonBody =
    | Parsed(prediction: Option<string>)   // a JSON object; None when it has no string "prediction" field
    | Unparsable(parseError: string)       // reading it throws an Error with this message: a SyntaxError from
                                           // `response.json()`, or a TypeError from `.prediction` on `null`

  /** The body of a response as `response.text()` reads it. */
  datatype BodyText =
    | Read(text: string)
    | Unreadable(readError: string)        // `response.text()` rejects with an Error carrying this message

  /**
   * How one request ended: a response with a status, its text reading and its
   * JSON reading (only the one the status selects is used), or a rejected fetch.
   */
  datatype FetchOutcome =
    | Responded(status: nat, text: BodyText, json: JsonBody)
    | Rejected(thrown: Thrown)

  /** `response.ok`. */
  predicate IsOk(status: nat) { 200 <= status <= 299 }

  /** The two ways a request settles: with a label (possibly missing) or with an error message. */
  datatype Settlement = Labelled(prediction: Option<string>) | Failed(message: string)

  const DefaultErrorMessage: string := "Failed to get prediction"

  /** The factor names shown when the request fails. */
  const FallbackFeatures: seq<string> := ["TotalVisits", "Asymmetrique Activity Score", "Specialization", "Country"]

  /** The outcomes whose error message is empty: an `Error` thrown with no message. */
  predicate CarriesEmptyMessage(o: FetchOutcome)
  {
    || (o.Rejected? && o.thrown == ErrorObject(""))
    || (o.Responded? && IsOk(o.status) && o.json == Unparsable(""))
    || (o.Responded? && !IsOk(o.status) && o.text == Unreadable(""))
  }

  /**
   * The `try`/`catch` of predictLead: a 2xx response with a JSON body
   * yields its label, a non-2xx response fails with its status and text, and a
   * thrown value (including a body that cannot be read) fails with its message
   * or the default text.
   */
  function Settle(o: FetchOutcome): (s: Settlement)
    ensures s.Labelled? <==> o.Responded? && IsOk(o.status) && o.json.Parsed?
    ensures s.Labelled? ==> s.prediction == o.json.prediction
    ensures o.Responded? && !IsOk(o.status) && o.text.Read? ==>
      s == Failed("HTTP error! status: " + NatToString(o.status) + " - " + o.text.text)
    ensures o.Responded? && !IsOk(o.status) && o.text.Unreadable? ==> s == Failed(o.text.readError)
    ensures o == Rejected(NonError) ==> s == Failed(DefaultErrorMessage)
    ensures o.Rejected? && o.thrown.ErrorObject? ==> s == Failed(o.thrown.message)
    ensures o.Responded? && IsOk(o.status) && o.json.Unparsable? ==> s == Failed(o.json.parseError)
    ensures s.Failed? ==> (s.message == "" <==> CarriesEmptyMessage(o))
  {
    match o
    case Rejected(ErrorObject(m)) => Failed(m)
    case Rejected(NonError) => Failed(DefaultErrorMessage)
    case Responded(status, text, json) =>
      if !IsOk(status) then
        match text
        case Read(t) => Failed("HTTP error! status: " + NatToString(status) + " - " + t)
        case Unreadable(m) => Failed(m)
      else match json
        case Parsed(p) => Labelled(p)
        case Unparsable(m) => Failed(m)
  }

  /** The tier a received label stands for; a missing label is Low. */
  function PredictedTier(prediction: Option<string>): Tier
  {
    match prediction
    case None => Low
    case Some(l) => LabelTier(l)
  }

  /**
   * The result built from a received label: the score is drawn inside the
   * tier the label names (below 1), acceptance holds for High and Medium,
   * confidence is drawn in [0.8, 1) whatever the label, and the factors are
   * the first four attribute names of the submitted record.
   */
  function SuccessResult(prediction: Option<string>, leadData: Record, rConfidence: real, rScore: real): (r: LeadResponse)
    requires IsDraw(rConfidence) && IsDraw(rScore)
    ensures r.prediction == prediction
    ensures InTier(r.qualityScore, PredictedTier(prediction)) && 0.0 <= r.qualityScore < 1.0
    ensures r.accepted <==> PredictedTier(prediction) != Low
    ensures 0.8 <= r.predictionConfidence < 1.0
    ensures r.featuresUsed == FirstKeys(leadData, 4)
    ensures Populated(r)
  {
    var confidence := rConfidence * 0.2 + 0.8;
    var features := FirstKeys(leadData, 4);
    if prediction == Some("High") then LeadResponse(prediction, rScore * 0.2 + 0.8, true, confidence, features)
    else if prediction == Some("Medium") then LeadResponse(prediction, rScore * 0.2 + 0.6, true, confidence, features)
    else LeadResponse(prediction, rScore * 0.6, false, confidence, features)
  }

  /**
   * The stand-in result installed after a failure: label High or Low, score
   * in [0.6, 1), acceptance decided by its own draw, confidence in [0.8, 1)
   * and the fixed factor list.
   */
  function FallbackResult(rLabel: real, rScore: real, rAccepted: real, rConfidence: real): (r: LeadResponse)
    requires IsDraw(rLabel) && IsDraw(rScore) && IsDraw(rAccepted) && IsDraw(rConfidence)
    ensures r.prediction == Some(if rLabel > 0.5 then "High" else "Low")
    ensures 0.6 <= r.qualityScore < 1.0
    ensures r.accepted <==> rAccepted > 0.3
    ensures 0.8 <= r.predictionConfidence < 1.0
    ensures r.featuresUsed == FallbackFeatures
    ensures Populated(r)
  {
    LeadResponse(
      Some(if rLabel > 0.5 then "High" else "Low"),
      rScore * 0.4 + 0.6,
      rAccepted > 0.3,
      rConfidence * 0.2 + 0.8,
      FallbackFeatures)
  }

  /** The stand-in's label, score and acceptance are drawn independently and can disagree. */
  lemma FallbackCanContradictItself()
    ensures var r := FallbackResult(0.0, 0.75, 0.0, 0.0);
      r.prediction == Some("Low") && InTier(r.qualityScore, High) && !r.accepted
  {
  }

  /** The state the hook keeps: `result`, `loading` and `error`. */
  class LeadDataHook {
    var result: Option<LeadResponse>
    var loading: bool
    var error: Option<string>

    /** Whenever a result is installed, every field of it is populated and in range. */
    ghost predicate Valid()
      reads this
    {
      result.Some? ==> Populated(result.value)
    }

    /** `useState(null)`, `useState(false)`, `useState(null)`. */
    constructor ()
      ensures Valid()
      ensures result == None && !loading && error == None
    {
      result := None;
      loading := false;
      error := None;
    }

    /** The synchronous start of predictLead, before the request is awaited. */
    method BeginPredict()
      requires Valid()
      modifies this
      ensures Valid()
      ensures loading && error == None && result == None
    {
      loading := true;
      error := None;
      result := None;
    }

    /**
     * The rest of predictLead, once the request has settled. On a label the
     * result is built from it and `error` is left alone; on a failure `error`
     * takes the message and the stand-in result is installed. Either way a
     * result is present and `loading` ends false.
     */
    method SettlePredict(leadData: Record, outcome: FetchOutcome, r1: real, r2: real, r3: real, r4: real)
      requires Valid()
      requires IsDraw(r1) && IsDraw(r2) && IsDraw(r3) && IsDraw(r4)
      modifies this
      ensures Valid()
      ensures !loading && result.Some?
      ensures Settle(outcome).Labelled? ==>
        result == Some(SuccessResult(Settle(outcome).prediction, leadData, r1, r2)) && error == old(error)
      ensures Settle(outcome).Failed? ==>
        result == Some(FallbackResult(r1, r2, r3, r4)) && error == Some(Settle(outcome).message)
    {
      match Settle(outcome) {
        case Labelled(predictedLabel) =>
          var predictionConfidence := r1 * 0.2 + 0.8;
          var qualityScore: real;
          var accepted: bool;
          if predictedLabel == Some("High") {
            qualityScore := r2 * 0.2 + 0.8;
            accepted := true;
          } else if predictedLabel == Some("Medium") {
            qualityScore := r2 * 0.2 + 0.6;
            accepted := true;
          } else {
            qualityScore := r2 * 0.6;
            accepted := false;
          }
          result := Some(LeadResponse(predictedLabel, qualityScore, accepted, predictionConfidence, FirstKeys(leadData, 4)));
        case Failed(errorMessage) =>
          error := Some(errorMessage);
          result := Some(FallbackResult(r1, r2, r3, r4));
      }
      loading := false;
    }

    /** clearResult: drops the result and the error; `loading` is untouched. */
    method ClearResult()
      requires Valid()
      modifies this
      ensures Valid()
      ensures result == None && error == None && loading == old(loading)
    {
      result := None;
      error := None;
    }
  }
}
