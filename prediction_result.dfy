/**
 * The result view (src/components/PredictionResult.tsx): the safeguards it
 * applies to the result it is handed, its own copies of the tier helpers,
 * the accepted/rejected wording and the factor summary.
 */
module PredictionResult {
  import opened Wrappers
  import opened Text
  import opened Quality
  import LeadCard
  import LeadData
  import Records

  /**
   * The result as the view reads it: any field may be missing or not a
   * number, which None stands for.
   */
  datatype ResultProps = ResultProps(
    qualityScore: Option<real>,
    accepted: Option<bool>,
    predictionConfidence: Option<real>,
    featuresUsed: Option<seq<string>>)

  /** The props the page passes for a result the hook installed. */
  function PropsOf(r: LeadData.LeadResponse): ResultProps
  {
    ResultProps(Some(r.qualityScore), Some(r.accepted), Some(r.predictionConfidence), Some(r.featuresUsed))
  }

  /** `Number(x) || 0`: a missing or non-numeric value is shown as 0. */
  function DisplayNumber(x: Option<real>): (d: real)
    ensures x.None? ==> d == 0.0
    ensures x.Some? ==> d == x.value
  {
    match x
    case None => 0.0
    case Some(v) => if v == 0.0 then 0.0 else v
  }

  /** `result?.features_used || []`. */
  function Features(p: ResultProps): (fs: seq<string>)
    ensures p.featuresUsed.None? ==> fs == []
    ensures p.featuresUsed.Some? ==> fs == p.featuresUsed.value
  {
    match p.featuresUsed
    case None => []
    case Some(f) => f
  }

  /** The view's colour helper: green, yellow or red by score. */
  function QualityColor(score: real): (c: string)
    ensures forall t :: c == ColorClass(t) <==> InTier(score, t)
  {
    TierNamesInjective();
    if score >= 0.8 then "bg-green-500"
    else if score >= 0.6 then "bg-yellow-500"
    else "bg-red-500"
  }

  /** The view's caption helper: High, Medium or Low Quality by score. */
  function QualityLabel(score: real): (l: string)
    ensures forall t :: l == LabelText(t) <==> InTier(score, t)
  {
    TierNamesInjective();
    if score >= 0.8 then "High Quality"
    else if score >= 0.6 then "Medium Quality"
    else "Low Quality"
  }

  /** The badge text; a missing `accepted` reads as rejected. */
  function AcceptedBadge(p: ResultProps): string
  {
    if p.accepted == Some(true) then "Lead Accepted" else "Lead Rejected"
  }

  /** The word the summary uses for the lead. */
  function PotentialText(p: ResultProps): string
  {
    if p.accepted == Some(true) then "high-potential" else "low-potential"
  }

  /** The factors the summary names and how many it only counts. */
  datatype Summary = Summary(named: seq<string>, others: nat)

  /**
   * The summary names the first three factors at most, in order, and counts
   * the remaining ones; it counts some exactly when there are more than three.
   */
  function SummaryOf(features: seq<string>): (s: Summary)
    ensures |s.named| <= 3 && s.named <= features
    ensures |s.named| == if |features| > 3 then 3 else |features|
    ensures |s.named| + s.others == |features|
    ensures s.others > 0 <==> |features| > 3
  {
    if |features| > 3 then Summary(features[..3], |features| - 3) else Summary(features, 0)
  }

  /** `features.slice(0, 3).join(', ')` followed, for more than three, by " and N other factors". */
  function SummaryText(features: seq<string>): string
  {
    var s := SummaryOf(features);
    Join(s.named, ", ") + (if s.others > 0 then " and " + NatToString(s.others) + " other factors" else "")
  }

  /** The "other factors" clause appears exactly when there are more than three factors, with N = length - 3. */
  lemma SummaryTextShape(features: seq<string>)
    ensures |features| > 3 ==>
      SummaryText(features) == Join(features[..3], ", ") + " and " + NatToString(|features| - 3) + " other factors"
    ensures |features| <= 3 ==> SummaryText(features) == Join(features, ", ")
  {
    if |features| > 3 {
      ManyFactorsText(features);
    } else {
      FewFactorsText(features);
    }
  }

  lemma ManyFactorsText(features: seq<string>)
    requires |features| > 3
    ensures SummaryText(features) == Join(features[..3], ", ") + " and " + NatToString(|features| - 3) + " other factors"
  {
    var s := SummaryOf(features);
    assert s.named == features[..3] && s.others == |features| - 3;
  }

  lemma FewFactorsText(features: seq<string>)
    requires |features| <= 3
    ensures SummaryText(features) == Join(features, ", ")
  {
    var s := SummaryOf(features);
    assert s.named == features && s.others == 0;
    assert Join(features, ", ") + "" == Join(features, ", ");
  }

  /** Both copies of the tier helpers, this view's and the card's, agree on every score. */
  lemma CopiesAgree(score: real)
    ensures QualityColor(score) == LeadCard.QualityColor(score)
    ensures QualityLabel(score) == LeadCard.QualityLabel(score)
  {
    TiersPartition(score);
    if InTier(score, High) {
      assert QualityColor(score) == ColorClass(High) == LeadCard.QualityColor(score);
      assert QualityLabel(score) == LabelText(High) == LeadCard.QualityLabel(score);
    } else if InTier(score, Medium) {
      assert QualityColor(score) == ColorClass(Medium) == LeadCard.QualityColor(score);
      assert QualityLabel(score) == LabelText(Medium) == LeadCard.QualityLabel(score);
    } else {
      assert QualityColor(score) == ColorClass(Low) == LeadCard.QualityColor(score);
      assert QualityLabel(score) == LabelText(Low) == LeadCard.QualityLabel(score);
    }
  }

  /** The colour and the caption always name the same tier. */
  lemma ColorMatchesLabel(score: real)
    ensures forall t :: QualityColor(score) == ColorClass(t) <==> QualityLabel(score) == LabelText(t)
  {
  }

  /** The badge says "Lead Accepted" and the summary "high-potential" exactly when `accepted` is true. */
  lemma AcceptanceWordingAgrees(p: ResultProps)
    ensures AcceptedBadge(p) == "Lead Accepted" <==> p.accepted == Some(true)
    ensures PotentialText(p) == "high-potential" <==> p.accepted == Some(true)
  {
  }

  /**
   * For a result the hook installed after a label, the view shows the
   * caption of the tier the label names, and the safeguards change nothing.
   */
  lemma ShownTierMatchesLabel(prediction: Option<string>, leadData: Records.Record, r1: real, r2: real)
    requires LeadData.IsDraw(r1) && LeadData.IsDraw(r2)
    ensures var p := PropsOf(LeadData.SuccessResult(prediction, leadData, r1, r2));
      && DisplayNumber(p.qualityScore) == LeadData.SuccessResult(prediction, leadData, r1, r2).qualityScore
      && QualityLabel(DisplayNumber(p.qualityScore)) == LabelText(LeadData.PredictedTier(prediction))
      && Features(p) == Records.FirstKeys(leadData, 4)
  {
  }
}
