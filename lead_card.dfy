/** The card that shows one scored lead (src/components/LeadCard.tsx). */
module LeadCard {
  import opened Wrappers
  import opened Quality

  /** A scored lead as the card and the charts receive it. */
  datatype Lead = Lead(
    id: string,
    name: string,
    email: string,
    phone: Option<string>,
    company: string,
    location: string,
    qualityScore: real,
    accepted: bool,
    predictionConfidence: real)

  /** The card's colour helper: green, yellow or red by score. */
  function QualityColor(score: real): (c: string)
    ensures forall t :: c == ColorClass(t) <==> InTier(score, t)
  {
    TierNamesInjective();
    if score >= 0.8 then "bg-green-500"
    else if score >= 0.6 then "bg-yellow-500"
    else "bg-red-500"
  }

  /** The card's caption helper: High, Medium or Low Quality by score. */
  function QualityLabel(score: real): (l: string)
    ensures forall t :: l == LabelText(t) <==> InTier(score, t)
  {
    TierNamesInjective();
    if score >= 0.8 then "High Quality"
    else if score >= 0.6 then "Medium Quality"
    else "Low Quality"
  }

  /** The badge reads "Accepted" exactly for accepted leads and "Rejected" otherwise. */
  function BadgeText(lead: Lead): (b: string)
    ensures b == "Accepted" <==> lead.accepted
    ensures b == "Rejected" <==> !lead.accepted
  {
    if lead.accepted then "Accepted" else "Rejected"
  }

  /** The colour dot and the caption always name the same tier. */
  lemma ColorMatchesLabel(score: real)
    ensures forall t :: QualityColor(score) == ColorClass(t) <==> QualityLabel(score) == LabelText(t)
  {
  }
}
