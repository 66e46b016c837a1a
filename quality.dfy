/**
 * The three quality tiers a score falls into, with the thresholds every
 * component of the client uses (score at least 0.8: High; at least 0.6:
 * Medium; below: Low), and the names and colours shown for them.
 */
module Quality {

  datatype Tier = High | Medium | Low

  const HighThreshold: real := 0.8
  const MediumThreshold: real := 0.6

  /** The interval of scores that belongs to each tier. */
  predicate InTier(score: real, t: Tier)
  {
    match t
    case High => HighThreshold <= score
    case Medium => MediumThreshold <= score < HighThreshold
    case Low => score < MediumThreshold
  }

  /** The tier a prediction label names; every other label counts as Low. */
  function LabelTier(prediction: string): Tier
  {
    if prediction == "High" then High else if prediction == "Medium" then Medium else Low
  }

  /** The caption shown for a tier. */
  function LabelText(t: Tier): string
  {
    match t
    case High => "High Quality"
    case Medium => "Medium Quality"
    case Low => "Low Quality"
  }

  /** The colour class shown for a tier. */
  function ColorClass(t: Tier): string
  {
    match t
    case High => "bg-green-500"
    case Medium => "bg-yellow-500"
    case Low => "bg-red-500"
  }

  /** The tier of a score, by the two thresholds. */
  function TierOf(score: real): (t: Tier)
    ensures InTier(score, t)
  {
    if score >= HighThreshold then High else if score >= MediumThreshold then Medium else Low
  }

  /** Every real score lies in exactly one tier: the one TierOf picks. */
  lemma TiersPartition(score: real)
    ensures InTier(score, High) || InTier(score, Medium) || InTier(score, Low)
    ensures forall t :: InTier(score, t) <==> t == TierOf(score)
  {
  }

  /** Distinct tiers have distinct captions and distinct colours. */
  lemma NamesDistinct(t: Tier, u: Tier)
    ensures LabelText(t) == LabelText(u) ==> t == u
    ensures ColorClass(t) == ColorClass(u) ==> t == u
  {
    if t != u {
      assert LabelText(t)[0] != LabelText(u)[0];
      assert ColorClass(t)[3] != ColorClass(u)[3];
    }
  }

  /** Captions and colours identify their tier. */
  lemma TierNamesInjective()
    ensures forall t, u :: LabelText(t) == LabelText(u) ==> t == u
    ensures forall t, u :: ColorClass(t) == ColorClass(u) ==> t == u
  {
    forall t, u ensures LabelText(t) == LabelText(u) ==> t == u {
      NamesDistinct(t, u);
    }
    forall t, u ensures ColorClass(t) == ColorClass(u) ==> t == u {
      NamesDistinct(t, u);
    }
  }
}
