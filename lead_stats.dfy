/** The summary tiles over processed leads (src/components/LeadStats.tsx). */
module LeadStats {

  /** The acceptance rate in percent; no leads give 0 and no division is made. */
  function AcceptanceRate(totalLeads: int, acceptedLeads: int): (rate: real)
    ensures totalLeads <= 0 ==> rate == 0.0
    ensures totalLeads > 0 ==> rate * totalLeads as real == acceptedLeads as real * 100.0
  {
    if totalLeads > 0 then (acceptedLeads as real / totalLeads as real) * 100.0 else 0.0
  }

  /** When no more leads are accepted than processed, the rate is a percentage. */
  lemma AcceptanceRateBounds(totalLeads: int, acceptedLeads: int)
    requires 0 <= acceptedLeads <= totalLeads
    ensures 0.0 <= AcceptanceRate(totalLeads, acceptedLeads) <= 100.0
  {
    if totalLeads > 0 {
      var t := totalLeads as real;
      var q := acceptedLeads as real / t;
      assert q * t == acceptedLeads as real;
      QuotientBounds(acceptedLeads as real, t);
    }
  }

  /** With every lead accepted the rate is exactly 100. */
  lemma AllAcceptedIsHundred(totalLeads: int)
    requires totalLeads > 0
    ensures AcceptanceRate(totalLeads, totalLeads) == 100.0
  {
  }

  /** The rate grows with the number of accepted leads. */
  lemma AcceptanceRateMonotone(totalLeads: int, a: int, b: int)
    requires a <= b
    ensures AcceptanceRate(totalLeads, a) <= AcceptanceRate(totalLeads, b)
  {
    if totalLeads > 0 {
      var t := totalLeads as real;
      var qa, qb := a as real / t, b as real / t;
      assert qa * t == a as real && qb * t == b as real;
      assert qb - qa == (b - a) as real / t;
    }
  }

  lemma QuotientBounds(x: real, t: real)
    requires 0.0 <= x <= t && t > 0.0
    ensures 0.0 <= x / t <= 1.0
  {
  }
}
