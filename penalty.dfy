/** The late-filing penalty calculator: days late, a step fine chosen by
    the first threshold the lateness does not exceed, and simple daily
    interest on the tax owed. Dates are calendar day numbers, so the day
    difference of two midnight dates is exact. */
module Penalty {

  /** How the result is labelled. */
  datatype Level = OnTime | LateFiling | MaximumTier

  datatype PenaltyResult = PenaltyResult(days: int, total: real, fine: real, lateInterest: real, level: Level)

  /** The fine schedule, thresholds tried in ascending order, first match wins. */
  function Fine(days: int): (f: real)
    ensures 3500000.0 <= f <= 20000000.0
    ensures f == 20000000.0 <==> days > 90
  {
    if days <= 30 then 3500000.0
    else if days <= 60 then 6500000.0
    else if days <= 90 then 11500000.0
    else 20000000.0
  }

  /** Daily interest of 0.03% on the tax owed, not compounded. */
  function LateInterest(taxAmount: real, days: int): (i: real)
    ensures days == 0 || taxAmount == 0.0 ==> i == 0.0
    ensures taxAmount >= 0.0 && days >= 0 ==> i >= 0.0
  {
    taxAmount * (days as real) * 0.0003
  }

  /** The penalty for filing on day `submit` a return due on day `due`. */
  function Compute(due: int, submit: int, taxAmount: real): (r: PenaltyResult)
    ensures r.days >= 0 && r.fine >= 0.0
    ensures r.days == (if submit > due then submit - due else 0)
    ensures r.level == OnTime <==> submit <= due
    ensures r.level == MaximumTier <==> submit - due > 90
    ensures r.total == r.fine + r.lateInterest
  {
    var diffDays := submit - due;
    if diffDays <= 0 then PenaltyResult(0, 0.0, 0.0, 0.0, OnTime)
    else
      var fine := Fine(diffDays);
      var lateInterest := LateInterest(taxAmount, diffDays);
      PenaltyResult(diffDays, fine + lateInterest, fine, lateInterest,
                    if diffDays > 90 then MaximumTier else LateFiling)
  }

  /** Filing on or before the due day costs nothing. */
  lemma OnTimeIsFree(due: int, submit: int, taxAmount: real)
    requires submit <= due
    ensures Compute(due, submit, taxAmount) == PenaltyResult(0, 0.0, 0.0, 0.0, OnTime)
  {
  }

  /** A late return is fined by the tier its lateness falls in and charged
      the daily interest for every day late. */
  lemma LateFilingCharges(due: int, submit: int, taxAmount: real)
    requires submit > due
    ensures var r := Compute(due, submit, taxAmount);
      && r.days == submit - due
      && (r.days <= 30 ==> r.fine == 3500000.0)
      && (30 < r.days <= 60 ==> r.fine == 6500000.0)
      && (60 < r.days <= 90 ==> r.fine == 11500000.0)
      && (r.days > 90 ==> r.fine == 20000000.0)
      && r.lateInterest == taxAmount * (r.days as real) * 0.0003
  {
  }

  /** A later filing is never fined less. */
  lemma FineMonotone(d1: int, d2: int)
    requires d1 <= d2
    ensures Fine(d1) <= Fine(d2)
  {
  }

  lemma InterestMonotone(taxAmount: real, d1: int, d2: int)
    requires taxAmount >= 0.0 && 0 <= d1 <= d2
    ensures 0.0 <= LateInterest(taxAmount, d1) <= LateInterest(taxAmount, d2)
  {
    assert taxAmount * ((d2 - d1) as real) >= 0.0;
  }

  /** For a non-negative tax, filing later never lowers the total penalty,
      the step from on time to one day late included. */
  lemma TotalMonotone(due: int, s1: int, s2: int, taxAmount: real)
    requires taxAmount >= 0.0 && s1 <= s2
    ensures Compute(due, s1, taxAmount).total <= Compute(due, s2, taxAmount).total
  {
    if s2 > due {
      InterestMonotone(taxAmount, if s1 > due then s1 - due else 0, s2 - due);
      FineMonotone(s1 - due, s2 - due);
    }
  }

  /** Due 2026-07-31, filed 2026-08-15, tax 5,000,000: 15 days late, a fine of
      3,500,000, interest of 22,500 and 3,522,500 in all. */
  lemma FifteenDaysLate(due: int)
    ensures Compute(due, due + 15, 5000000.0) == PenaltyResult(15, 3522500.0, 3500000.0, 22500.0, LateFiling)
  {
  }
}
