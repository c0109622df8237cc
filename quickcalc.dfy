/** The quick presumptive-tax calculator: flat VAT on revenue by rate
    bucket, and personal income tax on net income by seven progressive
    brackets. The bracket schedule is given once, as a table; the tax it
    defines (each bracket's share of income times its rate) is the
    reference, and the calculator's clamp-and-descend walk is proved to
    compute it. */
module QuickCalc {
  import opened Common

  /** Income above `floor` (and below the next floor up) is taxed at `rate`. */
  datatype Bracket = Bracket(floor: real, rate: real)

  /** The PIT schedule, highest floor first, in the order the calculator walks it. */
  const PitBrackets: seq<Bracket> := [
    Bracket(160000000.0, 0.35),
    Bracket(100000000.0, 0.30),
    Bracket(60000000.0, 0.25),
    Bracket(20000000.0, 0.20),
    Bracket(10000000.0, 0.15),
    Bracket(5000000.0, 0.10),
    Bracket(0.0, 0.05)
  ]

  /** Floors strictly descending, the lowest one 0: the brackets tile [0, infinity). */
  predicate WellFormed(bs: seq<Bracket>)
  {
    && |bs| > 0
    && bs[|bs| - 1].floor == 0.0
    && forall i :: 0 < i < |bs| ==> bs[i].floor < bs[i - 1].floor
  }

  predicate RatesWithin(bs: seq<Bracket>, lo: real, hi: real)
  {
    forall i :: 0 <= i < |bs| ==> lo <= bs[i].rate <= hi
  }

  /** Income `n` capped at the top of bracket `k` (the floor of the bracket above it). */
  function Capped(n: real, bs: seq<Bracket>, k: nat): real
    requires k <= |bs|
  {
    if k == 0 then n else Min(n, bs[k - 1].floor)
  }

  /** The part of income `n` that falls inside bracket `k`. */
  function Portion(n: real, bs: seq<Bracket>, k: nat): (p: real)
    requires k < |bs|
    ensures p >= 0.0
  {
    Max(0.0, Capped(n, bs, k) - bs[k].floor)
  }

  /** Total income falling in brackets `k` and below. */
  function PortionSum(n: real, bs: seq<Bracket>, k: nat): real
    requires k <= |bs|
    decreases |bs| - k
  {
    if k == |bs| then 0.0 else Portion(n, bs, k) + PortionSum(n, bs, k + 1)
  }

  /** The tax on the part of income `n` inside bracket `k`. */
  function Share(n: real, bs: seq<Bracket>, k: nat): real
    requires k < |bs|
  {
    bs[k].rate * Portion(n, bs, k)
  }

  /** Reference tax: every bracket's portion of income times its rate, summed. */
  function BracketTax(n: real, bs: seq<Bracket>, k: nat): real
    requires k <= |bs|
    decreases |bs| - k
  {
    if k == |bs| then 0.0 else Share(n, bs, k) + BracketTax(n, bs, k + 1)
  }

  /** Progressive PIT on net income under the schedule. */
  function ProgressivePit(n: real): real
  {
    BracketTax(n, PitBrackets, 0)
  }

  /** The calculator's walk: from the highest floor down, if what is still
      taxable exceeds the floor, tax the excess at the bracket's rate and
      clamp the taxable amount to the floor. */
  function ClampWalk(taxable: real, bs: seq<Bracket>, k: nat): (t: real)
    requires k <= |bs|
    ensures (forall i :: 0 <= i < |bs| ==> bs[i].rate >= 0.0) ==> t >= 0.0
    decreases |bs| - k
  {
    if k == |bs| then 0.0
    else if taxable > bs[k].floor then
      ProductNonNegative(taxable - bs[k].floor, bs[k].rate);
      (taxable - bs[k].floor) * bs[k].rate + ClampWalk(bs[k].floor, bs, k + 1)
    else ClampWalk(taxable, bs, k + 1)
  }

  // Properties of the schedule ------------------------------------------------

  lemma PitBracketsWellFormed()
    ensures WellFormed(PitBrackets) && RatesWithin(PitBrackets, 0.05, 0.35)
  {
  }

  /** The income capped at bracket `k + 1`'s top (bracket `k`'s floor) is the
      income capped at bracket `k`'s top, clamped down to bracket `k`'s floor. */
  lemma CappedStep(n: real, bs: seq<Bracket>, k: nat)
    requires WellFormed(bs) && k < |bs|
    ensures Capped(n, bs, k) <= bs[k].floor ==> Capped(n, bs, k + 1) == Capped(n, bs, k)
    ensures Capped(n, bs, k) > bs[k].floor ==> Capped(n, bs, k + 1) == bs[k].floor
  {
  }

  /** The walk computes the reference tax: at every step the amount still
      taxable is the income capped at the current bracket's top. */
  lemma {:induction false} WalkIsBracketTax(n: real, bs: seq<Bracket>, k: nat)
    requires WellFormed(bs) && k <= |bs|
    ensures ClampWalk(Capped(n, bs, k), bs, k) == BracketTax(n, bs, k)
    decreases |bs| - k
  {
    if k < |bs| {
      CappedStep(n, bs, k);
      WalkIsBracketTax(n, bs, k + 1);
    }
  }

  /** No gap and no overlap: for non-negative income the portions of the
      brackets from `k` down add up to the income capped at bracket `k`'s top;
      from the top bracket, to the whole income. */
  lemma {:induction false} PortionsCoverIncome(n: real, bs: seq<Bracket>, k: nat)
    requires WellFormed(bs) && k <= |bs| && n >= 0.0
    ensures PortionSum(n, bs, k) == Capped(n, bs, k)
    decreases |bs| - k
  {
    if k < |bs| {
      CappedStep(n, bs, k);
      PortionsCoverIncome(n, bs, k + 1);
    }
  }

  /** Rates between 5% and 35% put the tax between 5% and 35% of the income taxed. */
  lemma {:induction false} BracketTaxBetweenRates(n: real, bs: seq<Bracket>, k: nat)
    requires k <= |bs| && RatesWithin(bs, 0.05, 0.35)
    ensures 0.05 * PortionSum(n, bs, k) <= BracketTax(n, bs, k) <= 0.35 * PortionSum(n, bs, k)
    decreases |bs| - k
  {
    if k < |bs| {
      BracketTaxBetweenRates(n, bs, k + 1);
      ShareBetween(n, bs, k);
    }
  }

  /** A bracket taxed at 5% to 35% of its portion. */
  lemma ShareBetween(n: real, bs: seq<Bracket>, k: nat)
    requires k < |bs| && 0.05 <= bs[k].rate <= 0.35
    ensures 0.05 * Portion(n, bs, k) <= Share(n, bs, k) <= 0.35 * Portion(n, bs, k)
  {
    ScaledBetween(bs[k].rate, Portion(n, bs, k), 0.05, 0.35);
  }

  lemma ProductNonNegative(p: real, r: real)
    ensures p >= 0.0 && r >= 0.0 ==> p * r >= 0.0
  {
    if p >= 0.0 && r >= 0.0 {
      ScaledBetween(r, p, 0.0, r);
    }
  }

  lemma ScaledBetween(r: real, p: real, lo: real, hi: real)
    requires lo <= r <= hi && p >= 0.0
    ensures lo * p <= r * p <= hi * p
  {
    assert (r - lo) * p >= 0.0 && (hi - r) * p >= 0.0;
    assert (r - lo) * p == r * p - lo * p && (hi - r) * p == hi * p - r * p;
  }

  lemma PortionMonotone(n1: real, n2: real, bs: seq<Bracket>, k: nat)
    requires k < |bs| && n1 <= n2
    ensures Portion(n1, bs, k) <= Portion(n2, bs, k)
  {
  }

  /** More income never means less tax, whatever the (non-negative) rates. */
  lemma {:induction false} BracketTaxMonotone(n1: real, n2: real, bs: seq<Bracket>, k: nat)
    requires k <= |bs| && n1 <= n2
    requires forall i :: 0 <= i < |bs| ==> bs[i].rate >= 0.0
    ensures BracketTax(n1, bs, k) <= BracketTax(n2, bs, k)
    decreases |bs| - k
  {
    if k < |bs| {
      BracketTaxMonotone(n1, n2, bs, k + 1);
      ShareMonotone(n1, n2, bs, k);
    }
  }

  /** A bracket's tax grows with income when its rate is non-negative. */
  lemma ShareMonotone(n1: real, n2: real, bs: seq<Bracket>, k: nat)
    requires k < |bs| && n1 <= n2 && bs[k].rate >= 0.0
    ensures Share(n1, bs, k) <= Share(n2, bs, k)
  {
    PortionMonotone(n1, n2, bs, k);
    var p1, p2 := Portion(n1, bs, k), Portion(n2, bs, k);
    assert bs[k].rate * (p2 - p1) >= 0.0;
    assert bs[k].rate * (p2 - p1) == bs[k].rate * p2 - bs[k].rate * p1;
  }

  // The same properties for the PIT schedule ------------------------------------

  /** The calculator's walk over the schedule computes the progressive PIT. */
  lemma PitIsWalk(n: real)
    ensures ClampWalk(n, PitBrackets, 0) == ProgressivePit(n)
  {
    PitBracketsWellFormed();
    WalkIsBracketTax(n, PitBrackets, 0);
  }

  /** For non-negative income: between 5% and 35% of it, and 0 on 0. */
  lemma PitBounds(n: real)
    requires n >= 0.0
    ensures 0.05 * n <= ProgressivePit(n) <= 0.35 * n
    ensures n == 0.0 ==> ProgressivePit(n) == 0.0
  {
    PitBracketsWellFormed();
    PortionsCoverIncome(n, PitBrackets, 0);
    BracketTaxBetweenRates(n, PitBrackets, 0);
  }

  /** No income above 0 falls in any bracket, so it attracts no PIT. */
  lemma NoIncomeNoPit(n: real)
    requires n <= 0.0
    ensures ProgressivePit(n) == 0.0
  {
    PitIsWalk(n);
    WalkStep(n, 6);
    WalkStep(n, 5);
    WalkStep(n, 4);
    WalkStep(n, 3);
    WalkStep(n, 2);
    WalkStep(n, 1);
    WalkStep(n, 0);
  }

  /** Progressive PIT is non-decreasing in net income. */
  lemma PitMonotone(n1: real, n2: real)
    requires n1 <= n2
    ensures ProgressivePit(n1) <= ProgressivePit(n2)
  {
    PitBracketsWellFormed();
    BracketTaxMonotone(n1, n2, PitBrackets, 0);
  }

  /** 5,000,000 at 5% plus 5,000,000 at 10%. */
  lemma PitAtTenMillion()
    ensures ProgressivePit(10000000.0) == 750000.0
  {
    PitIsWalk(10000000.0);
  }

  /** Full widths of the brackets below 160,000,000, each times its rate. */
  lemma PitAtTopFloor()
    ensures ProgressivePit(160000000.0)
      == 5000000.0 * 0.05 + 5000000.0 * 0.10 + 10000000.0 * 0.15
       + 40000000.0 * 0.20 + 40000000.0 * 0.25 + 60000000.0 * 0.30
  {
    PitIsWalk(160000000.0);
  }

  /** One step of the walk over the schedule, with the bracket's floor and rate written out. */
  lemma WalkStep(taxable: real, k: nat)
    requires k < |PitBrackets|
    ensures var f, r := PitBrackets[k].floor, PitBrackets[k].rate;
      && f == [160000000.0, 100000000.0, 60000000.0, 20000000.0, 10000000.0, 5000000.0, 0.0][k]
      && r == [0.35, 0.30, 0.25, 0.20, 0.15, 0.10, 0.05][k]
      && ClampWalk(taxable, PitBrackets, k)
         == (if taxable > f then (taxable - f) * r + ClampWalk(f, PitBrackets, k + 1)
             else ClampWalk(taxable, PitBrackets, k + 1))
      && (k == |PitBrackets| - 1 ==> ClampWalk(f, PitBrackets, k + 1) == 0.0 && ClampWalk(taxable, PitBrackets, k + 1) == 0.0)
  {
  }

  // The calculator ----------------------------------------------------------------

  /** VAT revenue by rate bucket (10%, 5%, 0%) and PIT revenue and expense. */
  datatype QuickCalcInput = QuickCalcInput(rev10: real, rev5: real, rev0: real, pitRevenue: real, pitExpense: real)

  datatype QuickCalcResult = QuickCalcResult(vat: real, pit: real, netIncome: real, totalTax: real)

  /** The widget's starting inputs. */
  const DefaultInput := QuickCalcInput(50000000.0, 20000000.0, 10000000.0, 80000000.0, 30000000.0)

  /** The PIT part of the calculator: descends the schedule from the highest
      floor, taxing what exceeds each floor and clamping to it; no net income
      above 0 means no tax. */
  method WalkBrackets(netIncome: real) returns (pit: real)
    ensures pit == ProgressivePit(netIncome)
  {
    pit := 0.0;
    if netIncome > 0.0 {
      var taxable := netIncome;
      WalkStep(taxable, 0);
      if taxable > 160000000.0 { pit := pit + (taxable - 160000000.0) * 0.35; taxable := 160000000.0; }
      assert pit + ClampWalk(taxable, PitBrackets, 1) == ClampWalk(netIncome, PitBrackets, 0);
      WalkStep(taxable, 1);
      if taxable > 100000000.0 { pit := pit + (taxable - 100000000.0) * 0.30; taxable := 100000000.0; }
      assert pit + ClampWalk(taxable, PitBrackets, 2) == ClampWalk(netIncome, PitBrackets, 0);
      WalkStep(taxable, 2);
      if taxable > 60000000.0 { pit := pit + (taxable - 60000000.0) * 0.25; taxable := 60000000.0; }
      assert pit + ClampWalk(taxable, PitBrackets, 3) == ClampWalk(netIncome, PitBrackets, 0);
      WalkStep(taxable, 3);
      if taxable > 20000000.0 { pit := pit + (taxable - 20000000.0) * 0.20; taxable := 20000000.0; }
      assert pit + ClampWalk(taxable, PitBrackets, 4) == ClampWalk(netIncome, PitBrackets, 0);
      WalkStep(taxable, 4);
      if taxable > 10000000.0 { pit := pit + (taxable - 10000000.0) * 0.15; taxable := 10000000.0; }
      assert pit + ClampWalk(taxable, PitBrackets, 5) == ClampWalk(netIncome, PitBrackets, 0);
      WalkStep(taxable, 5);
      if taxable > 5000000.0 { pit := pit + (taxable - 5000000.0) * 0.10; taxable := 5000000.0; }
      assert pit + ClampWalk(taxable, PitBrackets, 6) == ClampWalk(netIncome, PitBrackets, 0);
      WalkStep(taxable, 6);
      if taxable > 0.0 { pit := pit + taxable * 0.05; }
      assert pit == ClampWalk(netIncome, PitBrackets, 0);
      PitIsWalk(netIncome);
    } else {
      NoIncomeNoPit(netIncome);
    }
  }

  /** VAT on the 10% and 5% buckets (the 0% bucket adds nothing), PIT on
      revenue less expense floored at 0, and their sum. */
  method Calculate(input: QuickCalcInput) returns (r: QuickCalcResult)
    ensures r.vat == input.rev10 * 0.10 + input.rev5 * 0.05
    ensures r.netIncome == Max(0.0, input.pitRevenue - input.pitExpense) && r.netIncome >= 0.0
    ensures r.pit == ProgressivePit(r.netIncome)
    ensures 0.05 * r.netIncome <= r.pit <= 0.35 * r.netIncome
    ensures r.totalTax == r.vat + r.pit
  {
    var vat := input.rev10 * 0.10 + input.rev5 * 0.05;
    var netIncome := Max(0.0, input.pitRevenue - input.pitExpense);
    var pit := WalkBrackets(netIncome);
    PitBounds(netIncome);
    r := QuickCalcResult(vat, pit, netIncome, vat + pit);
  }

  /** With the starting inputs: net income 50,000,000 and PIT 8,250,000. */
  lemma DefaultInputPit()
    ensures Max(0.0, DefaultInput.pitRevenue - DefaultInput.pitExpense) == 50000000.0
    ensures ProgressivePit(50000000.0) == 8250000.0
  {
    PitIsWalk(50000000.0);
  }
}
