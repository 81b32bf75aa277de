/** The savings calculator on the home page (`page.tsx`): the estimated
    monthly cost clamps 500 per team member to [5054, 6709], and the annual
    savings are twelve months of the difference to the current cost. Both
    sliders deliver integers. */
module CostCalculator {

  const PerMember: int := 500
  const MinEstimate: int := 5054
  const MaxEstimate: int := 6709

  const DefaultMonthlyCost: int := 5000
  const DefaultTeamSize: int := 10

  /** The team-size slider: 1 to 100 in steps of 1. */
  predicate TeamSizeOnSlider(t: int)
  {
    1 <= t <= 100
  }

  /** The monthly-cost slider: 1000 to 50000 in steps of 1000. */
  predicate MonthlyCostOnSlider(m: int)
  {
    1000 <= m <= 50000 && m % 1000 == 0
  }

  /** `Math.max` and `Math.min` on integers. */
  function MathMax(a: int, b: int): int { if a >= b then a else b }
  function MathMin(a: int, b: int): int { if a <= b then a else b }

  /** `Math.min(Math.max(teamSize * 500, 5054), 6709)`. */
  function EstimatedMonthlyCost(teamSize: int): (e: int)
    ensures MinEstimate <= e <= MaxEstimate
    ensures MinEstimate <= teamSize * PerMember <= MaxEstimate ==> e == teamSize * PerMember
    ensures teamSize * PerMember < MinEstimate ==> e == MinEstimate
    ensures teamSize * PerMember > MaxEstimate ==> e == MaxEstimate
  {
    MathMin(MathMax(teamSize * PerMember, MinEstimate), MaxEstimate)
  }

  /** `(monthlyCost - estimate) * 12`. */
  function AnnualSavings(monthlyCost: int, teamSize: int): (s: int)
    ensures s % 12 == 0
    ensures s < 0 <==> monthlyCost < EstimatedMonthlyCost(teamSize)
    ensures s == 0 <==> monthlyCost == EstimatedMonthlyCost(teamSize)
  {
    (monthlyCost - EstimatedMonthlyCost(teamSize)) * 12
  }

  /** A larger team never lowers the estimate. */
  lemma EstimateMonotone(a: int, b: int)
    requires a <= b
    ensures EstimatedMonthlyCost(a) <= EstimatedMonthlyCost(b)
  {
    assert a * PerMember <= b * PerMember;
  }

  /** On the slider the estimate takes five values: the floor up to ten
      members, 500 per member for eleven to thirteen, the ceiling beyond. */
  lemma SliderEstimates(t: int)
    requires TeamSizeOnSlider(t)
    ensures t <= 10 ==> EstimatedMonthlyCost(t) == MinEstimate
    ensures 11 <= t <= 13 ==> EstimatedMonthlyCost(t) == t * PerMember
    ensures t >= 14 ==> EstimatedMonthlyCost(t) == MaxEstimate
    ensures EstimatedMonthlyCost(t) in {5054, 5500, 6000, 6500, 6709}
  {
    if t <= 10 {
      assert t * PerMember <= 5000;
    } else if t <= 13 {
      assert 5500 <= t * PerMember <= 6500;
    } else {
      assert t * PerMember >= 7000;
    }
  }

  /** Savings grow with the current cost and shrink as the team grows. */
  lemma SavingsMonotone(m1: int, m2: int, t1: int, t2: int)
    requires m1 <= m2 && t2 <= t1
    ensures AnnualSavings(m1, t1) <= AnnualSavings(m2, t2)
  {
    EstimateMonotone(t2, t1);
  }

  /** On the sliders, a current cost of 1000 always shows a loss and one of
      7000 or more always a saving. */
  lemma SliderSavingsSign(m: int, t: int)
    requires MonthlyCostOnSlider(m) && TeamSizeOnSlider(t)
    ensures m == 1000 ==> AnnualSavings(m, t) < 0
    ensures m >= 7000 ==> AnnualSavings(m, t) > 0
  {
  }

  /** The initial inputs are on the sliders and show a negative saving of
      648: the estimate's floor, 5054, is above the default cost of 5000. */
  lemma DefaultsShowALoss()
    ensures TeamSizeOnSlider(DefaultTeamSize) && MonthlyCostOnSlider(DefaultMonthlyCost)
    ensures EstimatedMonthlyCost(DefaultTeamSize) == 5054
    ensures AnnualSavings(DefaultMonthlyCost, DefaultTeamSize) == -648
  {
  }
}
