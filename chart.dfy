/** The display filter applied to the allocator's breakdown before it is
    charted (app.py, `create_budget_pie_chart`): categories of 20 dollars or
    less are left off the chart. The filter builds a new dict and leaves the
    breakdown it reads as it was. */
module BudgetChart {
  import opened BudgetTables
  import opened BudgetAllocator
  import BudgetProperties

  /** Only slices strictly above this many dollars are charted. */
  const DisplayThreshold: real := 20.0

  /** The charted slices: exactly the categories above the threshold, with
      their amounts unchanged. */
  function ChartSlices(breakdown: Breakdown): (r: Breakdown)
    ensures r.Keys <= breakdown.Keys
    ensures forall c :: c in r <==> c in breakdown && breakdown[c] > 20.0
    ensures forall c :: c in r ==> r[c] == breakdown[c]
  {
    map c | c in breakdown && breakdown[c] > DisplayThreshold :: breakdown[c]
  }

  /** Filtering twice charts the same slices as filtering once, and a
      breakdown with every entry above the threshold is charted whole. */
  lemma ChartSlicesIdempotent(breakdown: Breakdown)
    ensures ChartSlices(ChartSlices(breakdown)) == ChartSlices(breakdown)
    ensures (forall c :: c in breakdown ==> breakdown[c] > 20.0) ==> ChartSlices(breakdown) == breakdown
  {
  }

  /** A category at 15 dollars is left off the chart while every category
      above 20 stays on it; an all-zero budget charts nothing. */
  lemma SmallSliceScenario(breakdown: Breakdown)
    requires Complete(breakdown)
    requires breakdown[PersonalCare] == 15.0
    requires forall c :: c != PersonalCare ==> breakdown[c] > 20.0
    ensures ChartSlices(breakdown).Keys == CategorySet - {PersonalCare}
    ensures ChartSlices(map c | c in CategorySet :: 0.0) == map[]
  {
    CategorySetComplete();
    var zero := map c | c in CategorySet :: 0.0;
    assert ChartSlices(zero).Keys == {};
  }

  /** The chart of the Chicago gym scenario leaves off only fitness, which the
      gym brought down to zero. */
  lemma ChicagoGymChart()
    ensures "Chicago, IL" in MetroMultipliers
    ensures var b := Allocate(Profile(1500.0, "Chicago, IL", [EmergencyFundGoal]), [(Gym, true)]).breakdown;
      forall c :: c in ChartSlices(b) <==> c != Fitness
  {
    BudgetProperties.ChicagoGymScenario();
    var b := Allocate(Profile(1500.0, "Chicago, IL", [EmergencyFundGoal]), [(Gym, true)]).breakdown;
    forall c ensures c in ChartSlices(b) <==> c != Fitness {
      match c
      case Fitness =>
      case _ => assert b[c] > 20.0;
    }
  }
}
