/** The budget allocator of the planner (app.py, `calculate_optimized_budget`
    and `calculate_school_savings`).

    One deterministic pass over the twelve categories: scale the four
    cost-sensitive categories by the metro multiplier, subtract the saving of
    every enabled catalog service from its category (floored at zero), add up
    the nominal savings, compute the surplus against the monthly budget and,
    when it is positive, give fixed shares of it to the categories the user's
    goals pick. `Allocate` is the specification of that pass;
    `CalculateOptimizedBudget` is the pass itself, with its dict built in one
    loop and changed in place in another, and is proved equal to it. */
module BudgetAllocator {
  import opened BudgetTables

  /** The goals offered at onboarding. */
  datatype Goal = EmergencyFundGoal | Investing | Travel | PostGrad | Loans | Survival

  /** The parts of the user profile that the allocator reads. */
  datatype Profile = Profile(monthlyBudget: real, metroArea: string, goals: seq<Goal>)

  /** The session's service selections: the items of the id-to-availability
      dict, in its iteration order. */
  type Selections = seq<(ServiceId, bool)>

  /** A per-category amount table. */
  type Breakdown = map<Category, real>

  /** What the allocator returns. */
  datatype BudgetData = BudgetData(
    breakdown: Breakdown,
    totalBudget: real,
    schoolSavings: real,
    emergencyFund: real,
    investmentBudget: real,
    surplus: real)

  /** The breakdown has an entry for every category. */
  ghost predicate Complete(b: Breakdown) {
    forall c: Category :: c in b
  }

  /** The sum of a complete breakdown's entries. */
  function Total(b: Breakdown): real
    requires Complete(b)
  {
    b[Rent] + b[Food] + b[Transportation] + b[Healthcare] + b[Technology] + b[Academic]
    + b[Fitness] + b[Entertainment] + b[PersonalCare] + b[Utilities] + b[EmergencyFund] + b[Investments]
  }

  /** `max(0, x)`. */
  function Max0(x: real): real {
    if x > 0.0 then x else 0.0
  }

  // ---------------------------------------------------------------------
  // Step 1: cost-of-living scaling

  /** The base table with the cost-sensitive categories scaled by `m`. */
  function ScaledBudget(m: real): (r: Breakdown)
    ensures Complete(r)
  {
    CategorySetComplete();
    map c | c in CategorySet :: if c in CostSensitive then BaseAmount(c) * m else BaseAmount(c)
  }

  // ---------------------------------------------------------------------
  // Steps 2 and 3: school-service savings

  /** The saving one selections item is worth: its catalog saving when it is
      enabled and listed, nothing otherwise. */
  function Saving(item: (ServiceId, bool)): real {
    if item.1 && Catalog(item.0).Some? then Catalog(item.0).value.savings else 0.0
  }

  /** The saving one selections item applies to category `c`. */
  function SavingTo(item: (ServiceId, bool), c: Category): real {
    if item.1 && Catalog(item.0).Some? && Catalog(item.0).value.category == c
    then Catalog(item.0).value.savings
    else 0.0
  }

  /** The nominal (unfloored) savings of the selections. */
  function NominalSavings(s: Selections): (r: real)
    ensures r >= 0.0
    decreases |s|
  {
    if s == [] then 0.0
    else
      CatalogShape(s[|s| - 1].0);
      NominalSavings(s[..|s| - 1]) + Saving(s[|s| - 1])
  }

  /** The nominal savings the selections apply to category `c`. */
  function CategorySavings(s: Selections, c: Category): (r: real)
    ensures r >= 0.0
    decreases |s|
  {
    if s == [] then 0.0
    else
      CatalogShape(s[|s| - 1].0);
      CategorySavings(s[..|s| - 1], c) + SavingTo(s[|s| - 1], c)
  }

  /** The savings per category, as a breakdown. */
  function SavingsByCategory(s: Selections): (r: Breakdown)
    ensures Complete(r)
  {
    CategorySetComplete();
    map c | c in CategorySet :: CategorySavings(s, c)
  }

  /** One step of the savings loop: an enabled catalog service lowers its
      category by its saving, but not below zero. */
  function ApplyService(b: Breakdown, item: (ServiceId, bool)): (r: Breakdown)
    ensures r.Keys == b.Keys
  {
    if item.1 && Catalog(item.0).Some? && Catalog(item.0).value.category in b then
      var e := Catalog(item.0).value;
      b[e.category := Max0(b[e.category] - e.savings)]
    else b
  }

  /** The savings loop over all of the selections, in their order. */
  function ApplySavings(b: Breakdown, s: Selections): (r: Breakdown)
    ensures r.Keys == b.Keys
    decreases |s|
  {
    if s == [] then b else ApplyService(ApplySavings(b, s[..|s| - 1]), s[|s| - 1])
  }

  /** The breakdown after scaling by `m` and applying the savings. */
  function PostSavings(m: real, s: Selections): (r: Breakdown)
    ensures Complete(r)
  {
    ApplySavings(ScaledBudget(m), s)
  }

  // ---------------------------------------------------------------------
  // Steps 4 and 5: surplus and goal reallocation

  /** Shares of a positive surplus: 40% to the emergency fund, 30% to
      investments, 30% to entertainment, each only for its goal. */
  function Reallocate(b: Breakdown, surplus: real, goals: seq<Goal>): (r: Breakdown)
    requires Complete(b)
    ensures Complete(r)
  {
    var b1 := if EmergencyFundGoal in goals then b[EmergencyFund := b[EmergencyFund] + surplus * 0.4] else b;
    var b2 := if Investing in goals then b1[Investments := b1[Investments] + surplus * 0.3] else b1;
    if Travel in goals then b2[Entertainment := b2[Entertainment] + surplus * 0.3] else b2
  }

  /** The fraction of a positive surplus that the goals allocate. */
  function GoalShare(goals: seq<Goal>): (r: real)
    ensures 0.0 <= r <= 1.0
    ensures r == 1.0 <==> EmergencyFundGoal in goals && Investing in goals && Travel in goals
  {
    (if EmergencyFundGoal in goals then 0.4 else 0.0)
    + (if Investing in goals then 0.3 else 0.0)
    + (if Travel in goals then 0.3 else 0.0)
  }

  /** The allocator's result, as a function of the profile and selections. */
  function Allocate(p: Profile, s: Selections): (r: BudgetData)
    requires p.metroArea in MetroMultipliers
    ensures Complete(r.breakdown)
  {
    var post := PostSavings(MetroMultipliers[p.metroArea], s);
    var surplus := p.monthlyBudget - Total(post);
    var final := if surplus > 0.0 then Reallocate(post, surplus, p.goals) else post;
    BudgetData(final, p.monthlyBudget, NominalSavings(s), final[EmergencyFund], final[Investments], surplus)
  }

  // ---------------------------------------------------------------------
  // The two loops of the source

  /** Total monthly savings from the school services. */
  method CalculateSchoolSavings(services: Selections) returns (totalSavings: real)
    ensures totalSavings == NominalSavings(services)
  {
    totalSavings := 0.0;
    for i := 0 to |services|
      invariant totalSavings == NominalSavings(services[..i])
    {
      var (service, isAvailable) := services[i];
      if isAvailable && Catalog(service).Some? {
        totalSavings := totalSavings + Catalog(service).value.savings;
      }
      assert services[..i + 1][..i] == services[..i];
    }
    assert services[..|services|] == services;
  }

  /** The first loop of the budget pass: the adjusted dict, built category
      by category from the base table. */
  method ScaleBaseBudget(metroMultiplier: real) returns (adjusted: Breakdown)
    ensures adjusted == ScaledBudget(metroMultiplier)
  {
    adjusted := map[];
    for i := 0 to |AllCategories|
      invariant forall j :: 0 <= j < i ==> AllCategories[j] in adjusted
      invariant forall c :: c in adjusted ==>
        adjusted[c] == if c in CostSensitive then BaseAmount(c) * metroMultiplier else BaseAmount(c)
    {
      var category := AllCategories[i];
      if category in CostSensitive {
        adjusted := adjusted[category := BaseAmount(category) * metroMultiplier];
      } else {
        adjusted := adjusted[category := BaseAmount(category)];
      }
    }
    AllCategoriesListed();
    CategorySetComplete();
    forall c: Category ensures c in adjusted {
      assert c in AllCategories;
      var j :| 0 <= j < |AllCategories| && AllCategories[j] == c;
    }
  }

  /** The second loop of the budget pass: every enabled catalog service
      lowers its category in place, and its saving is added to the total. */
  method ApplySchoolSavings(scaled: Breakdown, services: Selections)
    returns (adjusted: Breakdown, totalSchoolSavings: real)
    ensures adjusted == ApplySavings(scaled, services)
    ensures totalSchoolSavings == NominalSavings(services)
  {
    adjusted := scaled;
    totalSchoolSavings := 0.0;
    for i := 0 to |services|
      invariant adjusted == ApplySavings(scaled, services[..i])
      invariant totalSchoolSavings == NominalSavings(services[..i])
    {
      var (service, isAvailable) := services[i];
      if isAvailable && Catalog(service).Some? {
        var info := Catalog(service).value;
        if info.category in adjusted {
          adjusted := adjusted[info.category := Max0(adjusted[info.category] - info.savings)];
        }
        totalSchoolSavings := totalSchoolSavings + info.savings;
      }
      assert services[..i + 1][..i] == services[..i];
    }
    assert services[..|services|] == services;
  }

  /** The last step of the budget pass: the `+=` top-ups of a positive
      surplus, one per goal. */
  method ReallocateSurplus(adjusted: Breakdown, surplus: real, goals: seq<Goal>) returns (result: Breakdown)
    requires Complete(adjusted)
    ensures result == Reallocate(adjusted, surplus, goals)
  {
    result := adjusted;
    if EmergencyFundGoal in goals {
      result := result[EmergencyFund := result[EmergencyFund] + surplus * 0.4];
    }
    if Investing in goals {
      result := result[Investments := result[Investments] + surplus * 0.3];
    }
    if Travel in goals {
      result := result[Entertainment := result[Entertainment] + surplus * 0.3];
    }
  }

  /** The budget pass: scale, apply the savings, and top up by goal. */
  method CalculateOptimizedBudget(profile: Profile, services: Selections) returns (r: BudgetData)
    requires profile.metroArea in MetroMultipliers
    ensures r == Allocate(profile, services)
  {
    var metroMultiplier := MetroMultipliers[profile.metroArea];
    var adjusted := ScaleBaseBudget(metroMultiplier);
    var totalSchoolSavings;
    adjusted, totalSchoolSavings := ApplySchoolSavings(adjusted, services);

    var surplus := profile.monthlyBudget - Total(adjusted);
    if surplus > 0.0 {
      adjusted := ReallocateSurplus(adjusted, surplus, profile.goals);
    }
    r := BudgetData(adjusted, profile.monthlyBudget, totalSchoolSavings,
                    adjusted[EmergencyFund], adjusted[Investments], surplus);
  }
}
