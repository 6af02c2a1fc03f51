/** What the budget allocator promises: metro scaling, the per-category
    floor and its independence from the order of the services, the nominal
    savings total, the surplus rule, the goal shares, and the bounds of the
    result. */
module BudgetProperties {
  import opened BudgetTables
  import opened BudgetAllocator

  // ---------------------------------------------------------------------
  // Metro scaling

  /** Rent, food, transportation and entertainment are the base amount times
      the multiplier; every other category keeps its base amount; so the
      scaled table totals 1400 m + 700, and a multiplier of 1.0 leaves the
      base table as it is. */
  lemma MetroScaling(m: real)
    ensures ScaledBudget(m)[Rent] == 800.0 * m && ScaledBudget(m)[Food] == 350.0 * m
    ensures ScaledBudget(m)[Transportation] == 150.0 * m && ScaledBudget(m)[Entertainment] == 100.0 * m
    ensures forall c :: c !in CostSensitive ==> ScaledBudget(m)[c] == BaseAmount(c)
    ensures Total(ScaledBudget(m)) == 1400.0 * m + 700.0
    ensures m == 1.0 ==> forall c :: ScaledBudget(m)[c] == BaseAmount(c)
  {
    BaseBudgetShape(Rent);
  }

  // ---------------------------------------------------------------------
  // Savings: sums over the selections

  lemma {:induction false} CategorySavingsAppend(s: Selections, t: Selections, c: Category)
    ensures CategorySavings(s + t, c) == CategorySavings(s, c) + CategorySavings(t, c)
    decreases |t|
  {
    if t == [] {
      assert s + t == s;
    } else {
      CategorySavingsAppend(s, t[..|t| - 1], c);
      assert (s + t)[..|s + t| - 1] == s + t[..|t| - 1];
    }
  }

  lemma {:induction false} NominalSavingsAppend(s: Selections, t: Selections)
    ensures NominalSavings(s + t) == NominalSavings(s) + NominalSavings(t)
    decreases |t|
  {
    if t == [] {
      assert s + t == s;
    } else {
      NominalSavingsAppend(s, t[..|t| - 1]);
      assert (s + t)[..|s + t| - 1] == s + t[..|t| - 1];
    }
  }

  /** Taking one entry out of the selections takes its saving out of its
      category's total. */
  lemma CategorySavingsRemove(t: Selections, j: nat, c: Category)
    requires j < |t|
    ensures CategorySavings(t, c) == CategorySavings(t[..j] + t[j + 1..], c) + SavingTo(t[j], c)
  {
    assert t == t[..j] + ([t[j]] + t[j + 1..]);
    CategorySavingsAppend(t[..j], [t[j]] + t[j + 1..], c);
    CategorySavingsAppend([t[j]], t[j + 1..], c);
    CategorySavingsAppend(t[..j], t[j + 1..], c);
    assert [t[j]][..0] == [];
  }

  lemma MultisetRemoveLast(s: Selections, t: Selections) returns (j: nat)
    requires s != [] && multiset(s) == multiset(t)
    ensures j < |t| && t[j] == s[|s| - 1]
    ensures multiset(s[..|s| - 1]) == multiset(t[..j] + t[j + 1..])
  {
    var last := s[|s| - 1];
    assert s == s[..|s| - 1] + [last];
    assert last in multiset(t);
    j :| 0 <= j < |t| && t[j] == last;
    assert t == t[..j] + [last] + t[j + 1..];
    calc {
      multiset(s[..|s| - 1]);
      multiset(s) - multiset{last};
      multiset(t) - multiset{last};
      multiset(t[..j] + t[j + 1..]);
    }
  }

  /** Per-category savings do not depend on the order of the selections. */
  lemma {:induction false} CategorySavingsPermutation(s: Selections, t: Selections, c: Category)
    requires multiset(s) == multiset(t)
    ensures CategorySavings(s, c) == CategorySavings(t, c)
    decreases |s|
  {
    if s == [] {
      assert |t| == |multiset(t)| == 0;
    } else {
      var j := MultisetRemoveLast(s, t);
      CategorySavingsPermutation(s[..|s| - 1], t[..j] + t[j + 1..], c);
      CategorySavingsRemove(t, j, c);
    }
  }

  /** An item's saving spread over the categories. */
  function Spread(item: (ServiceId, bool)): (r: Breakdown)
    ensures Complete(r)
  {
    CategorySetComplete();
    map c | c in CategorySet :: SavingTo(item, c)
  }

  /** Every catalog service relieves exactly one category, so spreading an
      item's saving over the categories loses and duplicates nothing. */
  lemma SavingLandsOnce(item: (ServiceId, bool))
    ensures Total(Spread(item)) == Saving(item)
  {
    CategorySetComplete();
  }

  lemma SavingsByCategoryStep(s: Selections)
    requires s != []
    ensures Total(SavingsByCategory(s)) == Total(SavingsByCategory(s[..|s| - 1])) + Total(Spread(s[|s| - 1]))
  {
    CategorySetComplete();
  }

  /** The nominal savings are the per-category savings added up. */
  lemma {:induction false} NominalSplitsByCategory(s: Selections)
    ensures NominalSavings(s) == Total(SavingsByCategory(s))
    decreases |s|
  {
    if s == [] {
      CategorySetComplete();
    } else {
      NominalSplitsByCategory(s[..|s| - 1]);
      SavingLandsOnce(s[|s| - 1]);
      SavingsByCategoryStep(s);
    }
  }

  // ---------------------------------------------------------------------
  // The per-category floor

  /** The savings loop floors at zero after every service; since every saving
      is non-negative, that is the same as flooring once, after subtracting
      all of the category's savings. */
  lemma {:induction false} SavingsFloor(b: Breakdown, s: Selections, c: Category)
    requires c in b && b[c] >= 0.0
    ensures ApplySavings(b, s)[c] == Max0(b[c] - CategorySavings(s, c))
    decreases |s|
  {
    if s != [] {
      SavingsFloor(b, s[..|s| - 1], c);
      CatalogShape(s[|s| - 1].0);
    }
  }

  /** After savings, each category is max(0, scaled amount - the savings of
      the enabled catalog services mapped to it), and so never negative. */
  lemma PostSavingsFloor(m: real, s: Selections, c: Category)
    requires m >= 0.0
    ensures PostSavings(m, s)[c] == Max0(ScaledBudget(m)[c] - CategorySavings(s, c))
    ensures 0.0 <= PostSavings(m, s)[c] <= ScaledBudget(m)[c]
  {
    ScaledNonNegative(m, c);
    SavingsFloor(ScaledBudget(m), s, c);
  }

  lemma ScaledNonNegative(m: real, c: Category)
    requires m >= 0.0
    ensures c in ScaledBudget(m) && ScaledBudget(m)[c] >= 0.0
  {
    BaseBudgetShape(c);
    if c in CostSensitive {
      assert BaseAmount(c) * m >= 0.0;
    }
  }

  /** Iterating the services dict in any order gives the same breakdown... */
  lemma PostSavingsPermutation(m: real, s: Selections, t: Selections)
    requires m >= 0.0
    requires multiset(s) == multiset(t)
    ensures PostSavings(m, s) == PostSavings(m, t)
  {
    forall c: Category ensures PostSavings(m, s)[c] == PostSavings(m, t)[c] {
      PostSavingsFloor(m, s, c);
      PostSavingsFloor(m, t, c);
      CategorySavingsPermutation(s, t, c);
    }
  }

  /** ... and the same nominal savings. */
  lemma NominalSavingsPermutation(s: Selections, t: Selections)
    requires multiset(s) == multiset(t)
    ensures NominalSavings(s) == NominalSavings(t)
  {
    forall c: Category ensures SavingsByCategory(s)[c] == SavingsByCategory(t)[c] {
      CategorySavingsPermutation(s, t, c);
    }
    NominalSplitsByCategory(s);
    NominalSplitsByCategory(t);
  }

  /** The enabled catalog entries of the selections, in order. */
  function Applied(s: Selections): Selections
    decreases |s|
  {
    if s == [] then []
    else if s[|s| - 1].1 && Catalog(s[|s| - 1].0).Some? then Applied(s[..|s| - 1]) + [s[|s| - 1]]
    else Applied(s[..|s| - 1])
  }

  /** Services set to false, and ids the catalog does not list, contribute
      nothing: dropping them changes neither the breakdown... */
  lemma OnlyEnabledCatalogServicesCount(m: real, s: Selections)
    requires m >= 0.0
    ensures PostSavings(m, Applied(s)) == PostSavings(m, s)
  {
    forall c: Category ensures PostSavings(m, Applied(s))[c] == PostSavings(m, s)[c] {
      AppliedSavingsTo(s, c);
      PostSavingsFloor(m, s, c);
      PostSavingsFloor(m, Applied(s), c);
    }
  }

  lemma CategorySavingsSnoc(s: Selections, item: (ServiceId, bool), c: Category)
    ensures CategorySavings(s + [item], c) == CategorySavings(s, c) + SavingTo(item, c)
  {
    assert (s + [item])[..|s|] == s;
  }

  lemma {:induction false} AppliedSavingsTo(s: Selections, c: Category)
    ensures CategorySavings(Applied(s), c) == CategorySavings(s, c)
    decreases |s|
  {
    if s != [] {
      var init, last := s[..|s| - 1], s[|s| - 1];
      AppliedSavingsTo(init, c);
      assert CategorySavings(s, c) == CategorySavings(init, c) + SavingTo(last, c);
      if last.1 && Catalog(last.0).Some? {
        CategorySavingsSnoc(Applied(init), last, c);
      } else {
        assert Applied(s) == Applied(init) && SavingTo(last, c) == 0.0;
      }
    }
  }

  /** ... nor the nominal savings. */
  lemma NominalSavingsSnoc(s: Selections, item: (ServiceId, bool))
    ensures NominalSavings(s + [item]) == NominalSavings(s) + Saving(item)
  {
    assert (s + [item])[..|s|] == s;
  }

  lemma {:induction false} AppliedNominal(s: Selections)
    ensures NominalSavings(Applied(s)) == NominalSavings(s)
    decreases |s|
  {
    if s != [] {
      var init, last := s[..|s| - 1], s[|s| - 1];
      AppliedNominal(init);
      if last.1 && Catalog(last.0).Some? {
        NominalSavingsSnoc(Applied(init), last);
      }
    }
  }

  /** The nominal savings bound what the savings actually took off: the
      post-savings total lies between the scaled total minus the nominal
      savings and the scaled total, and meets the lower bound when no
      category hit its floor. */
  lemma SavingsAccounting(m: real, s: Selections)
    requires m >= 0.0
    ensures Total(ScaledBudget(m)) - NominalSavings(s) <= Total(PostSavings(m, s)) <= Total(ScaledBudget(m))
    ensures (forall c :: CategorySavings(s, c) <= ScaledBudget(m)[c]) ==>
      Total(PostSavings(m, s)) == Total(ScaledBudget(m)) - NominalSavings(s)
  {
    NominalSplitsByCategory(s);
    PostSavingsEntrywise(m, s);
    FloorTotals(ScaledBudget(m), SavingsByCategory(s), PostSavings(m, s));
  }

  lemma PostSavingsEntrywise(m: real, s: Selections)
    requires m >= 0.0
    ensures forall c :: PostSavings(m, s)[c] == Max0(ScaledBudget(m)[c] - SavingsByCategory(s)[c])
    ensures forall c :: PostSavings(m, s)[c] <= ScaledBudget(m)[c]
  {
    forall c: Category
      ensures PostSavings(m, s)[c] == Max0(ScaledBudget(m)[c] - SavingsByCategory(s)[c])
      ensures PostSavings(m, s)[c] <= ScaledBudget(m)[c]
    {
      PostSavingsFloor(m, s, c);
    }
  }

  /** Flooring each entry of `b - sav` at zero, where no entry of the result
      exceeds `b`, gives a total between the totals' difference and the
      total of `b`, and exactly the difference when nothing is floored. */
  lemma FloorTotals(b: Breakdown, sav: Breakdown, post: Breakdown)
    requires Complete(b) && Complete(sav) && Complete(post)
    requires forall c :: post[c] == Max0(b[c] - sav[c]) && post[c] <= b[c]
    ensures Total(b) - Total(sav) <= Total(post) <= Total(b)
    ensures (forall c :: sav[c] <= b[c]) ==> Total(post) == Total(b) - Total(sav)
  {
  }

  // ---------------------------------------------------------------------
  // Surplus, goal shares and the result

  /** The surplus is the monthly budget minus the post-savings total; when it
      is not positive the breakdown is exactly the post-savings breakdown. */
  lemma SurplusRule(p: Profile, s: Selections)
    requires p.metroArea in MetroMultipliers
    ensures Allocate(p, s).surplus == p.monthlyBudget - Total(PostSavings(MetroMultipliers[p.metroArea], s))
    ensures Allocate(p, s).surplus <= 0.0 ==> Allocate(p, s).breakdown == PostSavings(MetroMultipliers[p.metroArea], s)
  {
  }

  /** A positive surplus tops up the emergency fund by exactly 40% of it
      if and only if that goal is chosen, investments by 30% if and only if
      investing is, entertainment by 30% if and only if travel is, and leaves
      every other category as it was. */
  lemma ReallocateShares(b: Breakdown, surplus: real, goals: seq<Goal>)
    requires Complete(b) && surplus > 0.0
    ensures var r := Reallocate(b, surplus, goals);
      && (r[EmergencyFund] == b[EmergencyFund] + 0.4 * surplus <==> EmergencyFundGoal in goals)
      && (r[EmergencyFund] == b[EmergencyFund] <==> EmergencyFundGoal !in goals)
      && (r[Investments] == b[Investments] + 0.3 * surplus <==> Investing in goals)
      && (r[Investments] == b[Investments] <==> Investing !in goals)
      && (r[Entertainment] == b[Entertainment] + 0.3 * surplus <==> Travel in goals)
      && (r[Entertainment] == b[Entertainment] <==> Travel !in goals)
      && (forall c :: c != EmergencyFund && c != Investments && c != Entertainment ==> r[c] == b[c])
  {
  }

  /** The same, for the allocator's result against its post-savings breakdown. */
  lemma GoalReallocation(p: Profile, s: Selections)
    requires p.metroArea in MetroMultipliers
    requires Allocate(p, s).surplus > 0.0
    ensures var post, r := PostSavings(MetroMultipliers[p.metroArea], s), Allocate(p, s);
      && (r.breakdown[EmergencyFund] == post[EmergencyFund] + 0.4 * r.surplus <==> EmergencyFundGoal in p.goals)
      && (r.breakdown[EmergencyFund] == post[EmergencyFund] <==> EmergencyFundGoal !in p.goals)
      && (r.breakdown[Investments] == post[Investments] + 0.3 * r.surplus <==> Investing in p.goals)
      && (r.breakdown[Investments] == post[Investments] <==> Investing !in p.goals)
      && (r.breakdown[Entertainment] == post[Entertainment] + 0.3 * r.surplus <==> Travel in p.goals)
      && (r.breakdown[Entertainment] == post[Entertainment] <==> Travel !in p.goals)
      && (forall c :: c != EmergencyFund && c != Investments && c != Entertainment ==> r.breakdown[c] == post[c])
  {
    var post := PostSavings(MetroMultipliers[p.metroArea], s);
    assert Allocate(p, s).breakdown == Reallocate(post, Allocate(p, s).surplus, p.goals);
    ReallocateShares(post, Allocate(p, s).surplus, p.goals);
  }

  /** Only the emergency-fund, investing and travel goals matter: goal lists
      that agree on those three give the same result, whatever else they
      hold and in whatever order. */
  lemma OtherGoalsIgnored(p: Profile, s: Selections, goals: seq<Goal>)
    requires p.metroArea in MetroMultipliers
    requires (EmergencyFundGoal in goals <==> EmergencyFundGoal in p.goals)
    requires (Investing in goals <==> Investing in p.goals)
    requires (Travel in goals <==> Travel in p.goals)
    ensures Allocate(p.(goals := goals), s) == Allocate(p, s)
  {
  }

  /** Every final entry is non-negative, and the headline figures are the
      matching breakdown entries, the stated budget and the nominal savings. */
  lemma AllocationConsistent(p: Profile, s: Selections)
    requires p.metroArea in MetroMultipliers
    ensures forall c :: Allocate(p, s).breakdown[c] >= 0.0
    ensures Allocate(p, s).totalBudget == p.monthlyBudget
    ensures Allocate(p, s).emergencyFund == Allocate(p, s).breakdown[EmergencyFund]
    ensures Allocate(p, s).investmentBudget == Allocate(p, s).breakdown[Investments]
    ensures Allocate(p, s).schoolSavings == NominalSavings(s)
  {
    var m := MetroMultipliers[p.metroArea];
    MultipliersPositive();
    forall c: Category ensures PostSavings(m, s)[c] >= 0.0 {
      PostSavingsFloor(m, s, c);
    }
  }

  /** The share of a surplus the goals take, term by term. */
  lemma ShareOfSurplus(goals: seq<Goal>, surplus: real)
    ensures GoalShare(goals) * surplus
      == (if EmergencyFundGoal in goals then 0.4 * surplus else 0.0)
       + (if Investing in goals then 0.3 * surplus else 0.0)
       + (if Travel in goals then 0.3 * surplus else 0.0)
  {
    var ef := if EmergencyFundGoal in goals then 0.4 else 0.0;
    var inv := if Investing in goals then 0.3 else 0.0;
    var tr := if Travel in goals then 0.3 else 0.0;
    assert GoalShare(goals) * surplus == ef * surplus + inv * surplus + tr * surplus;
  }

  /** Topping up a breakdown by a positive surplus adds the chosen goals'
      share of it to the total: never more than the surplus, and all of it
      exactly when all three share-taking goals are chosen (the shares of
      unchosen goals are not handed to the others). */
  lemma ReallocateTotal(b: Breakdown, surplus: real, goals: seq<Goal>)
    requires Complete(b) && surplus > 0.0
    ensures Total(Reallocate(b, surplus, goals)) == Total(b) + GoalShare(goals) * surplus
    ensures Total(Reallocate(b, surplus, goals)) <= Total(b) + surplus
    ensures Total(Reallocate(b, surplus, goals)) == Total(b) + surplus
      <==> EmergencyFundGoal in goals && Investing in goals && Travel in goals
  {
    ShareOfSurplus(goals, surplus);
  }

  /** With a positive surplus, the final total never exceeds the monthly budget,
      and uses all of it exactly when the emergency-fund, investing and
      travel goals are all chosen. */
  lemma SurplusBounds(p: Profile, s: Selections)
    requires p.metroArea in MetroMultipliers
    requires Allocate(p, s).surplus > 0.0
    ensures Total(Allocate(p, s).breakdown) <= p.monthlyBudget
    ensures Total(Allocate(p, s).breakdown) == p.monthlyBudget
      <==> EmergencyFundGoal in p.goals && Investing in p.goals && Travel in p.goals
  {
    var post := PostSavings(MetroMultipliers[p.metroArea], s);
    ReallocateTotal(post, Allocate(p, s).surplus, p.goals);
  }

  /** The whole result, not only its breakdown, is the same for every
      iteration order of the services dict. */
  lemma AllocatePermutation(p: Profile, s: Selections, t: Selections)
    requires p.metroArea in MetroMultipliers
    requires multiset(s) == multiset(t)
    ensures Allocate(p, s) == Allocate(p, t)
  {
    MultipliersPositive();
    PostSavingsPermutation(MetroMultipliers[p.metroArea], s, t);
    NominalSavingsPermutation(s, t);
  }

  /** A Chicago student (multiplier 1.2) with a 1500-dollar budget, the
      emergency-fund goal and only the campus gym: the gym zeroes fitness,
      the pre-surplus total is 2330, the surplus is -830 and nothing is
      reallocated. */
  lemma ChicagoGymScenario()
    ensures "Chicago, IL" in MetroMultipliers
    ensures var r := Allocate(Profile(1500.0, "Chicago, IL", [EmergencyFundGoal]), [(Gym, true)]);
      && r.breakdown[Rent] == 960.0 && r.breakdown[Food] == 420.0
      && r.breakdown[Transportation] == 180.0 && r.breakdown[Entertainment] == 120.0
      && r.breakdown[Fitness] == 0.0 && r.breakdown[Healthcare] == 100.0
      && r.breakdown[Technology] == 80.0 && r.breakdown[Academic] == 150.0
      && r.breakdown[PersonalCare] == 50.0 && r.breakdown[Utilities] == 120.0
      && r.breakdown[EmergencyFund] == 100.0 && r.breakdown[Investments] == 50.0
      && r.schoolSavings == 50.0 && r.surplus == -830.0 && r.emergencyFund == 100.0
      && r.totalBudget == 1500.0
  {
    ChicagoGymPostSavings();
  }

  lemma ChicagoGymPostSavings()
    ensures PostSavings(1.2, [(Gym, true)]) == ScaledBudget(1.2)[Fitness := 0.0]
    ensures Total(PostSavings(1.2, [(Gym, true)])) == 2330.0
    ensures ScaledBudget(1.2)[Rent] == 960.0 && ScaledBudget(1.2)[Food] == 420.0
    ensures ScaledBudget(1.2)[Transportation] == 180.0 && ScaledBudget(1.2)[Entertainment] == 120.0
    ensures forall c :: c !in CostSensitive ==> ScaledBudget(1.2)[c] == BaseAmount(c)
  {
    var s: Selections := [(Gym, true)];
    assert s[..0] == [];
    MetroScaling(1.2);
  }
}
