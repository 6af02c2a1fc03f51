/** The onboarding wizard's session state (app.py, `setup_session_state` and
    the Next/Back handlers of `onboarding_step_1` to `onboarding_step_3`):
    the current step, the user-profile dict that steps 1 and 3 merge fields
    into, and the services dict that step 2 replaces. The values the widgets
    return are parameters of the handlers. */
module Onboarding {
  import opened BudgetTables
  import opened BudgetAllocator

  /** A value stored in the user-profile dict. */
  datatype ProfileValue = Amount(amount: real) | Text(text: string) | GoalList(goals: seq<Goal>)

  /** The user-profile dict, keyed by field name. */
  type UserProfile = map<string, ProfileValue>

  /** Step 1's fields merged into the profile: the four fields are set, and
      every other key keeps its value. */
  function WithBasics(profile: UserProfile, monthlyBudget: real, metroArea: string,
                      housing: string, yearInSchool: string): (r: UserProfile)
    ensures profile.Keys <= r.Keys
    ensures forall k :: k in r && k !in profile ==>
      k == "monthly_budget" || k == "metro_area" || k == "housing" || k == "year_in_school"
    ensures "monthly_budget" in r && r["monthly_budget"] == Amount(monthlyBudget)
    ensures "metro_area" in r && r["metro_area"] == Text(metroArea)
    ensures "housing" in r && r["housing"] == Text(housing)
    ensures "year_in_school" in r && r["year_in_school"] == Text(yearInSchool)
    ensures forall k :: (k in profile && k != "monthly_budget" && k != "metro_area"
                         && k != "housing" && k != "year_in_school") ==> r[k] == profile[k]
  {
    profile + map["monthly_budget" := Amount(monthlyBudget), "metro_area" := Text(metroArea),
                  "housing" := Text(housing), "year_in_school" := Text(yearInSchool)]
  }

  /** Step 3's fields merged into the profile. */
  function WithPreferences(profile: UserProfile, goals: seq<Goal>, riskTolerance: string,
                           spendingStyle: string): (r: UserProfile)
    ensures profile.Keys <= r.Keys
    ensures forall k :: k in r && k !in profile ==>
      k == "goals" || k == "risk_tolerance" || k == "spending_style"
    ensures "goals" in r && r["goals"] == GoalList(goals)
    ensures "risk_tolerance" in r && r["risk_tolerance"] == Text(riskTolerance)
    ensures "spending_style" in r && r["spending_style"] == Text(spendingStyle)
    ensures forall k :: (k in profile && k != "goals" && k != "risk_tolerance"
                         && k != "spending_style") ==> r[k] == profile[k]
  {
    profile + map["goals" := GoalList(goals), "risk_tolerance" := Text(riskTolerance),
                  "spending_style" := Text(spendingStyle)]
  }

  /** What the allocator reads from the profile dict: the monthly budget and
      metro area, which must be present, and the goals, which default to
      none. */
  function AllocatorProfile(profile: UserProfile): (r: Option<Profile>)
    ensures r.Some? <==> "monthly_budget" in profile && profile["monthly_budget"].Amount?
                         && "metro_area" in profile && profile["metro_area"].Text?
    ensures r.Some? ==> r.value.monthlyBudget == profile["monthly_budget"].amount
                        && r.value.metroArea == profile["metro_area"].text
    ensures r.Some? && "goals" !in profile ==> r.value.goals == []
    ensures r.Some? && "goals" in profile && profile["goals"].GoalList? ==> r.value.goals == profile["goals"].goals
  {
    if "monthly_budget" in profile && profile["monthly_budget"].Amount?
       && "metro_area" in profile && profile["metro_area"].Text?
    then
      var goals := if "goals" in profile && profile["goals"].GoalList? then profile["goals"].goals else [];
      Some(Profile(profile["monthly_budget"].amount, profile["metro_area"].text, goals))
    else None
  }

  /** After step 1 the allocator can read the profile: it sees the entered
      budget and area and whatever goals the profile already held. */
  lemma BasicsMakeProfileReadable(profile: UserProfile, monthlyBudget: real, metroArea: string,
                                  housing: string, yearInSchool: string)
    ensures var r := WithBasics(profile, monthlyBudget, metroArea, housing, yearInSchool);
      && AllocatorProfile(r).Some?
      && AllocatorProfile(r).value.monthlyBudget == monthlyBudget
      && AllocatorProfile(r).value.metroArea == metroArea
      && (AllocatorProfile(profile).Some? ==> AllocatorProfile(r).value.goals == AllocatorProfile(profile).value.goals)
  {
  }

  /** Step 3 changes only the goals the allocator sees. */
  lemma PreferencesSetGoals(profile: UserProfile, goals: seq<Goal>, riskTolerance: string, spendingStyle: string)
    requires AllocatorProfile(profile).Some?
    ensures AllocatorProfile(WithPreferences(profile, goals, riskTolerance, spendingStyle))
      == Some(AllocatorProfile(profile).value.(goals := goals))
  {
  }

  /** The session record of one user. */
  class Session {
    var onboardingStep: int
    var userProfile: UserProfile
    var schoolServices: Selections

    /** The wizard is always on one of its four steps. */
    ghost predicate Valid()
      reads this
    {
      1 <= onboardingStep <= 4
    }

    /** A fresh session: step 1, empty profile, no services. */
    constructor ()
      ensures Valid()
      ensures onboardingStep == 1 && userProfile == map[] && schoolServices == []
    {
      onboardingStep := 1;
      userProfile := map[];
      schoolServices := [];
    }

    /** Step 1, "Next": merge the basic fields and go to step 2. */
    method SubmitBasics(monthlyBudget: real, metroArea: string, housing: string, yearInSchool: string)
      requires Valid() && onboardingStep == 1
      modifies this
      ensures Valid() && onboardingStep == 2
      ensures userProfile == WithBasics(old(userProfile), monthlyBudget, metroArea, housing, yearInSchool)
      ensures schoolServices == old(schoolServices)
    {
      userProfile := WithBasics(userProfile, monthlyBudget, metroArea, housing, yearInSchool);
      onboardingStep := 2;
    }

    /** Step 2, "Back": return to step 1, keeping everything entered. */
    method BackToBasics()
      requires Valid() && onboardingStep == 2
      modifies this
      ensures Valid() && onboardingStep == 1
      ensures userProfile == old(userProfile) && schoolServices == old(schoolServices)
    {
      onboardingStep := 1;
    }

    /** Step 2, "Next": replace the services dict wholesale and go to step 3. */
    method SubmitServices(services: Selections)
      requires Valid() && onboardingStep == 2
      modifies this
      ensures Valid() && onboardingStep == 3
      ensures schoolServices == services && userProfile == old(userProfile)
    {
      schoolServices := services;
      onboardingStep := 3;
    }

    /** Step 3, "Back": return to step 2, keeping everything entered. */
    method BackToServices()
      requires Valid() && onboardingStep == 3
      modifies this
      ensures Valid() && onboardingStep == 2
      ensures userProfile == old(userProfile) && schoolServices == old(schoolServices)
    {
      onboardingStep := 2;
    }

    /** Step 3, "Complete Setup": merge the preference fields and go to step 4. */
    method CompleteSetup(goals: seq<Goal>, riskTolerance: string, spendingStyle: string)
      requires Valid() && onboardingStep == 3
      modifies this
      ensures Valid() && onboardingStep == 4
      ensures userProfile == WithPreferences(old(userProfile), goals, riskTolerance, spendingStyle)
      ensures schoolServices == old(schoolServices)
    {
      userProfile := WithPreferences(userProfile, goals, riskTolerance, spendingStyle);
      onboardingStep := 4;
    }
  }

  /** The whole wizard from a fresh session, with one trip back from step 3:
      it ends on step 4 with the services of the last step-2 submission and a
      profile from which the allocator reads exactly the entered budget, area
      and goals. */
  method WalkThrough(monthlyBudget: real, metroArea: string, housing: string, yearInSchool: string,
                     firstServices: Selections, services: Selections,
                     goals: seq<Goal>, riskTolerance: string, spendingStyle: string)
    returns (session: Session)
    ensures fresh(session) && session.Valid() && session.onboardingStep == 4
    ensures session.schoolServices == services
    ensures AllocatorProfile(session.userProfile) == Some(Profile(monthlyBudget, metroArea, goals))
  {
    session := new Session();
    session.SubmitBasics(monthlyBudget, metroArea, housing, yearInSchool);
    session.SubmitServices(firstServices);
    session.BackToServices();
    session.SubmitServices(services);
    BasicsMakeProfileReadable(map[], monthlyBudget, metroArea, housing, yearInSchool);
    PreferencesSetGoals(session.userProfile, goals, riskTolerance, spendingStyle);
    session.CompleteSetup(goals, riskTolerance, spendingStyle);
  }
}
