/** Reference data of the college budget planner: the metro cost-of-living
    multipliers, the base monthly amount of each budget category, and the
    catalog of school-provided services with the category each one relieves
    and the flat monthly saving it is worth (app.py, `initialize_data`). */
module BudgetTables {

  datatype Option<T> = None | Some(value: T)

  /** The twelve budget categories: a closed set. */
  datatype Category =
    | Rent | Food | Transportation | Healthcare | Technology | Academic
    | Fitness | Entertainment | PersonalCare | Utilities | EmergencyFund | Investments

  /** The categories in the order of the base-budget table. */
  const AllCategories: seq<Category> :=
    [Rent, Food, Transportation, Healthcare, Technology, Academic,
     Fitness, Entertainment, PersonalCare, Utilities, EmergencyFund, Investments]

  /** The same categories, as a set. */
  const CategorySet: set<Category> :=
    {Rent, Food, Transportation, Healthcare, Technology, Academic,
     Fitness, Entertainment, PersonalCare, Utilities, EmergencyFund, Investments}

  /** The categories whose base amount is scaled by the metro multiplier. */
  const CostSensitive: set<Category> := {Rent, Food, Transportation, Entertainment}

  /** Base monthly amount, in dollars, of each category. */
  function BaseAmount(c: Category): real {
    match c
    case Rent => 800.0
    case Food => 350.0
    case Transportation => 150.0
    case Healthcare => 100.0
    case Technology => 80.0
    case Academic => 150.0
    case Fitness => 50.0
    case Entertainment => 100.0
    case PersonalCare => 50.0
    case Utilities => 120.0
    case EmergencyFund => 100.0
    case Investments => 50.0
  }

  /** Cost-of-living multiplier of each metro area offered to the user. */
  const MetroMultipliers: map<string, real> :=
    map["New York, NY" := 1.8, "San Francisco, CA" := 2.0, "Los Angeles, CA" := 1.6,
        "Boston, MA" := 1.5, "Washington, DC" := 1.4, "Seattle, WA" := 1.4,
        "Chicago, IL" := 1.2, "Miami, FL" := 1.1, "Denver, CO" := 1.1,
        "Atlanta, GA" := 1.0, "Dallas, TX" := 0.9, "Houston, TX" := 0.9,
        "Phoenix, AZ" := 0.9, "Philadelphia, PA" := 1.1, "Other/Small City" := 0.8]

  /** Service identifiers: the ten catalog entries, and any other id the
      session may hold (the onboarding form also records `campus_dining`
      and `transit_discount`, which the catalog does not list). A dict key
      that names a catalog entry is always its own constructor, never
      `Unlisted`: `ServiceIdOf` is the only way a key becomes an id. */
  datatype ServiceId =
    | HealthCenter | Counseling | Gym | MealPlanRequired | MealPlanOptional
    | CampusShuttle | FreeParking | FreeSoftware | ComputerLabs | TextbookProgram
    | Unlisted(name: string)

  /** What a catalog service relieves: one category, by a flat monthly saving. */
  datatype CatalogEntry = CatalogEntry(category: Category, savings: real)

  /** The service catalog: `None` for an id it does not list. */
  function Catalog(id: ServiceId): Option<CatalogEntry> {
    match id
    case HealthCenter => Some(CatalogEntry(Healthcare, 80.0))
    case Counseling => Some(CatalogEntry(Healthcare, 120.0))
    case Gym => Some(CatalogEntry(Fitness, 50.0))
    case MealPlanRequired => Some(CatalogEntry(Food, 300.0))
    case MealPlanOptional => Some(CatalogEntry(Food, 200.0))
    case CampusShuttle => Some(CatalogEntry(Transportation, 60.0))
    case FreeParking => Some(CatalogEntry(Transportation, 100.0))
    case FreeSoftware => Some(CatalogEntry(Technology, 200.0))
    case ComputerLabs => Some(CatalogEntry(Technology, 100.0))
    case TextbookProgram => Some(CatalogEntry(Academic, 400.0))
    case Unlisted(_) => None
  }

  /** The category set holds every category. */
  lemma CategorySetComplete()
    ensures forall c: Category :: c in CategorySet
  {
    forall c: Category ensures c in CategorySet {
      match c
      case Rent => case Food => case Transportation => case Healthcare =>
      case Technology => case Academic => case Fitness => case Entertainment =>
      case PersonalCare => case Utilities => case EmergencyFund => case Investments =>
    }
  }

  /** The base table's order lists exactly the categories, each once. */
  lemma AllCategoriesListed()
    ensures forall c: Category :: c in AllCategories
    ensures forall i, j :: 0 <= i < j < |AllCategories| ==> AllCategories[i] != AllCategories[j]
  {
    forall c: Category ensures c in AllCategories {
      match c
      case Rent => assert AllCategories[0] == c;
      case Food => assert AllCategories[1] == c;
      case Transportation => assert AllCategories[2] == c;
      case Healthcare => assert AllCategories[3] == c;
      case Technology => assert AllCategories[4] == c;
      case Academic => assert AllCategories[5] == c;
      case Fitness => assert AllCategories[6] == c;
      case Entertainment => assert AllCategories[7] == c;
      case PersonalCare => assert AllCategories[8] == c;
      case Utilities => assert AllCategories[9] == c;
      case EmergencyFund => assert AllCategories[10] == c;
      case Investments => assert AllCategories[11] == c;
    }
  }

  /** Every base amount is non-negative; the amounts add up to 2100 dollars,
      1400 of them in the cost-sensitive categories. */
  lemma BaseBudgetShape(c: Category)
    ensures BaseAmount(c) >= 0.0
    ensures BaseAmount(Rent) + BaseAmount(Food) + BaseAmount(Transportation) + BaseAmount(Entertainment) == 1400.0
    ensures BaseAmount(Healthcare) + BaseAmount(Technology) + BaseAmount(Academic) + BaseAmount(Fitness)
          + BaseAmount(PersonalCare) + BaseAmount(Utilities) + BaseAmount(EmergencyFund) + BaseAmount(Investments) == 700.0
  {
  }

  /** Every metro multiplier lies between 0.8 and 2.0: scaling never makes a
      category negative. */
  lemma MultipliersPositive()
    ensures forall a :: a in MetroMultipliers ==> 0.8 <= MetroMultipliers[a] <= 2.0
  {
  }

  /** The dict keys of the ten catalog entries. */
  const CatalogKeys: set<string> :=
    {"health_center", "counseling", "gym", "meal_plan_required", "meal_plan_optional",
     "campus_shuttle", "free_parking", "free_software", "computer_labs", "textbook_program"}

  /** The id a services-dict key stands for: the catalog entry it names, or
      `Unlisted` with the key itself when the catalog has no such entry. */
  function ServiceIdOf(key: string): (r: ServiceId)
    ensures r.Unlisted? <==> key !in CatalogKeys
    ensures r.Unlisted? ==> r.name == key
  {
    if key == "health_center" then HealthCenter
    else if key == "counseling" then Counseling
    else if key == "gym" then Gym
    else if key == "meal_plan_required" then MealPlanRequired
    else if key == "meal_plan_optional" then MealPlanOptional
    else if key == "campus_shuttle" then CampusShuttle
    else if key == "free_parking" then FreeParking
    else if key == "free_software" then FreeSoftware
    else if key == "computer_labs" then ComputerLabs
    else if key == "textbook_program" then TextbookProgram
    else Unlisted(key)
  }

  /** A key is in the catalog exactly when the catalog has an entry for its id. */
  lemma CatalogLookupByKey(key: string)
    ensures Catalog(ServiceIdOf(key)).Some? <==> key in CatalogKeys
    ensures key == "gym" ==> Catalog(ServiceIdOf(key)) == Some(CatalogEntry(Fitness, 50.0))
  {
  }

  /** The catalog holds exactly the ten named services, each with a positive saving. */
  lemma CatalogShape(id: ServiceId)
    ensures Catalog(id).Some? <==> !id.Unlisted?
    ensures Catalog(id).Some? ==> Catalog(id).value.savings > 0.0
  {
  }
}
