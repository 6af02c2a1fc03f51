# College budget planner: allocator and onboarding model

This project models the computational core of a Streamlit budget planner for
college students (`app.py`, class `CollegeBudgetApp`):

- the reference tables: 15 metro cost-of-living multipliers, the base monthly
  amount of each of the 12 budget categories, and the catalog of 10
  school-provided services. Each service relieves one category by a flat
  monthly saving (`tables.dfy`, module `BudgetTables`);
- the total of the school savings (`calculate_school_savings`) and the
  budget pass (`calculate_optimized_budget`). The pass scales rent, food,
  transportation and entertainment by the metro multiplier. Each enabled
  catalog service is subtracted from its category, floored at zero. When the
  monthly budget leaves a positive surplus, it goes 40% to the emergency
  fund, 30% to investments and 30% to entertainment, each only when its goal
  was chosen. `allocator.dfy` (module `BudgetAllocator`) defines the pass as
  the function `Allocate`. It also holds the source's loops as methods, each
  proved equal to its specification function;
- the properties of the pass (`allocator_properties.dfy`, module
  `BudgetProperties`). These cover metro scaling and the per-category floor.
  The floor does not depend on the order of the services. Disabled and
  unlisted services count for nothing. The nominal savings split by category.
  The file also proves the surplus rule, the goal shares, the bounds of the
  result, and one worked Chicago scenario;
- the chart's display filter, which keeps only slices above 20 dollars
  (`chart.dfy`, module `BudgetChart`);
- the onboarding wizard's session state: the step counter, the user-profile
  dict that steps 1 and 3 merge into, and the services dict that step 2
  replaces (`onboarding.dfy`, module `Onboarding`, class `Session`).

Amounts are exact `real`s. The services dict is a sequence of
`(ServiceId, bool)` items in iteration order. Ids the catalog does not list
(the form's `campus_dining` and `transit_discount`) are `Unlisted(name)`.
`ServiceIdOf` maps the dict's keys to ids, so a catalog key is never
`Unlisted`.
The breakdown dict is a `map<Category, real>`. The widget values a handler
reads are parameters of the handler.

## Model

| member | source | states |
|---|---|---|
| BudgetTables.CategorySetComplete | app.py:139-143 | The category set holds every one of the 12 base-budget categories. |
| BudgetTables.AllCategoriesListed | app.py:139-143 | The base table's iteration order lists every category exactly once. |
| BudgetTables.BaseBudgetShape | app.py:139-143 | Every base amount is non-negative. The cost-sensitive categories sum to 1400 dollars and the others to 700. |
| BudgetTables.MultipliersPositive | app.py:131-137 | Every metro multiplier lies in [0.8, 2.0]. |
| BudgetTables.CatalogShape | app.py:145-156 | The catalog lists exactly the ten named services, each with a positive saving. |
| BudgetTables.ServiceIdOf | app.py:145-156 | A services-dict key becomes `Unlisted` if and only if it is not one of the ten catalog keys, and then keeps the key as its name. |
| BudgetTables.CatalogLookupByKey | app.py:399 | The catalog membership test `service in self.school_services_savings` holds for a key exactly when it is a catalog key. The key `gym` always finds the fitness entry worth 50. |
| BudgetAllocator.ScaledBudget | app.py:461-469 | The scaled table has an entry for every category. |
| BudgetAllocator.NominalSavings | app.py:393-402 | The unfloored savings total of the selections is never negative. |
| BudgetAllocator.CategorySavings | app.py:473-481 | The savings the selections apply to one category are never negative. |
| BudgetAllocator.ApplyService | app.py:474-480 | One step of the savings loop changes no key of the breakdown. |
| BudgetAllocator.ApplySavings | app.py:471-481 | The savings loop keeps exactly the keys of the breakdown it starts from. |
| BudgetAllocator.Reallocate | app.py:487-494 | Topping up a complete breakdown leaves it complete. |
| BudgetAllocator.GoalShare | app.py:487-494 | The goals take a fraction in [0, 1] of the surplus, and the whole surplus exactly when emergency fund, investing and travel are all chosen. |
| BudgetAllocator.Allocate | app.py:456-503 | The result breakdown has an entry for every category. `CalculateOptimizedBudget` is proved equal to it, and the `BudgetProperties` lemmas state what it promises. |
| BudgetAllocator.CalculateSchoolSavings | app.py:393-402 | The loop returns the sum of the catalog savings of the enabled, listed services (`NominalSavings`). |
| BudgetAllocator.ScaleBaseBudget | app.py:461-469 | The loop builds exactly the scaled table: every category, with the cost-sensitive ones multiplied by the metro multiplier. |
| BudgetAllocator.ApplySchoolSavings | app.py:471-481 | The loop's dict equals the in-order floored fold `ApplySavings`, and its counter equals `NominalSavings`. |
| BudgetAllocator.ReallocateSurplus | app.py:487-494 | The three `+=` updates give `Reallocate`. |
| BudgetAllocator.CalculateOptimizedBudget | app.py:456-503 | The whole pass returns `Allocate(profile, services)`, whose properties are proved in `BudgetProperties`. |
| BudgetProperties.MetroScaling | app.py:461-469 | Rent, food, transportation and entertainment are base times m. The others keep their base amount. The scaled total is 1400 m + 700, and m = 1 gives the base table. |
| BudgetProperties.CategorySavingsAppend | app.py:473-481 | Per-category savings add up over concatenated selections. |
| BudgetProperties.NominalSavingsAppend | app.py:398-400 | Nominal savings add up over concatenated selections. |
| BudgetProperties.CategorySavingsRemove | app.py:473-481 | Removing one item takes exactly its saving out of its category's total. |
| BudgetProperties.MultisetRemoveLast | app.py:473 | The last item of one ordering is found in a permutation of it, and the remainders are permutations. |
| BudgetProperties.CategorySavingsPermutation | app.py:473-481 | Per-category savings do not depend on the services' order. |
| BudgetProperties.Spread | app.py:145-156 | An item's saving spread over the categories is a complete breakdown. |
| BudgetProperties.SavingLandsOnce | app.py:474-481 | An enabled catalog service's saving is counted in exactly one category. |
| BudgetProperties.SavingsByCategoryStep | app.py:473-481 | Adding an item adds its spread to the per-category savings total. |
| BudgetProperties.NominalSplitsByCategory | app.py:472-481 | The nominal savings total equals the sum over categories of the per-category savings. |
| BudgetProperties.SavingsFloor | app.py:479-480 | Flooring at zero after every service equals flooring once: max(0, amount − all of the category's savings). |
| BudgetProperties.PostSavingsFloor | app.py:461-481 | Each post-savings entry is max(0, scaled − its category's savings), so it lies between 0 and the scaled amount. |
| BudgetProperties.ScaledNonNegative | app.py:465-469 | With a non-negative multiplier every scaled entry is non-negative. |
| BudgetProperties.PostSavingsPermutation | app.py:473-481 | Any ordering of the services dict gives the same post-savings breakdown. |
| BudgetProperties.NominalSavingsPermutation | app.py:398-400 | Any ordering of the services dict gives the same nominal savings. |
| BudgetProperties.OnlyEnabledCatalogServicesCount | app.py:473-474 | Dropping disabled and unlisted services leaves the post-savings breakdown unchanged. |
| BudgetProperties.AppliedSavingsTo | app.py:473-474 | Dropping disabled and unlisted services leaves each category's savings unchanged. |
| BudgetProperties.AppliedNominal | app.py:398-400 | Dropping disabled and unlisted services leaves the nominal savings unchanged. |
| BudgetProperties.SavingsAccounting | app.py:472-481 | The post-savings total lies between the scaled total minus the nominal savings and the scaled total. It equals the lower bound when no category hits its floor. |
| BudgetProperties.SurplusRule | app.py:484-487 | The surplus is the budget minus the post-savings total. A non-positive surplus leaves the post-savings breakdown as the result. |
| BudgetProperties.ReallocateShares | app.py:487-494 | For a positive surplus, each of the three top-ups happens if and only if its goal is chosen. Every other category is unchanged. |
| BudgetProperties.GoalReallocation | app.py:487-494 | The same if-and-only-if shares, for the allocator's result against its post-savings breakdown. |
| BudgetProperties.OtherGoalsIgnored | app.py:488-494 | Goal lists that agree on emergency fund, investing and travel give the same result. |
| BudgetProperties.AllocationConsistent | app.py:480-503 | Every final entry is non-negative. `total_budget` is the monthly budget, the two headline figures are the matching entries, and `school_savings` is the nominal total. |
| BudgetProperties.ShareOfSurplus | app.py:489-494 | The goals' share of a surplus is the sum of the three per-goal shares. |
| BudgetProperties.ReallocateTotal | app.py:487-494 | Topping up raises the total by the goals' share of the surplus. That is at most the surplus, and all of it exactly when all three goals are chosen. |
| BudgetProperties.SurplusBounds | app.py:484-494 | With a positive surplus the final total is at most the monthly budget. It equals the budget if and only if emergency fund, investing and travel are all chosen. |
| BudgetProperties.AllocatePermutation | app.py:473-503 | Any iteration order of the services dict gives the same whole result. |
| BudgetProperties.ChicagoGymScenario | app.py:456-503 | Chicago, 1500 dollars, emergency-fund goal, gym only: fitness drops to 0, the surplus is −830, school savings are 50, and no category is topped up. |
| BudgetChart.ChartSlices | app.py:510 | A category is charted if and only if its amount exceeds 20 dollars, with its amount unchanged. |
| BudgetChart.ChartSlicesIdempotent | app.py:510 | Filtering twice equals filtering once. A breakdown with every entry above 20 is charted whole. |
| BudgetChart.SmallSliceScenario | app.py:510 | A 15-dollar category is left off while the others stay. An all-zero breakdown charts nothing. |
| BudgetChart.ChicagoGymChart | app.py:505-510 | The Chicago gym scenario's chart leaves off only fitness. |
| Onboarding.WithBasics | app.py:246-252 | Step 1's merge sets the four basic fields, keeps every other key and value, and adds no other key. |
| Onboarding.WithPreferences | app.py:355-360 | Step 3's merge sets goals, risk tolerance and spending style, keeps every other key and value, and adds no other key. |
| Onboarding.BasicsMakeProfileReadable | app.py:246-252 | After step 1 the allocator reads the entered budget and metro area, and any goals already present. |
| Onboarding.PreferencesSetGoals | app.py:355-360 | Step 3 changes only the goals the allocator reads. |
| Onboarding.AllocatorProfile | app.py:462-488 | The allocator can read the profile if and only if it has an amount under `monthly_budget` and a text under `metro_area`. It then reads those two values. The goals default to none when `goals` is absent, and otherwise are the stored list. |
| Onboarding.Session.constructor | app.py:112-119 | A new session starts on step 1 with an empty profile and no services. |
| Onboarding.Session.SubmitBasics | app.py:246-254 | Step 1 "Next" merges the basics and moves to step 2. The services are untouched. |
| Onboarding.Session.BackToBasics | app.py:301-303 | Step 2 "Back" moves to step 1 and changes nothing else. |
| Onboarding.Session.SubmitServices | app.py:305-308 | Step 2 "Next" replaces the services dict wholesale and moves to step 3. The profile is untouched. |
| Onboarding.Session.BackToServices | app.py:351-353 | Step 3 "Back" moves to step 2 and changes nothing else. |
| Onboarding.Session.CompleteSetup | app.py:355-362 | Step 3 "Complete Setup" merges the preferences and moves to step 4. The services are untouched. |
| Onboarding.WalkThrough | app.py:203-210 | A run of the wizard with one trip back ends on step 4, with the last submitted services and a profile from which the allocator reads the entered budget, area and goals. |

Every handler requires the step it belongs to, and `Session.Valid()` (step
in 1..4) is kept by every handler. The dispatcher (app.py:203-210) only
calls the current step's handler.

## Left out

- Streamlit rendering, CSS, page navigation, the progress bar, step 4's summary page, and the budget-analysis, chat and advice pages: these are presentation, not logic.
- How step 2's checkboxes and meal-plan radio build the services dict (app.py:265-295): this is widget code, so the handlers take the finished dict as a parameter.
- The OpenAI client, the chat history, environment variables and `.env` loading: these are external I/O.
- Plotly figure construction after the filter on line 510: it is rendering, and the file ends mid-function at line 513.
- Floating-point rounding: amounts are exact reals. For example, `800 * 1.2` is exactly 960 here.
- BudgetAllocator.Allocate, BudgetAllocator.CalculateOptimizedBudget: an unknown metro area raises `KeyError` in the source. The model instead requires the area to be in the table. The select box only offers table entries.
- Onboarding.AllocatorProfile: a missing `monthly_budget` or `metro_area` raises `KeyError` in the source. The model returns `None` instead.
- The iteration order of the breakdown dict, which orders the chart's labels: the breakdown is a map. The services dict's order is modelled, and the whole result is proved independent of it (`AllocatePermutation`).
- Ids built as `Unlisted` of a catalog key, such as `Unlisted("gym")`: the type allows them but `ServiceIdOf` never produces them. A selections sequence holding one saves nothing for it, while the source's `gym` key always saves 50.
- Key uniqueness of the services dict: the item sequence may repeat an id, so the model is a superset of the dicts the source can hold.
- The source's single budget function is three methods here (scale, apply savings, top up) joined by `CalculateOptimizedBudget`. The statements and their order are unchanged.
- BudgetProperties.PostSavingsFloor, PostSavingsPermutation, OnlyEnabledCatalogServicesCount, SavingsAccounting: these require a non-negative multiplier. Every table multiplier is at least 0.8 (`MultipliersPositive`).
- The step-2 help text for `transit_discount` mentions a 40-dollar saving, but the catalog has no entry for it. The model follows the catalog, so the service saves nothing.
