/** The advanced filter panel of the recipes page (components/recipe-filters.tsx):
    its filter state, the seven filter passes and the sort it applies to the
    recipe list, the badge counting active filters, the category list that
    follows the selected difficulties, and the handlers that edit the state. */
module RecipeFilters {
  import opened Common
  import opened Strings
  import opened RecipeModel
  import opened StableSort
  import opened SortedSet

  /** An inclusive `[min, max]` pair. */
  datatype Range = Range(lo: int, hi: int)

  datatype FilterState = FilterState(
    categories: seq<string>,
    difficulties: seq<string>,
    prepTimeRange: Range,
    cookTimeRange: Range,
    servingsRange: Range,
    sortBy: string,
    searchTerm: string,
    availableIngredients: seq<string>)

  /** The bounds of the three numeric inputs. */
  const PrepMax: int := 120
  const CookMax: int := 300
  const ServingsMax: int := 12

  const InitialFilters: FilterState :=
    FilterState([], [], Range(0, PrepMax), Range(0, CookMax), Range(1, ServingsMax), "name", "", [])

  predicate InRange(x: int, r: Range) {
    r.lo <= x <= r.hi
  }

  // ---------------------------------------------------------------------------
  // The filter passes, each together with the guard that switches it on

  predicate PassesSearch(f: FilterState, r: Recipe) {
    IsBlank(f.searchTerm) || MatchesSearch(r, f.searchTerm)
  }

  /** Some ingredient line of `r` contains some ticked ingredient, both lower-cased. */
  predicate UsesAvailable(r: Recipe, available: seq<string>) {
    exists i, j | 0 <= i < |r.ingredients| && 0 <= j < |available| ::
      Contains(ToLower(r.ingredients[i]), ToLower(available[j]))
  }

  predicate PassesIngredients(f: FilterState, r: Recipe) {
    |f.availableIngredients| == 0 || UsesAvailable(r, f.availableIngredients)
  }

  predicate PassesCategory(f: FilterState, r: Recipe) {
    |f.categories| == 0 || r.category in f.categories
  }

  predicate PassesDifficulty(f: FilterState, r: Recipe) {
    |f.difficulties| == 0 || DifficultyName(r.difficulty) in f.difficulties
  }

  /** A recipe is shown when it passes every filter. */
  predicate Passes(f: FilterState, r: Recipe) {
    && PassesSearch(f, r)
    && PassesIngredients(f, r)
    && PassesCategory(f, r)
    && PassesDifficulty(f, r)
    && InRange(r.prepTime, f.prepTimeRange)
    && InRange(r.cookTime, f.cookTimeRange)
    && InRange(r.servings, f.servingsRange)
  }

  /** `difficultyOrder` of the "difficulty" sort. */
  function DifficultyRank(d: Difficulty): (n: int)
    ensures 1 <= n <= 3
    ensures d == Easy <==> n == 1
    ensures d == Hard <==> n == 3
  {
    match d
    case Easy => 1
    case Medium => 2
    case Hard => 3
  }

  /** The comparator chosen by `sortBy`, as "compare(a, b) <= 0". `titleLe` is
      `localeCompare` on titles; "newest" puts later `createdAt` first; an unknown
      `sortBy` leaves the list in filter order. */
  function SortOrder(sortBy: string, titleLe: (string, string) -> bool)
    : Option<(Recipe, Recipe) -> bool>
  {
    if sortBy == "name" then Some(ByTitle(titleLe))
    else if sortBy == "prepTime" then Some((a: Recipe, b: Recipe) => a.prepTime <= b.prepTime)
    else if sortBy == "cookTime" then Some((a: Recipe, b: Recipe) => a.cookTime <= b.cookTime)
    else if sortBy == "totalTime" then
      Some((a: Recipe, b: Recipe) => a.prepTime + a.cookTime <= b.prepTime + b.cookTime)
    else if sortBy == "difficulty" then
      Some((a: Recipe, b: Recipe) => DifficultyRank(a.difficulty) <= DifficultyRank(b.difficulty))
    else if sortBy == "servings" then Some((a: Recipe, b: Recipe) => a.servings <= b.servings)
    else if sortBy == "newest" then Some((a: Recipe, b: Recipe) => b.createdAt <= a.createdAt)
    else None
  }

  /** The "name" comparator: `localeCompare` of the titles. */
  function ByTitle(titleLe: (string, string) -> bool): (Recipe, Recipe) -> bool {
    (a: Recipe, b: Recipe) => titleLe(a.title, b.title)
  }

  /** Every comparator the panel uses is a total preorder, given that `localeCompare` is. */
  lemma SortOrderIsPreorder(sortBy: string, titleLe: (string, string) -> bool)
    requires TotalPreorder(titleLe)
    ensures SortOrder(sortBy, titleLe).Some? ==> TotalPreorder(SortOrder(sortBy, titleLe).value)
  {
    var order := SortOrder(sortBy, titleLe);
    if sortBy == "name" {
      var le := order.value;
      forall a, b ensures le(a, b) || le(b, a) {
        assert le(a, b) == titleLe(a.title, b.title) && le(b, a) == titleLe(b.title, a.title);
      }
      forall a, b, c | le(a, b) && le(b, c) ensures le(a, c) {
        assert titleLe(a.title, b.title) && titleLe(b.title, c.title);
      }
    } else if sortBy == "prepTime" {
      KeyOrderIsPreorder((r: Recipe) => r.prepTime, order.value);
    } else if sortBy == "cookTime" {
      KeyOrderIsPreorder((r: Recipe) => r.cookTime, order.value);
    } else if sortBy == "totalTime" {
      KeyOrderIsPreorder((r: Recipe) => r.prepTime + r.cookTime, order.value);
    } else if sortBy == "difficulty" {
      KeyOrderIsPreorder((r: Recipe) => DifficultyRank(r.difficulty), order.value);
    } else if sortBy == "servings" {
      KeyOrderIsPreorder((r: Recipe) => r.servings, order.value);
    } else if sortBy == "newest" {
      KeyOrderIsPreorder((r: Recipe) => -r.createdAt, order.value);
    }
  }

  /** The recipes that pass every filter, in their stored order. */
  function Visible(all: seq<Recipe>, f: FilterState): seq<Recipe> {
    Keep(all, (r: Recipe) => Passes(f, r))
  }

  /** The list handed to `onFiltersChange`. */
  function FilterResult(all: seq<Recipe>, f: FilterState, titleLe: (string, string) -> bool)
    : seq<Recipe>
  {
    match SortOrder(f.sortBy, titleLe)
    case None => Visible(all, f)
    case Some(le) => Sort(Visible(all, f), le)
  }

  /** The result holds exactly the recipes that pass every filter, each as often as
      stored; it is ordered by the chosen comparator, recipes that compare equal
      keep their stored order, and an unknown `sortBy` keeps filter order. */
  lemma FilterResultCorrect(all: seq<Recipe>, f: FilterState, titleLe: (string, string) -> bool)
    requires TotalPreorder(titleLe)
    ensures var r := FilterResult(all, f, titleLe);
      && (forall x :: x in r <==> x in all && Passes(f, x))
      && multiset(r) == multiset(Visible(all, f))
      && match SortOrder(f.sortBy, titleLe)
         case None => r == Visible(all, f)
         case Some(le) => Sorted(r, le) && StablePermutationOf(r, Visible(all, f), le)
  {
    SortOrderIsPreorder(f.sortBy, titleLe);
    FilterResultMembers(all, f, titleLe);
    match SortOrder(f.sortBy, titleLe)
    case None =>
    case Some(le) =>
      SortCorrect(Visible(all, f), le);
  }

  /** With no filter set, as in the initial filters, the time and servings bounds
      still apply: a recipe whose preparation takes longer than 120 minutes is
      not listed. The sort order and the ingredient pick list do not matter. */
  lemma InitialFiltersShow(f: FilterState, r: Recipe)
    requires f.searchTerm == "" && f.availableIngredients == [] && f.categories == [] && f.difficulties == []
    requires f.prepTimeRange == Range(0, PrepMax) && f.cookTimeRange == Range(0, CookMax)
    requires f.servingsRange == Range(1, ServingsMax)
    ensures Passes(f, r)
        <==> 0 <= r.prepTime <= PrepMax && 0 <= r.cookTime <= CookMax && 1 <= r.servings <= ServingsMax
  {
    GuardsOff(f, r);
    PassesWithinBounds(f, r);
  }

  /** With no search term and no ingredient, category or difficulty picked, the
      four guarded passes let every recipe through. */
  lemma GuardsOff(f: FilterState, r: Recipe)
    requires f.searchTerm == "" && f.availableIngredients == [] && f.categories == [] && f.difficulties == []
    ensures PassesSearch(f, r) && PassesIngredients(f, r) && PassesCategory(f, r) && PassesDifficulty(f, r)
  {
    EmptyIsBlank();
  }

  /** Once the guarded passes let a recipe through, the three bounds decide. */
  lemma PassesWithinBounds(f: FilterState, r: Recipe)
    requires PassesSearch(f, r) && PassesIngredients(f, r) && PassesCategory(f, r) && PassesDifficulty(f, r)
    ensures Passes(f, r)
        <==> InRange(r.prepTime, f.prepTimeRange) && InRange(r.cookTime, f.cookTimeRange) && InRange(r.servings, f.servingsRange)
  {
  }

  /** Sorting or not, the result holds the recipes that pass every filter. */
  lemma FilterResultMembers(all: seq<Recipe>, f: FilterState, titleLe: (string, string) -> bool)
    ensures forall x :: x in FilterResult(all, f, titleLe) <==> x in all && Passes(f, x)
  {
    var r := FilterResult(all, f, titleLe);
    assert multiset(r) == multiset(Visible(all, f));
    forall x ensures x in r <==> x in Visible(all, f) {
      assert x in r <==> x in multiset(r);
    }
  }

  // The seven passes of `applyFilters` as filter callbacks, in order.

  function SearchTest(f: FilterState): Recipe -> bool {
    (r: Recipe) => MatchesSearch(r, f.searchTerm)
  }

  function IngredientTest(f: FilterState): Recipe -> bool {
    (r: Recipe) => UsesAvailable(r, f.availableIngredients)
  }

  function CategoryTest(f: FilterState): Recipe -> bool {
    (r: Recipe) => r.category in f.categories
  }

  function DifficultyTest(f: FilterState): Recipe -> bool {
    (r: Recipe) => DifficultyName(r.difficulty) in f.difficulties
  }

  function PrepTest(f: FilterState): Recipe -> bool {
    (r: Recipe) => InRange(r.prepTime, f.prepTimeRange)
  }

  function CookTest(f: FilterState): Recipe -> bool {
    (r: Recipe) => InRange(r.cookTime, f.cookTimeRange)
  }

  function ServingsTest(f: FilterState): Recipe -> bool {
    (r: Recipe) => InRange(r.servings, f.servingsRange)
  }

  /** Pass `k` (1 to 7) and whether it runs: the first four only when their field is set. */
  function PassTest(f: FilterState, k: nat): Recipe -> bool
    requires 1 <= k <= 7
  {
    if k == 1 then SearchTest(f)
    else if k == 2 then IngredientTest(f)
    else if k == 3 then CategoryTest(f)
    else if k == 4 then DifficultyTest(f)
    else if k == 5 then PrepTest(f)
    else if k == 6 then CookTest(f)
    else ServingsTest(f)
  }

  predicate PassOn(f: FilterState, k: nat)
    requires 1 <= k <= 7
  {
    if k == 1 then !IsBlank(f.searchTerm)
    else if k == 2 then |f.availableIngredients| > 0
    else if k == 3 then |f.categories| > 0
    else if k == 4 then |f.difficulties| > 0
    else true
  }

  /** `r` survives the first `k` passes. */
  predicate SurvivesFirst(f: FilterState, k: nat, r: Recipe)
    requires k <= 7
  {
    if k == 0 then true
    else SurvivesFirst(f, k - 1, r) && (!PassOn(f, k) || PassTest(f, k)(r))
  }

  function SurvivorTest(f: FilterState, k: nat): Recipe -> bool
    requires k <= 7
  {
    (r: Recipe) => SurvivesFirst(f, k, r)
  }

  /** Surviving all seven passes is passing every filter. */
  lemma SurvivesAll(all: seq<Recipe>, f: FilterState)
    ensures Keep(all, SurvivorTest(f, 7)) == Visible(all, f)
  {
    forall r ensures SurvivesFirst(f, 7, r) == Passes(f, r) {
      assert SurvivesFirst(f, 1, r) == PassesSearch(f, r);
      assert SurvivesFirst(f, 2, r) == (SurvivesFirst(f, 1, r) && PassesIngredients(f, r));
      assert SurvivesFirst(f, 3, r) == (SurvivesFirst(f, 2, r) && PassesCategory(f, r));
      assert SurvivesFirst(f, 4, r) == (SurvivesFirst(f, 3, r) && PassesDifficulty(f, r));
      assert SurvivesFirst(f, 5, r) == (SurvivesFirst(f, 4, r) && PrepTest(f)(r));
      assert SurvivesFirst(f, 6, r) == (SurvivesFirst(f, 5, r) && CookTest(f)(r));
      assert SurvivesFirst(f, 7, r) == (SurvivesFirst(f, 6, r) && ServingsTest(f)(r));
    }
    KeepSame(all, SurvivorTest(f, 7), (r: Recipe) => Passes(f, r));
  }

  /** Pass `k` turns the survivors of the first `k - 1` passes into those of the first `k`. */
  lemma Narrow(all: seq<Recipe>, cur: seq<Recipe>, f: FilterState, k: nat)
    requires 1 <= k <= 7
    requires cur == Keep(all, SurvivorTest(f, k - 1))
    ensures (if PassOn(f, k) then Keep(cur, PassTest(f, k)) else cur) == Keep(all, SurvivorTest(f, k))
  {
    if PassOn(f, k) {
      KeepKeep(all, SurvivorTest(f, k - 1), PassTest(f, k), SurvivorTest(f, k));
    } else {
      KeepSame(all, SurvivorTest(f, k - 1), SurvivorTest(f, k));
    }
  }

  /** The filter passes of `applyFilters`, one after another on a copy of the
      list (written as a loop over the pass table): the recipes passing every
      filter, in stored order. */
  method RunPasses(all: seq<Recipe>, f: FilterState) returns (filtered: seq<Recipe>)
    ensures filtered == Visible(all, f)
  {
    filtered := all;
    KeepAll(all, SurvivorTest(f, 0));
    for k := 1 to 8
      invariant filtered == Keep(all, SurvivorTest(f, k - 1))
    {
      Narrow(all, filtered, f, k);
      if PassOn(f, k) {
        filtered := Keep(filtered, PassTest(f, k));
      }
    }
    SurvivesAll(all, f);
  }

  /** `applyFilters`: the passes, then the sort `sortBy` selects. */
  method ApplyFilters(all: seq<Recipe>, f: FilterState, titleLe: (string, string) -> bool)
    returns (filtered: seq<Recipe>)
    ensures filtered == FilterResult(all, f, titleLe)
    ensures forall x :: x in filtered <==> x in all && Passes(f, x)
  {
    filtered := RunPasses(all, f);
    match SortOrder(f.sortBy, titleLe)
    case None =>
    case Some(le) =>
      filtered := Sort(filtered, le);
    FilterResultMembers(all, f, titleLe);
  }

  // ---------------------------------------------------------------------------
  // The active-filters badge

  /** The eight settings the badge looks at. */
  datatype Setting =
    | CategoriesSetting | DifficultiesSetting | PrepTimeSetting | CookTimeSetting
    | ServingsSetting | SortSetting | SearchSetting | IngredientsSetting

  /** A setting is in use when it differs from its initial value; a search term of
      white space only counts as unset. */
  predicate InUse(f: FilterState, s: Setting) {
    match s
    case CategoriesSetting => f.categories != InitialFilters.categories
    case DifficultiesSetting => f.difficulties != InitialFilters.difficulties
    case PrepTimeSetting => f.prepTimeRange != InitialFilters.prepTimeRange
    case CookTimeSetting => f.cookTimeRange != InitialFilters.cookTimeRange
    case ServingsSetting => f.servingsRange != InitialFilters.servingsRange
    case SortSetting => f.sortBy != InitialFilters.sortBy
    case SearchSetting => !IsBlank(f.searchTerm)
    case IngredientsSetting => f.availableIngredients != InitialFilters.availableIngredients
  }

  /** The settings in the order the badge checks them. */
  const Settings: seq<Setting> := [
    CategoriesSetting, DifficultiesSetting, PrepTimeSetting, CookTimeSetting,
    ServingsSetting, SortSetting, SearchSetting, IngredientsSetting]

  /** How many of the first `k` settings are in use. */
  function InUseAmong(f: FilterState, k: nat): (n: nat)
    requires k <= |Settings|
    ensures n <= k
  {
    if k == 0 then 0 else InUseAmong(f, k - 1) + (if InUse(f, Settings[k - 1]) then 1 else 0)
  }

  /** The filters equal the initial ones, except perhaps for a search term of
      white space only. */
  predicate AtDefaults(f: FilterState) {
    f.(searchTerm := "") == InitialFilters && IsBlank(f.searchTerm)
  }

  /** No setting is in use exactly when the state is the initial one. */
  lemma NoneInUseIffDefaults(f: FilterState)
    ensures InUseAmong(f, |Settings|) == 0 <==> AtDefaults(f)
  {
    if InUseAmong(f, |Settings|) == 0 {
      forall k | 0 <= k < |Settings| ensures !InUse(f, Settings[k]) {
        if InUse(f, Settings[k]) {
          CountedInPrefix(f, |Settings|, k);
        }
      }
      assert !InUse(f, Settings[0]) && !InUse(f, Settings[1]) && !InUse(f, Settings[2]);
      assert !InUse(f, Settings[3]) && !InUse(f, Settings[4]) && !InUse(f, Settings[5]);
      assert !InUse(f, Settings[6]) && !InUse(f, Settings[7]);
    } else if AtDefaults(f) {
      assert IsBlank(f.searchTerm);
      NoneCounted(f, |Settings|);
    }
  }

  lemma {:induction false} NoneCounted(f: FilterState, k: nat)
    requires k <= |Settings|
    requires forall i :: 0 <= i < k ==> !InUse(f, Settings[i])
    ensures InUseAmong(f, k) == 0
  {
    if k > 0 {
      NoneCounted(f, k - 1);
    }
  }

  lemma {:induction false} CountedInPrefix(f: FilterState, k: nat, i: nat)
    requires i < k <= |Settings|
    requires InUse(f, Settings[i])
    ensures InUseAmong(f, k) > 0
  {
    if i < k - 1 {
      CountedInPrefix(f, k - 1, i);
    }
  }

  /** One for a setting in use, zero otherwise. */
  function Flag(b: bool): nat {
    if b then 1 else 0
  }

  /** `updateActiveFiltersCount`: one increment per setting in use, in the order
      the effect tests them. */
  method CountActiveFilters(f: FilterState) returns (count: nat)
    ensures count == InUseAmong(f, |Settings|)
    ensures count <= 8
    ensures count == 0 <==> AtDefaults(f)
  {
    count := Flag(|f.categories| > 0);
    assert count == InUseAmong(f, 1);
    count := count + Flag(|f.difficulties| > 0);
    assert count == InUseAmong(f, 2);
    count := count + Flag(f.prepTimeRange.lo != 0 || f.prepTimeRange.hi != PrepMax);
    assert count == InUseAmong(f, 3);
    count := count + Flag(f.cookTimeRange.lo != 0 || f.cookTimeRange.hi != CookMax);
    assert count == InUseAmong(f, 4);
    count := count + Flag(f.servingsRange.lo != 1 || f.servingsRange.hi != ServingsMax);
    assert count == InUseAmong(f, 5);
    count := count + Flag(f.sortBy != "name");
    assert count == InUseAmong(f, 6);
    count := count + Flag(!IsBlank(f.searchTerm));
    assert count == InUseAmong(f, 7);
    count := count + Flag(|f.availableIngredients| > 0);
    assert count == InUseAmong(f, 8);
    NoneInUseIffDefaults(f);
  }

  // ---------------------------------------------------------------------------
  // Derived lists

  function Categories(rs: seq<Recipe>): (cs: seq<string>)
    ensures forall c :: c in cs <==> exists r :: r in rs && r.category == c
  {
    if rs == [] then [] else
      assert rs == [rs[0]] + rs[1..];
      [rs[0].category] + Categories(rs[1..])
  }

  /** `recipes.flatMap(r => r.ingredients)`. */
  function IngredientLines(rs: seq<Recipe>): (xs: seq<string>)
    ensures forall x :: x in xs <==> exists r :: r in rs && x in r.ingredients
  {
    if rs == [] then [] else
      assert rs == [rs[0]] + rs[1..];
      rs[0].ingredients + IngredientLines(rs[1..])
  }

  predicate InDifficulties(r: Recipe, difficulties: seq<string>) {
    |difficulties| == 0 || DifficultyName(r.difficulty) in difficulties
  }

  /** `getFilteredCategories`: the distinct categories of the recipes in the
      selected difficulties (of all recipes when none is selected), sorted. */
  function AvailableCategories(all: seq<Recipe>, difficulties: seq<string>): seq<string> {
    var pool := if |difficulties| == 0 then all
                else Keep(all, (r: Recipe) => DifficultyName(r.difficulty) in difficulties);
    SortedUnique(Categories(pool))
  }

  /** The offered categories are those of some recipe in the selected difficulties,
      each once, in the default sort order. */
  lemma AvailableCategoriesCorrect(all: seq<Recipe>, difficulties: seq<string>)
    ensures var cs := AvailableCategories(all, difficulties);
      && (forall c :: c in cs <==> exists r :: r in all && InDifficulties(r, difficulties) && r.category == c)
      && StrictlySorted(cs)
  {
    var pool := if |difficulties| == 0 then all
                else Keep(all, (r: Recipe) => DifficultyName(r.difficulty) in difficulties);
    SortedUniqueSorted(Categories(pool));
  }

  /** The selected categories that are still offered, in selection order. */
  function StillOffered(selected: seq<string>, offered: seq<string>): (r: seq<string>)
    ensures forall c :: c in r <==> c in selected && c in offered
    ensures |r| == |selected| <==> forall c :: c in selected ==> c in offered
  {
    KeepLengthIff(selected, (c: string) => c in offered);
    Keep(selected, (c: string) => c in offered)
  }

  /** The effect's test: some categories are selected and pruning drops one. */
  predicate MustPrune(selected: seq<string>, offered: seq<string>) {
    |selected| > 0 && |StillOffered(selected, offered)| != |selected|
  }

  /** The selection is pruned exactly when a selected category is no longer offered. */
  lemma MustPruneIff(selected: seq<string>, offered: seq<string>)
    ensures MustPrune(selected, offered) <==> exists c :: c in selected && c !in offered
  {
  }

  /** `toggleCategory` and its siblings: remove the value if present, else append it. */
  function Toggle(s: seq<string>, x: string): (r: seq<string>)
    ensures x in r <==> x !in s
    ensures forall y :: y != x ==> (y in r <==> y in s)
  {
    if x in s then RemoveAll(s, x) else s + [x]
  }

  /** Ticking a box and ticking it again gives back the same list. */
  lemma ToggleTwice(s: seq<string>, x: string)
    requires x !in s
    ensures Toggle(Toggle(s, x), x) == s
  {
    RemoveAllSnoc(s, x);
  }

  // ---------------------------------------------------------------------------
  // The number inputs

  /** `Number.parseInt(value) || default`: NaN (`None`) and 0 both fall back. */
  function ParseOr(parsed: Option<int>, default: int): (v: int)
    ensures parsed.Some? && parsed.value != 0 ==> v == parsed.value
    ensures parsed.None? || parsed.value == 0 ==> v == default
  {
    if parsed.Some? && parsed.value != 0 then parsed.value else default
  }

  /** A "Min" box with domain `[0, max]`: an entry above the domain gives `max`, a
      negative one or NaN gives 0, and the upper end is raised if needed. */
  function EditMin(prev: Range, parsed: Option<int>, max: int): (r: Range)
    requires 0 <= max
    ensures 0 <= r.lo <= max
    ensures r.lo <= r.hi
    ensures r.hi == Max(r.lo, prev.hi)
    ensures parsed.Some? && 0 <= parsed.value <= max ==> r.lo == parsed.value
    ensures parsed.Some? && parsed.value > max ==> r.lo == max
    ensures parsed.None? || parsed.value < 0 ==> r.lo == 0
  {
    var value := Clamp(0, max, ParseOr(parsed, 0));
    Range(value, Max(value, prev.hi))
  }

  /** A "Max" box with domain `[0, max]`: an entry above the domain, 0 or NaN gives
      `max`, a negative one gives 0, and the lower end is lowered if needed. */
  function EditMax(prev: Range, parsed: Option<int>, max: int): (r: Range)
    requires 0 <= max
    ensures 0 <= r.hi <= max
    ensures r.lo <= r.hi
    ensures r.lo == Min(prev.lo, r.hi)
    ensures parsed.Some? && 0 < parsed.value <= max ==> r.hi == parsed.value
    ensures parsed.None? || parsed.value == 0 || parsed.value > max ==> r.hi == max
    ensures parsed.Some? && parsed.value < 0 ==> r.hi == 0
  {
    var value := Clamp(0, max, ParseOr(parsed, max));
    Range(Min(prev.lo, value), value)
  }

  /** A range inside its domain stays inside it under both boxes. */
  lemma EditsStayInDomain(prev: Range, parsed: Option<int>, max: int)
    requires 0 <= prev.lo <= prev.hi <= max
    ensures var r := EditMin(prev, parsed, max); 0 <= r.lo <= r.hi <= max
    ensures var r := EditMax(prev, parsed, max); 0 <= r.lo <= r.hi <= max
  {
  }

  /** Typing 0 into a "Max" box opens the range up to the domain's maximum, since
      `parseInt("0") || max` is `max`. */
  lemma MaxZeroMeansDomainMax(prev: Range, max: int)
    requires 0 <= max
    ensures EditMax(prev, Some(0), max).hi == max
  {
  }

  /** The servings slider moves the upper end; the lower end can only go down. */
  function EditServings(prev: Range, value: int): (r: Range)
    requires 1 <= value <= ServingsMax
    ensures r.hi == value
    ensures r.lo == Min(prev.lo, value)
  {
    Range(Min(prev.lo, value), value)
  }

  /** Starting from the initial `[1, 12]`, the slider never moves the lower end off 1. */
  lemma ServingsLowerEndStays(prev: Range, value: int)
    requires prev.lo == 1 && 1 <= value <= ServingsMax
    ensures EditServings(prev, value).lo == 1
  {
  }

  // ---------------------------------------------------------------------------
  // The component

  /** The panel's state. `delivered` is the last list passed to `onFiltersChange`.
      The effect of lines 82-98 runs after every change of `filters` or
      `allRecipes`; here the caller runs it with `Refresh`. */
  class FilterPanel {
    const titleLe: (string, string) -> bool
    var allRecipes: seq<Recipe>
    var filters: FilterState
    var availableCategories: seq<string>
    var allIngredients: seq<string>
    var activeFiltersCount: nat
    var delivered: Option<seq<Recipe>>

    constructor(titleLe: (string, string) -> bool)
      ensures this.titleLe == titleLe
      ensures allRecipes == [] && filters == InitialFilters
      ensures availableCategories == [] && allIngredients == []
      ensures activeFiltersCount == 0 && delivered == None
    {
      this.titleLe := titleLe;
      allRecipes := [];
      filters := InitialFilters;
      availableCategories := [];
      allIngredients := [];
      activeFiltersCount := 0;
      delivered := None;
    }

    /** The mount effect: store the recipes and list their distinct ingredient lines. */
    method Load(recipes: seq<Recipe>)
      modifies this
      ensures allRecipes == recipes
      ensures allIngredients == SortedUnique(IngredientLines(recipes))
      ensures filters == old(filters) && availableCategories == old(availableCategories)
      ensures activeFiltersCount == old(activeFiltersCount) && delivered == old(delivered)
    {
      allRecipes := recipes;
      allIngredients := SortedUnique(IngredientLines(recipes));
    }

    /** The first half of the filter effect: offer the categories of the selected
        difficulties and drop the selected ones no longer offered, if any. */
    method Prune() returns (pruned: bool)
      modifies this
      ensures availableCategories == AvailableCategories(old(allRecipes), old(filters).difficulties)
      ensures pruned == MustPrune(old(filters).categories, availableCategories)
      ensures filters == if pruned then old(filters).(categories := StillOffered(old(filters).categories, availableCategories))
                         else old(filters)
      ensures allRecipes == old(allRecipes) && allIngredients == old(allIngredients)
      ensures delivered == old(delivered) && activeFiltersCount == old(activeFiltersCount)
    {
      var offered := AvailableCategories(allRecipes, filters.difficulties);
      availableCategories := offered;
      pruned := MustPrune(filters.categories, offered);
      if pruned {
        filters := filters.(categories := StillOffered(filters.categories, offered));
      }
    }

    /** The second half: hand the filtered list on and count the settings in use. */
    method Deliver()
      modifies this
      ensures delivered == Some(FilterResult(allRecipes, filters, titleLe))
      ensures activeFiltersCount == InUseAmong(filters, |Settings|)
      ensures allRecipes == old(allRecipes) && allIngredients == old(allIngredients)
      ensures filters == old(filters) && availableCategories == old(availableCategories)
    {
      var shown := ApplyFilters(allRecipes, filters, titleLe);
      delivered := Some(shown);
      activeFiltersCount := CountActiveFilters(filters);
    }

    /** The filter effect. When a selected category is no longer offered for the
        selected difficulties it prunes the selection and stops (`applied` false);
        otherwise it delivers the filtered list and updates the badge. */
    method Refresh() returns (applied: bool)
      modifies this
      ensures availableCategories == AvailableCategories(old(allRecipes), old(filters).difficulties)
      ensures allRecipes == old(allRecipes) && allIngredients == old(allIngredients)
      ensures applied == !MustPrune(old(filters).categories, availableCategories)
      ensures !applied ==>
        && filters == old(filters).(categories := StillOffered(old(filters).categories, availableCategories))
        && delivered == old(delivered) && activeFiltersCount == old(activeFiltersCount)
      ensures applied ==>
        && filters == old(filters)
        && delivered == Some(FilterResult(allRecipes, filters, titleLe))
        && activeFiltersCount == InUseAmong(filters, |Settings|)
    {
      var pruned := Prune();
      if !pruned {
        Deliver();
      }
      applied := !pruned;
    }

    method ToggleCategory(c: string)
      modifies this
      ensures filters == old(filters).(categories := Toggle(old(filters.categories), c))
      ensures allRecipes == old(allRecipes) && allIngredients == old(allIngredients)
      ensures availableCategories == old(availableCategories)
      ensures activeFiltersCount == old(activeFiltersCount) && delivered == old(delivered)
    {
      filters := filters.(categories := Toggle(filters.categories, c));
    }

    method ToggleDifficulty(d: string)
      modifies this
      ensures filters == old(filters).(difficulties := Toggle(old(filters.difficulties), d))
      ensures allRecipes == old(allRecipes) && allIngredients == old(allIngredients)
      ensures availableCategories == old(availableCategories)
      ensures activeFiltersCount == old(activeFiltersCount) && delivered == old(delivered)
    {
      filters := filters.(difficulties := Toggle(filters.difficulties, d));
    }

    method ToggleIngredient(i: string)
      modifies this
      ensures filters == old(filters).(availableIngredients := Toggle(old(filters.availableIngredients), i))
      ensures allRecipes == old(allRecipes) && allIngredients == old(allIngredients)
      ensures availableCategories == old(availableCategories)
      ensures activeFiltersCount == old(activeFiltersCount) && delivered == old(delivered)
    {
      filters := filters.(availableIngredients := Toggle(filters.availableIngredients, i));
    }

    /** The search box; its clear button sets the term to "". */
    method SetSearchTerm(term: string)
      modifies this
      ensures filters == old(filters).(searchTerm := term)
      ensures allRecipes == old(allRecipes) && allIngredients == old(allIngredients)
      ensures availableCategories == old(availableCategories)
      ensures activeFiltersCount == old(activeFiltersCount) && delivered == old(delivered)
    {
      filters := filters.(searchTerm := term);
    }

    method SetSortBy(sortBy: string)
      modifies this
      ensures filters == old(filters).(sortBy := sortBy)
      ensures allRecipes == old(allRecipes) && allIngredients == old(allIngredients)
      ensures availableCategories == old(availableCategories)
      ensures activeFiltersCount == old(activeFiltersCount) && delivered == old(delivered)
    {
      filters := filters.(sortBy := sortBy);
    }

    method SetPrepMin(parsed: Option<int>)
      modifies this
      ensures filters == old(filters).(prepTimeRange := EditMin(old(filters.prepTimeRange), parsed, PrepMax))
      ensures allRecipes == old(allRecipes) && allIngredients == old(allIngredients)
      ensures availableCategories == old(availableCategories)
      ensures activeFiltersCount == old(activeFiltersCount) && delivered == old(delivered)
    {
      filters := filters.(prepTimeRange := EditMin(filters.prepTimeRange, parsed, PrepMax));
    }

    method SetPrepMax(parsed: Option<int>)
      modifies this
      ensures filters == old(filters).(prepTimeRange := EditMax(old(filters.prepTimeRange), parsed, PrepMax))
      ensures allRecipes == old(allRecipes) && allIngredients == old(allIngredients)
      ensures availableCategories == old(availableCategories)
      ensures activeFiltersCount == old(activeFiltersCount) && delivered == old(delivered)
    {
      filters := filters.(prepTimeRange := EditMax(filters.prepTimeRange, parsed, PrepMax));
    }

    method SetCookMin(parsed: Option<int>)
      modifies this
      ensures filters == old(filters).(cookTimeRange := EditMin(old(filters.cookTimeRange), parsed, CookMax))
      ensures allRecipes == old(allRecipes) && allIngredients == old(allIngredients)
      ensures availableCategories == old(availableCategories)
      ensures activeFiltersCount == old(activeFiltersCount) && delivered == old(delivered)
    {
      filters := filters.(cookTimeRange := EditMin(filters.cookTimeRange, parsed, CookMax));
    }

    method SetCookMax(parsed: Option<int>)
      modifies this
      ensures filters == old(filters).(cookTimeRange := EditMax(old(filters.cookTimeRange), parsed, CookMax))
      ensures allRecipes == old(allRecipes) && allIngredients == old(allIngredients)
      ensures availableCategories == old(availableCategories)
      ensures activeFiltersCount == old(activeFiltersCount) && delivered == old(delivered)
    {
      filters := filters.(cookTimeRange := EditMax(filters.cookTimeRange, parsed, CookMax));
    }

    method SetServings(value: int)
      requires 1 <= value <= ServingsMax
      modifies this
      ensures filters == old(filters).(servingsRange := EditServings(old(filters.servingsRange), value))
      ensures allRecipes == old(allRecipes) && allIngredients == old(allIngredients)
      ensures availableCategories == old(availableCategories)
      ensures activeFiltersCount == old(activeFiltersCount) && delivered == old(delivered)
    {
      filters := filters.(servingsRange := EditServings(filters.servingsRange, value));
    }

    method ResetFilters()
      modifies this
      ensures filters == InitialFilters
      ensures allRecipes == old(allRecipes) && allIngredients == old(allIngredients)
      ensures availableCategories == old(availableCategories)
      ensures activeFiltersCount == old(activeFiltersCount) && delivered == old(delivered)
    {
      filters := InitialFilters;
    }
  }

  /** After a pruning run of the effect, the next run delivers: every category left
      selected is offered, because the difficulties and recipes did not change. */
  lemma PruneThenApply(all: seq<Recipe>, f: FilterState)
    ensures var offered := AvailableCategories(all, f.difficulties);
      var g := f.(categories := StillOffered(f.categories, offered));
      forall c :: c in g.categories ==> c in AvailableCategories(all, g.difficulties)
  {
  }

  /** The reset filters deliver the recipes within the default bounds, by title. */
  lemma ResetSortsByTitle(f: FilterState, all: seq<Recipe>, titleLe: (string, string) -> bool)
    requires f == InitialFilters
    ensures FilterResult(all, f, titleLe) == Sort(Visible(all, f), ByTitle(titleLe))
  {
    assert SortOrder(f.sortBy, titleLe) == Some(ByTitle(titleLe));
  }

  /** After a reset the badge counts no filter in use. */
  lemma ResetCountsNone(f: FilterState)
    requires f == InitialFilters
    ensures InUseAmong(f, |Settings|) == 0
  {
    EmptyIsBlank();
    assert f.(searchTerm := "") == InitialFilters;
    NoneInUseIffDefaults(f);
  }
}
