/** The recipe record of lib/types.ts and the text search that both the filter
    panel and the header search box apply to it. */
module RecipeModel {
  import opened Common
  import opened Strings

  datatype Difficulty = Easy | Medium | Hard

  /** The string stored in a recipe's `difficulty` field. */
  function DifficultyName(d: Difficulty): (r: string)
    ensures r in {"Easy", "Medium", "Hard"}
  {
    match d
    case Easy => "Easy"
    case Medium => "Medium"
    case Hard => "Hard"
  }

  lemma DifficultyNameInjective(d: Difficulty, e: Difficulty)
    ensures DifficultyName(d) == DifficultyName(e) ==> d == e
  {
  }

  /** A recipe. `createdAt` is the creation time as a timestamp (the store writes
      it as an ISO date string); the optional `story` is absent on most recipes. */
  datatype Recipe = Recipe(
    id: string,
    title: string,
    description: string,
    image: string,
    prepTime: int,
    cookTime: int,
    servings: int,
    difficulty: Difficulty,
    ingredients: seq<string>,
    instructions: seq<string>,
    category: string,
    createdAt: int,
    story: Option<string>)

  /** Some ingredient line of `r` contains `lowerTerm` once lower-cased. */
  predicate SomeIngredientContains(r: Recipe, lowerTerm: string) {
    exists i | 0 <= i < |r.ingredients| :: Contains(ToLower(r.ingredients[i]), lowerTerm)
  }

  /** The case-insensitive search: the lower-cased term occurs in the lower-cased
      title, description, category or some ingredient line. The term is not
      trimmed, so surrounding spaces take part in the match. */
  predicate MatchesSearch(r: Recipe, term: string) {
    var t := ToLower(term);
    || Contains(ToLower(r.title), t)
    || Contains(ToLower(r.description), t)
    || Contains(ToLower(r.category), t)
    || SomeIngredientContains(r, t)
  }

  /** The search ignores the case of the term. */
  lemma MatchesSearchCaseInsensitive(r: Recipe, term: string)
    ensures MatchesSearch(r, ToLower(term)) == MatchesSearch(r, term)
  {
    ToLowerIdempotent(term);
  }

  /** The empty term matches every recipe. */
  lemma EmptyTermMatchesAll(r: Recipe)
    ensures MatchesSearch(r, "")
  {
    assert ToLower("") == "";
    ContainsEmpty(ToLower(r.title));
  }
}
