/** The recipe tile of components/recipe-card.tsx: badge colours from the
    difficulty and from a hash of the category, and the fallbacks for missing
    fields. */
module RecipeCard {
  import opened Common
  import opened Strings
  import opened Int32Hash
  import opened RecipeModel

  const CategoryColors: seq<string> := [
    "bg-blue-100 text-blue-800 hover:bg-blue-200",
    "bg-purple-100 text-purple-800 hover:bg-purple-200",
    "bg-pink-100 text-pink-800 hover:bg-pink-200",
    "bg-indigo-100 text-indigo-800 hover:bg-indigo-200",
    "bg-teal-100 text-teal-800 hover:bg-teal-200"]

  /** The palette slot of a category: `Math.abs(hash) % 5`. */
  function CategoryIndex(category: string): (k: nat)
    ensures k < |CategoryColors|
  {
    Abs(Hash(category)) % |CategoryColors|
  }

  /** `getCategoryColor`. */
  function CategoryColor(category: string): (c: string)
    ensures c in CategoryColors
  {
    CategoryColors[CategoryIndex(category)]
  }

  /** The slot is taken from the 32-bit fold `a := int32(31 * a + code)`, and
      lies in 0..4 for every hash; the smallest 32-bit integer, whose absolute
      value 2^31 does not overflow in a double, gives slot 3. */
  lemma CategoryIndexCorrect(category: string)
    ensures CategoryIndex(category) == Abs(Hash31(category)) % 5
    ensures 0 <= CategoryIndex(category) < 5
    ensures Hash31(category) == -TwoTo31 ==> CategoryIndex(category) == 3
  {
    HashIsHash31(category);
    var h := Hash31(category);
    if h == -TwoTo31 {
      assert Abs(h) == 2147483648;
      assert 2147483648 % 5 == 3;
    }
  }

  const EasyColor: string := "bg-green-100 text-green-800 hover:bg-green-200"
  const MediumColor: string := "bg-yellow-100 text-yellow-800 hover:bg-yellow-200"
  const HardColor: string := "bg-red-100 text-red-800 hover:bg-red-200"
  const OtherColor: string := "bg-gray-100 text-gray-800 hover:bg-gray-200"

  /** `getDifficultyColor`: the colour of the lower-cased difficulty. */
  function DifficultyColor(difficulty: string): string {
    var d := ToLower(difficulty);
    if d == "easy" then EasyColor
    else if d == "medium" then MediumColor
    else if d == "hard" then HardColor
    else OtherColor
  }

  /** The difficulty colour ignores case, gives each level its own colour and
      gray to anything else. */
  lemma DifficultyColorCorrect(difficulty: string, d: Difficulty)
    ensures DifficultyColor(ToLower(difficulty)) == DifficultyColor(difficulty)
    ensures DifficultyColor(DifficultyName(d)) ==
              match d case Easy => EasyColor case Medium => MediumColor case Hard => HardColor
    ensures ToLower(difficulty) !in {"easy", "medium", "hard"} ==> DifficultyColor(difficulty) == OtherColor
  {
    ToLowerIdempotent(difficulty);
    match d
    case Easy => assert ToLower("Easy") == "easy";
    case Medium => assert ToLower("Medium") == "medium";
    case Hard => assert ToLower("Hard") == "hard";
  }

  /** `x || n` on a number: 0 falls back to `n`. */
  function NumberOr(x: int, n: int): int {
    if x != 0 then x else n
  }

  /** What the tile shows. */
  datatype Tile = Tile(
    image: string,
    alt: string,
    difficultyBadge: string,
    difficultyClass: string,
    categoryBadge: string,
    categoryClass: string,
    title: string,
    description: string,
    link: string,
    totalMinutes: int,
    servings: int)

  /** The tile of a recipe, or nothing for a null one. */
  function RenderTile(r: Option<Recipe>): Option<Tile> {
    if r.None? then None
    else
      var x := r.value;
      var difficulty := OrElse(Some(DifficultyName(x.difficulty)), "Easy");
      var category := OrElse(Some(x.category), "Main Course");
      Some(Tile(OrElse(Some(x.image), "/placeholder.svg"), OrElse(Some(x.title), "Recipe"),
                difficulty, DifficultyColor(difficulty), category, CategoryColor(category),
                OrElse(Some(x.title), "Untitled Recipe"), OrElse(Some(x.description), "No description available"),
                "/recipe/" + x.id, NumberOr(x.prepTime, 0) + NumberOr(x.cookTime, 0), NumberOr(x.servings, 1)))
  }

  /** A null recipe shows nothing. Otherwise the time is prep plus cook time,
      servings of 0 show as 1, an empty category is shown and coloured as
      "Main Course", and recipes of the same category get the same colour. */
  lemma RenderTileCorrect(r: Option<Recipe>, q: Recipe)
    ensures RenderTile(r).None? <==> r.None?
    ensures r.Some? ==>
              var t := RenderTile(r).value;
              && t.totalMinutes == r.value.prepTime + r.value.cookTime
              && t.servings == (if r.value.servings == 0 then 1 else r.value.servings)
              && t.categoryBadge == (if r.value.category == "" then "Main Course" else r.value.category)
              && t.categoryClass == CategoryColor(t.categoryBadge)
              && t.difficultyBadge == DifficultyName(r.value.difficulty)
              && t.link == "/recipe/" + r.value.id
    ensures r.Some? && q.category == r.value.category ==>
              RenderTile(Some(q)).value.categoryClass == RenderTile(r).value.categoryClass
  {
  }
}
