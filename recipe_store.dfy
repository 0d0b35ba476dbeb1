/** The browser-side recipe store of lib/recipes.ts: a list of recipes kept under
    the localStorage key "recipes", falling back to the built-in catalogue
    (lib/complete-recipes, a parameter here) when nothing is stored or when the
    code runs on the server. */
module RecipeStore {
  import opened Common
  import opened Strings
  import opened RecipeModel

  /** `Partial<Recipe>`: the fields an update supplies. */
  datatype RecipePatch = RecipePatch(
    id: Option<string>,
    title: Option<string>,
    description: Option<string>,
    image: Option<string>,
    prepTime: Option<int>,
    cookTime: Option<int>,
    servings: Option<int>,
    difficulty: Option<Difficulty>,
    ingredients: Option<seq<string>>,
    instructions: Option<seq<string>>,
    category: Option<string>,
    createdAt: Option<int>,
    story: Option<string>)

  const NoChange: RecipePatch :=
    RecipePatch(None, None, None, None, None, None, None, None, None, None, None, None, None)

  /** `{ ...r, ...patch }`: every supplied field replaces the recipe's. */
  function Merge(r: Recipe, p: RecipePatch): Recipe {
    Recipe(p.id.GetOr(r.id), p.title.GetOr(r.title), p.description.GetOr(r.description),
           p.image.GetOr(r.image), p.prepTime.GetOr(r.prepTime), p.cookTime.GetOr(r.cookTime),
           p.servings.GetOr(r.servings), p.difficulty.GetOr(r.difficulty),
           p.ingredients.GetOr(r.ingredients), p.instructions.GetOr(r.instructions),
           p.category.GetOr(r.category), p.createdAt.GetOr(r.createdAt),
           if p.story.Some? then p.story else r.story)
  }

  /** A patch that supplies nothing leaves the recipe as it is, and applying the
      same patch twice is applying it once. */
  lemma MergeNeutralAndIdempotent(r: Recipe, p: RecipePatch)
    ensures Merge(r, NoChange) == r
    ensures Merge(Merge(r, p), p) == Merge(r, p)
  {
  }

  /** The patch wins: a supplied field takes the patch's value, an absent one keeps
      the recipe's. */
  lemma MergePatchWins(r: Recipe, p: RecipePatch)
    ensures Merge(r, p).title == (if p.title.Some? then p.title.value else r.title)
    ensures Merge(r, p).id == (if p.id.Some? then p.id.value else r.id)
    ensures Merge(r, p).ingredients == (if p.ingredients.Some? then p.ingredients.value else r.ingredients)
    ensures p.story.None? ==> Merge(r, p).story == r.story
  {
  }

  /** `findIndex(r => r.id === id)`: the position of the first recipe with the id. */
  function FindIndex(rs: seq<Recipe>, id: string): (k: Option<nat>)
    ensures k.None? <==> forall i :: 0 <= i < |rs| ==> rs[i].id != id
    ensures k.Some? ==> && k.value < |rs| && rs[k.value].id == id
                        && forall j :: 0 <= j < k.value ==> rs[j].id != id
  {
    if rs == [] then None
    else if rs[0].id == id then Some(0)
    else
      var rest := FindIndex(rs[1..], id);
      assert forall j :: 0 < j < |rs| ==> rs[j] == rs[1..][j - 1];
      if rest.None? then None else Some(rest.value + 1)
  }

  /** `filter(r => r.id !== id)`. */
  function WithoutId(rs: seq<Recipe>, id: string): seq<Recipe> {
    Keep(rs, (r: Recipe) => r.id != id)
  }

  /** Removing an id drops exactly the entries with it: the list shrinks exactly
      when some entry has the id, and every other entry stays. */
  lemma WithoutIdCorrect(rs: seq<Recipe>, id: string)
    ensures forall r :: r in WithoutId(rs, id) <==> r in rs && r.id != id
    ensures |WithoutId(rs, id)| == |rs| <==> FindIndex(rs, id).None?
    ensures FindIndex(rs, id).None? ==> WithoutId(rs, id) == rs
  {
    var p := (r: Recipe) => r.id != id;
    KeepLengthIff(rs, p);
    if FindIndex(rs, id).None? {
      KeepAll(rs, p);
    } else {
      assert rs[FindIndex(rs, id).value] in rs;
    }
  }

  /** The store: the built-in catalogue, which `updateRecipe` can write into when
      `getRecipes` handed it out, and the stored list. */
  class Store {
    const onServer: bool
    var catalogue: seq<Recipe>
    var stored: Option<seq<Recipe>>

    constructor(onServer: bool, catalogue: seq<Recipe>, stored: Option<seq<Recipe>>)
      ensures this.onServer == onServer && this.catalogue == catalogue && this.stored == stored
    {
      this.onServer := onServer;
      this.catalogue := catalogue;
      this.stored := stored;
    }

    /** Whether `getRecipes` hands out the catalogue itself rather than a parsed copy. */
    predicate ServesCatalogue()
      reads this
    {
      onServer || stored.None?
    }

    /** `getRecipes`: the stored list, or the catalogue on the server or when
        nothing is stored. */
    function Recipes(): (rs: seq<Recipe>)
      reads this
      ensures ServesCatalogue() ==> rs == catalogue
      ensures !ServesCatalogue() ==> rs == stored.value
    {
      if onServer then catalogue else stored.GetOr(catalogue)
    }

    /** `saveRecipes`: store the list, except on the server. */
    method SaveRecipes(recipes: seq<Recipe>)
      modifies this
      ensures catalogue == old(catalogue)
      ensures stored == if onServer then old(stored) else Some(recipes)
      ensures !onServer ==> Recipes() == recipes
    {
      if onServer {
        return;
      }
      stored := Some(recipes);
    }

    /** `addRecipe`: the new recipe takes its id from the clock (`Date.now()`, the
        parameter `now`) and its creation stamp from `today`, and goes at the end. */
    method AddRecipe(fields: Recipe, now: nat, today: int) returns (r: Recipe)
      modifies this
      ensures r == fields.(id := NatToString(now), createdAt := today)
      ensures catalogue == old(catalogue)
      ensures stored == if onServer then old(stored) else Some(old(Recipes()) + [r])
      ensures !onServer ==> Recipes() == old(Recipes()) + [r]
    {
      var recipes := Recipes();
      r := fields.(id := NatToString(now), createdAt := today);
      SaveRecipes(recipes + [r]);
    }

    /** `updateRecipe`: merge the patch into the first recipe with the id, writing
        into the list `getRecipes` returned (the catalogue itself when it returned
        that), and store the list. With no such recipe nothing changes. */
    method UpdateRecipe(id: string, patch: RecipePatch) returns (r: Option<Recipe>)
      modifies this
      ensures FindIndex(old(Recipes()), id).None? ==>
                r.None? && catalogue == old(catalogue) && stored == old(stored)
      ensures FindIndex(old(Recipes()), id).Some? ==>
                var i := FindIndex(old(Recipes()), id).value;
                var updated := old(Recipes())[i := Merge(old(Recipes())[i], patch)];
                && r == Some(Merge(old(Recipes())[i], patch))
                && catalogue == (if old(ServesCatalogue()) then updated else old(catalogue))
                && stored == (if onServer then old(stored) else Some(updated))
                && Recipes() == updated
    {
      var recipes := Recipes();
      var index := FindIndex(recipes, id);
      if index.None? {
        return None;
      }
      var updatedRecipe := Merge(recipes[index.value], patch);
      recipes := recipes[index.value := updatedRecipe];
      if ServesCatalogue() {
        catalogue := recipes;
      }
      SaveRecipes(recipes);
      r := Some(updatedRecipe);
    }

    /** `deleteRecipe`: drop every recipe with the id and store the rest; report
        false, storing nothing, when no recipe has it. */
    method DeleteRecipe(id: string) returns (deleted: bool)
      modifies this
      ensures deleted <==> FindIndex(old(Recipes()), id).Some?
      ensures catalogue == old(catalogue)
      ensures stored == if deleted && !onServer then Some(WithoutId(old(Recipes()), id)) else old(stored)
    {
      var recipes := Recipes();
      var filtered := WithoutId(recipes, id);
      WithoutIdCorrect(recipes, id);
      if |filtered| == |recipes| {
        return false;
      }
      SaveRecipes(filtered);
      deleted := true;
    }

    /** `getRecipeById`: the first recipe with the id. */
    function RecipeById(id: string): (r: Option<Recipe>)
      reads this
      ensures r.None? <==> forall x :: x in Recipes() ==> x.id != id
      ensures r.Some? ==> r.value in Recipes() && r.value.id == id
      ensures r.Some? ==> exists i :: 0 <= i < |Recipes()| && Recipes()[i] == r.value
                                   && forall j :: 0 <= j < i ==> Recipes()[j].id != id
    {
      var rs := Recipes();
      var k := FindIndex(rs, id);
      if k.None? then None
      else Some(rs[k.value])
    }
  }
}
