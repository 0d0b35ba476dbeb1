/** The admin list of featured recipes in components/featured-recipes-manager.tsx:
    the recipes that may still be added under the search term, and the position
    requests of the move buttons. The requests themselves go to the server and
    are left out; only what they ask for is modelled. */
module FeaturedManager {
  import opened Common
  import opened Strings

  /** The fields of a database recipe the derivation reads. */
  datatype ListedRecipe = ListedRecipe(id: int, title: string, category: string)

  datatype FeaturedEntry = FeaturedEntry(id: int, recipeId: int, position: int, isActive: bool)

  /** The title or the category contains the term, ignoring case. */
  predicate MatchesTerm(r: ListedRecipe, term: string) {
    Contains(ToLower(r.title), ToLower(term)) || Contains(ToLower(r.category), ToLower(term))
  }

  /** `filteredRecipes`. */
  function FilteredRecipes(all: seq<ListedRecipe>, term: string): seq<ListedRecipe> {
    Keep(all, (r: ListedRecipe) => MatchesTerm(r, term))
  }

  /** `featuredRecipeIds.has(id)`: some featured entry points at the recipe. */
  predicate IsFeatured(featured: seq<FeaturedEntry>, id: int) {
    exists i | 0 <= i < |featured| :: featured[i].recipeId == id
  }

  /** `availableRecipes`: the filtered recipes that are not featured yet. */
  function AvailableRecipes(all: seq<ListedRecipe>, featured: seq<FeaturedEntry>, term: string): seq<ListedRecipe> {
    Keep(FilteredRecipes(all, term), (r: ListedRecipe) => !IsFeatured(featured, r.id))
  }

  /** A recipe can be added exactly when it matches the term and no featured
      entry points at it; the list keeps the order of all recipes, and the
      empty term keeps every recipe. */
  lemma AvailableRecipesCorrect(all: seq<ListedRecipe>, featured: seq<FeaturedEntry>, term: string)
    ensures forall r :: r in AvailableRecipes(all, featured, term) <==>
              r in all && MatchesTerm(r, term) && !IsFeatured(featured, r.id)
    ensures AvailableRecipes(all, featured, term) ==
              Keep(all, (r: ListedRecipe) => MatchesTerm(r, term) && !IsFeatured(featured, r.id))
    ensures FilteredRecipes(all, "") == all
  {
    KeepKeep(all, (r: ListedRecipe) => MatchesTerm(r, term), (r: ListedRecipe) => !IsFeatured(featured, r.id),
             (r: ListedRecipe) => MatchesTerm(r, term) && !IsFeatured(featured, r.id));
    forall r | r in all ensures MatchesTerm(r, "") {
      assert ToLower("") == "";
      ContainsEmpty(ToLower(r.title));
    }
    KeepAll(all, (r: ListedRecipe) => MatchesTerm(r, ""));
  }

  /** The request a move button sends: the entry and its new position. */
  datatype PositionRequest = UpdatePosition(id: int, position: int)

  /** `handleMoveUp`: nothing at position 0 or below, otherwise one up. */
  function MoveUp(id: int, position: int): Option<PositionRequest> {
    if position <= 0 then None else Some(UpdatePosition(id, position - 1))
  }

  /** `handleMoveDown`: always one down, with no upper bound. */
  function MoveDown(id: int, position: int): PositionRequest {
    UpdatePosition(id, position + 1)
  }

  /** Up and down undo each other wherever up sends a request, and up never
      asks for a negative position. */
  lemma MovesInverse(id: int, position: int)
    ensures MoveUp(id, position).Some? <==> position > 0
    ensures MoveUp(id, position).Some? ==>
              MoveUp(id, position).value.position >= 0
              && MoveDown(id, MoveUp(id, position).value.position).position == position
    ensures position >= 0 ==> MoveUp(id, MoveDown(id, position).position) == Some(UpdatePosition(id, position))
  {
  }

  /** The badge of each featured row: "#1", "#2", … in list order. */
  function RowLabels(featured: seq<FeaturedEntry>): (labels: seq<string>)
    ensures |labels| == |featured|
  {
    seq(|featured|, i requires 0 <= i < |featured| => "#" + NatToString(i + 1))
  }

  /** The labels only depend on the number of rows, not on their stored
      positions, and no two rows share one. */
  lemma RowLabelsCorrect(f: seq<FeaturedEntry>, g: seq<FeaturedEntry>)
    ensures |f| == |g| ==> RowLabels(f) == RowLabels(g)
    ensures forall i, j :: 0 <= i < j < |f| ==> RowLabels(f)[i] != RowLabels(f)[j]
  {
    forall i, j | 0 <= i < j < |f| ensures RowLabels(f)[i] != RowLabels(f)[j] {
      NatToStringInjective(i + 1, j + 1);
      assert RowLabels(f)[i][1..] == NatToString(i + 1);
      assert RowLabels(f)[j][1..] == NatToString(j + 1);
    }
  }
}
