/** The header search box of components/recipe-search.tsx: typing a term
    recomputes the dropdown of matching recipes, and one secret phrase opens the
    admin login instead. */
module RecipeSearch {
  import opened Common
  import opened Strings
  import opened RecipeModel

  /** The phrase that opens the admin login. */
  const SecretPhrase: string := "ilovecookingbecauseilovecooking"

  const AdminLogin: string := "/admin/login"

  /** The dropdown's results: the recipes whose title, category, some ingredient
      or description contains the term, ignoring case. */
  function SearchResults(all: seq<Recipe>, term: string): seq<Recipe> {
    Keep(all, (r: Recipe) => MatchesSearch(r, term))
  }

  /** The results are the matching recipes, each as often as in the list and in
      list order, and a term that matches every recipe returns the whole list. */
  lemma SearchResultsCorrect(all: seq<Recipe>, term: string)
    ensures forall r :: r in SearchResults(all, term) <==> r in all && MatchesSearch(r, term)
    ensures multiset(SearchResults(all, term)) <= multiset(all)
    ensures (forall r :: r in all ==> MatchesSearch(r, term)) ==> SearchResults(all, term) == all
  {
    if forall r :: r in all ==> MatchesSearch(r, term) {
      KeepAll(all, (r: Recipe) => MatchesSearch(r, term));
    }
  }

  /** The secret phrase is not blank, so it never reaches the blank case. */
  lemma SecretPhraseNotBlank(term: string)
    ensures ToLower(term) == SecretPhrase ==> |term| == |SecretPhrase|
    ensures !IsBlank(SecretPhrase)
  {
    assert !IsWhitespace(SecretPhrase[0]);
    BlankIffAllWhitespace(SecretPhrase);
  }

  class SearchBox {
    var allRecipes: seq<Recipe>
    var searchTerm: string
    var searchResults: seq<Recipe>
    var showResults: bool
    /** Where the router was sent, if anywhere. */
    var navigatedTo: Option<string>

    constructor()
      ensures allRecipes == [] && searchTerm == "" && searchResults == [] && !showResults && navigatedTo.None?
    {
      allRecipes := [];
      searchTerm := "";
      searchResults := [];
      showResults := false;
      navigatedTo := None;
    }

    /** The search effect, run whenever the term or the recipes change: the
        secret phrase navigates and leaves the dropdown alone; a blank term
        empties and hides it; any other term fills and shows it, even with no
        match. */
    method RunSearch()
      modifies this
      ensures allRecipes == old(allRecipes) && searchTerm == old(searchTerm)
      ensures ToLower(searchTerm) == SecretPhrase ==>
                navigatedTo == Some(AdminLogin) && searchResults == old(searchResults) && showResults == old(showResults)
      ensures ToLower(searchTerm) != SecretPhrase && IsBlank(searchTerm) ==>
                searchResults == [] && !showResults && navigatedTo == old(navigatedTo)
      ensures ToLower(searchTerm) != SecretPhrase && !IsBlank(searchTerm) ==>
                searchResults == SearchResults(allRecipes, searchTerm) && showResults && navigatedTo == old(navigatedTo)
    {
      if ToLower(searchTerm) == SecretPhrase {
        navigatedTo := Some(AdminLogin);
        return;
      }
      if Trim(searchTerm) == "" {
        searchResults := [];
        showResults := false;
        return;
      }
      searchResults := SearchResults(allRecipes, searchTerm);
      showResults := true;
    }

    /** The mount effect loads the recipes, and the search runs again. */
    method Mount(recipes: seq<Recipe>)
      modifies this
      ensures allRecipes == recipes && searchTerm == old(searchTerm)
      ensures ToLower(searchTerm) != SecretPhrase && !IsBlank(searchTerm) ==>
                searchResults == SearchResults(recipes, searchTerm) && showResults
    {
      allRecipes := recipes;
      RunSearch();
    }

    /** Typing: the term changes and the search runs. */
    method Type(term: string)
      modifies this
      ensures searchTerm == term && allRecipes == old(allRecipes)
      ensures ToLower(term) != SecretPhrase && IsBlank(term) ==> searchResults == [] && !showResults
      ensures ToLower(term) != SecretPhrase && !IsBlank(term) ==>
                searchResults == SearchResults(allRecipes, term) && showResults
      ensures ToLower(term) == SecretPhrase ==> navigatedTo == Some(AdminLogin)
    {
      searchTerm := term;
      RunSearch();
    }

    /** `handleClearSearch`. */
    method ClearSearch()
      modifies this
      ensures searchTerm == "" && searchResults == [] && !showResults
      ensures allRecipes == old(allRecipes) && navigatedTo == old(navigatedTo)
    {
      searchTerm := "";
      searchResults := [];
      showResults := false;
    }

    /** `handleResultClick`: hide the dropdown and empty the term; the results
        stay until the effect empties them for the blank term. */
    method ResultClick()
      modifies this
      ensures searchTerm == "" && !showResults
      ensures allRecipes == old(allRecipes) && searchResults == old(searchResults) && navigatedTo == old(navigatedTo)
    {
      showResults := false;
      searchTerm := "";
    }
  }
}
