/** The ingredient-guessing game of components/cooking-game.tsx. A round shows the
    ingredients of one recipe mixed with distractors; each guess scores or costs
    time, and a one-second tick runs the clock down to the end of the session.
    The recipe and ingredient catalogues (lib/game-recipes) are parameters, and
    each random choice the component makes is an argument of the event that
    makes it. */
module CookingGame {
  import opened Common
  import opened Strings
  import opened RecipeModel

  /** A recipe of the game catalogue; `name` identifies it in "specific" mode. */
  datatype GameRecipe = GameRecipe(name: string, difficulty: Difficulty, ingredients: seq<string>)

  datatype GameMode = RandomMode | DifficultyMode | SpecificMode

  /** The difficulty selector: one level, or "All". */
  datatype DifficultyChoice = All | Only(level: Difficulty)

  /** `getFilteredRecipes`: the catalogue, or the recipes of the chosen level. */
  function FilteredRecipes(recipes: seq<GameRecipe>, choice: DifficultyChoice): (r: seq<GameRecipe>)
    ensures |r| <= |recipes|
    ensures forall g :: g in r <==> g in recipes && (choice.All? || g.difficulty == choice.level)
  {
    match choice
    case All => recipes
    case Only(d) => Keep(recipes, (g: GameRecipe) => g.difficulty == d)
  }

  /** `recipes.find(r => r.name === name)`: the first recipe with that name. */
  function FindByName(recipes: seq<GameRecipe>, name: string): (r: Option<GameRecipe>)
    ensures r.None? <==> forall i :: 0 <= i < |recipes| ==> recipes[i].name != name
    ensures r.Some? ==> exists i :: 0 <= i < |recipes| && recipes[i] == r.value && r.value.name == name
                               && forall j :: 0 <= j < i ==> recipes[j].name != name
  {
    if recipes == [] then None
    else if recipes[0].name == name then Some(recipes[0])
    else
      var rest := FindByName(recipes[1..], name);
      if rest.Some? then
        ghost var i :| 0 <= i < |recipes| - 1 && recipes[1..][i] == rest.value && rest.value.name == name
                       && forall j :: 0 <= j < i ==> recipes[1..][j].name != name;
        assert recipes[i + 1] == rest.value;
        assert forall j :: 0 <= j < i + 1 ==> recipes[j].name != name by {
          forall j | 0 <= j < i + 1 ensures recipes[j].name != name {
            if j > 0 {
              assert recipes[j] == recipes[1..][j - 1];
            }
          }
        }
        rest
      else
        assert forall i :: 0 <= i < |recipes| ==> recipes[i].name != name by {
          forall i | 0 <= i < |recipes| ensures recipes[i].name != name {
            if i > 0 {
              assert recipes[i] == recipes[1..][i - 1];
            }
          }
        }
        None
  }

  /** The list a round draws its recipe from at random, or None when the mode
      names the recipe ("specific" with a selection; with an empty selection the
      specific mode falls through to a random draw). */
  function DrawPool(mode: GameMode, choice: DifficultyChoice, selected: string, recipes: seq<GameRecipe>)
    : (r: Option<seq<GameRecipe>>)
    ensures r.None? <==> mode == SpecificMode && selected != ""
    ensures r.Some? ==> |r.value| <= |recipes| && forall x :: x in r.value ==> x in recipes
  {
    if mode == SpecificMode && selected != "" then None
    else if mode == DifficultyMode then Some(FilteredRecipes(recipes, choice))
    else Some(recipes)
  }

  /** The recipe `startNewRound` plays. `pick` is `Math.floor(Math.random() * n)`
      for the list it draws from; the source indexes that list with it, so the
      list must not be empty. */
  function ChooseRecipe(mode: GameMode, choice: DifficultyChoice, selected: string,
                        recipes: seq<GameRecipe>, pick: nat): GameRecipe
    requires |recipes| > 0
    requires DrawPool(mode, choice, selected, recipes).Some? ==> pick < |DrawPool(mode, choice, selected, recipes).value|
  {
    match DrawPool(mode, choice, selected, recipes)
    case None => FindByName(recipes, selected).GetOr(recipes[0])
    case Some(pool) => pool[pick]
  }

  /** Which recipe each mode plays. */
  lemma ChooseRecipeCorrect(mode: GameMode, choice: DifficultyChoice, selected: string,
                            recipes: seq<GameRecipe>, pick: nat)
    requires |recipes| > 0
    requires DrawPool(mode, choice, selected, recipes).Some? ==> pick < |DrawPool(mode, choice, selected, recipes).value|
    ensures ChooseRecipe(mode, choice, selected, recipes, pick) in recipes
    ensures mode == SpecificMode && selected != "" ==>
              if exists i :: 0 <= i < |recipes| && recipes[i].name == selected
              then ChooseRecipe(mode, choice, selected, recipes, pick).name == selected
              else ChooseRecipe(mode, choice, selected, recipes, pick) == recipes[0]
    ensures mode == DifficultyMode && choice.Only? ==>
              ChooseRecipe(mode, choice, selected, recipes, pick).difficulty == choice.level
    ensures mode == RandomMode || (mode == SpecificMode && selected == "") ==>
              ChooseRecipe(mode, choice, selected, recipes, pick) == recipes[pick]
  {
    var pool := DrawPool(mode, choice, selected, recipes);
    if pool.Some? {
      assert pool.value[pick] in pool.value;
    }
  }

  /** `allIngredients.filter(ing => !correct.includes(ing))`. */
  function WrongIngredients(all: seq<string>, correct: seq<string>): (r: seq<string>)
    ensures forall x :: x in r <==> x in all && x !in correct
  {
    Keep(all, (x: string) => x !in correct)
  }

  /** How many distractors a round of `n` ingredients is meant to show: up to 8,
      and no more than fill the board to 15 buttons. */
  function DistractorCount(n: nat): (k: nat)
    ensures k <= 8
  {
    Max(0, Min(8, 15 - n))
  }

  /** The distractor slice as written: `slice(0, Math.min(8, 15 - n))`, whose end
      is negative once the recipe has more than 15 ingredients. */
  function DistractorSliceAsWritten(shuffled: seq<string>, n: nat): (r: seq<string>)
    ensures r <= shuffled
  {
    SlicePrefix(shuffled, Min(8, 15 - n))
  }

  /** With more than 15 ingredients the negative end counts from the back of the
      shuffled list, so nearly every non-recipe ingredient is shown. */
  lemma DistractorSliceAsWrittenOverfills(shuffled: seq<string>, n: nat)
    requires n > 15
    ensures |DistractorSliceAsWritten(shuffled, n)| == Max(0, |shuffled| - (n - 15))
  {
  }

  /** A recipe of 16 ingredients with 20 others in the catalogue gets 19
      distractors, where the board is meant to get none. */
  lemma DistractorSliceAsWrittenCounterexample(shuffled: seq<string>)
    requires |shuffled| == 20
    ensures |DistractorSliceAsWritten(shuffled, 16)| == 19
    ensures DistractorCount(16) == 0
  {
    DistractorSliceAsWrittenOverfills(shuffled, 16);
  }

  /** The distractors a round shows: the first `DistractorCount(n)` of the shuffled
      non-recipe ingredients, or all of them when there are fewer. */
  function Distractors(shuffled: seq<string>, n: nat): (r: seq<string>)
    ensures r <= shuffled
    ensures |r| == Min(DistractorCount(n), |shuffled|)
  {
    SlicePrefix(shuffled, DistractorCount(n))
  }

  /** With at most 15 ingredients the two slices agree, so the correction only
      changes rounds of larger recipes. */
  lemma DistractorsAgreeUpTo15(shuffled: seq<string>, n: nat)
    requires n <= 15
    ensures Distractors(shuffled, n) == DistractorSliceAsWritten(shuffled, n)
  {
  }

  /** The board of a round never holds more than 8 distractors, nor more than 15
      buttons unless the recipe alone has more. */
  lemma DistractorsBounded(shuffled: seq<string>, n: nat)
    ensures |Distractors(shuffled, n)| <= 8
    ensures n + |Distractors(shuffled, n)| <= Max(n, 15)
  {
  }

  /** What a round's board is made of: `shuffled` is the random reordering of the
      non-recipe ingredients and `mixed` the random reordering of the recipe's
      ingredients followed by the distractors. */
  ghost predicate IsRoundBoard(all: seq<string>, correct: seq<string>, shuffled: seq<string>, mixed: seq<string>) {
    && multiset(shuffled) == multiset(WrongIngredients(all, correct))
    && multiset(mixed) == multiset(correct + Distractors(shuffled, |correct|))
  }

  /** The board a player sees during a round of `recipe`: every ingredient of the
      recipe is on it, everything else on it comes from the catalogue, and it has
      at most 15 buttons unless the recipe alone has more. */
  ghost predicate BoardShows(recipe: GameRecipe, board: seq<string>, all: seq<string>) {
    && (forall x :: x in recipe.ingredients ==> x in board)
    && (forall x :: x in board ==> x in recipe.ingredients || x in all)
    && |board| <= Max(|recipe.ingredients|, 15)
  }

  lemma RoundBoardCorrect(all: seq<string>, recipe: GameRecipe, shuffled: seq<string>, mixed: seq<string>)
    requires IsRoundBoard(all, recipe.ingredients, shuffled, mixed)
    ensures BoardShows(recipe, mixed, all)
    ensures |mixed| == |recipe.ingredients| + Min(DistractorCount(|recipe.ingredients|), |WrongIngredients(all, recipe.ingredients)|)
    ensures forall x :: x in mixed && x !in recipe.ingredients ==> x in WrongIngredients(all, recipe.ingredients)
  {
    var correct := recipe.ingredients;
    var d := Distractors(shuffled, |correct|);
    assert |mixed| == |multiset(mixed)| == |correct + d|;
    assert |shuffled| == |multiset(shuffled)| == |WrongIngredients(all, correct)|;
    DistractorsBounded(shuffled, |correct|);
    forall x | x in correct ensures x in mixed {
      assert x in multiset(correct + d);
    }
    forall x | x in mixed ensures x in correct || x in WrongIngredients(all, correct) {
      assert x in multiset(correct + d);
      assert x in correct + d;
      if x !in correct {
        assert x in d;
        assert x in shuffled;
        assert x in multiset(shuffled);
      }
    }
  }

  /** `basePoints`: 15 for a hard recipe, 10 for a medium one, 5 otherwise. */
  function BasePoints(d: Difficulty): int {
    match d
    case Hard => 15
    case Medium => 10
    case Easy => 5
  }

  /** `timeBonus`: 5 with more than 45 seconds left, 3 with more than 30, else 1. */
  function TimeBonus(timeLeft: int): int {
    if timeLeft > 45 then 5 else if timeLeft > 30 then 3 else 1
  }

  /** The points of a correct guess: base, streak bonus and time bonus. */
  function GuessPoints(d: Difficulty, streak: int, timeLeft: int): int {
    BasePoints(d) + streak * 2 + TimeBonus(timeLeft)
  }

  /** Points grow with the difficulty, the streak and the time left. */
  lemma GuessPointsOrdered(d: Difficulty, e: Difficulty, s: int, s': int, t: int, t': int)
    ensures 6 + 2 * s <= GuessPoints(d, s, t) <= 20 + 2 * s
    ensures LevelOrder(d) <= LevelOrder(e) && s <= s' && t <= t' ==>
              GuessPoints(d, s, t) <= GuessPoints(e, s', t')
  {
  }

  /** Easy, Medium, Hard as 1, 2, 3: an order on the levels that exists only to
      state that points grow with difficulty; the game itself ranks nothing. */
  function LevelOrder(d: Difficulty): int {
    match d
    case Easy => 1
    case Medium => 2
    case Hard => 3
  }

  /** `Math.floor(timeLeft / 2) * 10`. Dafny's division by a positive divisor
      rounds down, as `Math.floor` does. */
  function CompletionBonus(timeLeft: int): int {
    (timeLeft / 2) * 10
  }

  /** The bonus is ten points per two whole seconds: a multiple of 10, at most
      5 points per second left and less than 10 below that. */
  lemma CompletionBonusBounds(timeLeft: int)
    ensures CompletionBonus(timeLeft) % 10 == 0
    ensures 5 * timeLeft - 10 < CompletionBonus(timeLeft) <= 5 * timeLeft
    ensures timeLeft > 1 ==> CompletionBonus(timeLeft) < timeLeft * 10
  {
  }

  /** The completion test: the guesses that are ingredients of the recipe are as
      many as the recipe's ingredient lines. */
  predicate Completes(recipe: GameRecipe, guessed: seq<string>) {
    |Keep(guessed, (g: string) => g in recipe.ingredients)| == |recipe.ingredients|
  }

  /** With guesses that never repeat, the test holds exactly when every ingredient
      has been guessed and no ingredient line repeats; a recipe listing one
      ingredient twice can never be completed. */
  lemma {:induction false} CompletesIff(recipe: GameRecipe, guessed: seq<string>)
    requires Distinct(guessed)
    ensures Completes(recipe, guessed) <==>
              Distinct(recipe.ingredients) && forall x :: x in recipe.ingredients ==> x in guessed
  {
    var ing := recipe.ingredients;
    var kept := Keep(guessed, (g: string) => g in ing);
    KeepDistinct(guessed, (g: string) => g in ing);
    ElementsCard(kept);
    ElementsCard(ing);
    assert Elements(kept) <= Elements(ing);
    if |kept| == |ing| {
      SubsetOfEqualSize(Elements(kept), Elements(ing));
      forall x | x in ing ensures x in guessed {
        assert x in Elements(ing);
      }
    }
    if Distinct(ing) && forall x :: x in ing ==> x in guessed {
      assert Elements(kept) == Elements(ing);
    }
  }

  /** A rating line of the results screen. */
  datatype Rating = Rating(text: string, color: string)

  /** The seven ratings from lowest to highest. */
  const Ratings: seq<Rating> := [
    Rating("Keep Practicing! \U{1F4D6}", "text-gray-600"),
    Rating("Kitchen Helper! \U{1F4DA}", "text-gray-600"),
    Rating("Good Cook! \U{1F944}", "text-purple-600"),
    Rating("Skilled Chef! \U{1F44D}", "text-blue-600"),
    Rating("Expert Cook! \U{1F31F}", "text-green-600"),
    Rating("Master Chef! \U{1F468}\U{200D}\U{1F373}", "text-yellow-600"),
    Rating("Legendary Chef! \U{1F451}", "text-yellow-600")
  ]

  /** The score each rating above the lowest starts at. */
  const Thresholds: seq<int> := [50, 100, 200, 300, 400, 500]

  /** `getScoreRating`, as its chain of tests. */
  function ScoreRating(score: int): (r: Rating)
    ensures r in Ratings
  {
    if score >= 500 then Ratings[6]
    else if score >= 400 then Ratings[5]
    else if score >= 300 then Ratings[4]
    else if score >= 200 then Ratings[3]
    else if score >= 100 then Ratings[2]
    else if score >= 50 then Ratings[1]
    else Ratings[0]
  }

  /** A score gets the `k`-th rating exactly when it has reached the `k`-th
      threshold and not the next one. */
  lemma ScoreRatingTiers(score: int, k: nat)
    requires k < |Ratings|
    ensures ScoreRating(score) == Ratings[k] <==>
              (k == 0 || Thresholds[k - 1] <= score) && (k == |Thresholds| || score < Thresholds[k])
  {
    RatingsDistinct();
  }

  lemma RatingsDistinct()
    ensures forall i, j :: 0 <= i < j < |Ratings| ==> Ratings[i] != Ratings[j]
  {
    forall i, j | 0 <= i < j < |Ratings| ensures Ratings[i] != Ratings[j] {
      assert Ratings[i].text[0] != Ratings[j].text[0] || Ratings[i].text[1] != Ratings[j].text[1];
    }
  }

  /** A higher score never gets a lower rating. */
  lemma ScoreRatingMonotone(s: int, t: int, i: nat, j: nat)
    requires s <= t
    requires i < |Ratings| && j < |Ratings|
    requires ScoreRating(s) == Ratings[i] && ScoreRating(t) == Ratings[j]
    ensures i <= j
  {
    ScoreRatingTiers(s, i);
    ScoreRatingTiers(t, j);
  }

  /** The whole state of the component, for stating what an event changes. */
  datatype Session = Session(
    gameMode: GameMode,
    selectedDifficulty: DifficultyChoice,
    selectedRecipe: string,
    currentRecipe: Option<GameRecipe>,
    guessed: seq<string>,
    available: seq<string>,
    score: int,
    timeLeft: int,
    gameActive: bool,
    gameCompleted: bool,
    streak: int,
    recipesCompleted: int)

  /** What every event keeps: the clock stays within 0..60 seconds, the counters
      are never negative, a session is never both running and finished, no
      ingredient is guessed twice, and the board of a round shows its recipe. */
  ghost predicate SessionValid(s: Session, recipes: seq<GameRecipe>, all: seq<string>) {
    && 0 <= s.timeLeft <= 60
    && 0 <= s.score && 0 <= s.streak && 0 <= s.recipesCompleted
    && !(s.gameActive && s.gameCompleted)
    && Distinct(s.guessed)
    && (s.currentRecipe.Some? ==>
          s.currentRecipe.value in recipes && BoardShows(s.currentRecipe.value, s.available, all))
  }

  /** `selectIngredient(ingredient)` from session `s`: the new session, and
      whether the source sets its 1.5-second timer that starts the next round. */
  function AfterGuess(s: Session, ingredient: string): (Session, bool) {
    if s.currentRecipe.None? || ingredient in s.guessed then (s, false)
    else
      var recipe := s.currentRecipe.value;
      var guessed := s.guessed + [ingredient];
      if ingredient in recipe.ingredients then
        var done := Completes(recipe, guessed);
        var bonus := if done then CompletionBonus(s.timeLeft) else 0;
        (s.(guessed := guessed,
            score := s.score + GuessPoints(recipe.difficulty, s.streak, s.timeLeft) + bonus,
            streak := s.streak + 1,
            recipesCompleted := s.recipesCompleted + (if done then 1 else 0)),
         done && s.timeLeft > 10)
      else
        (s.(guessed := guessed, streak := 0, timeLeft := Max(0, s.timeLeft - 5)), false)
  }

  /** Without a round, or for an ingredient already guessed, a guess changes nothing. */
  lemma GuessIgnored(s: Session, ingredient: string)
    requires s.currentRecipe.None? || ingredient in s.guessed
    ensures AfterGuess(s, ingredient) == (s, false)
  {
  }

  /** Any other guess is recorded at the end of the guesses, and the round, its
      board, the mode, the selections and the flags stay as they were. */
  lemma GuessRecorded(s: Session, ingredient: string)
    requires s.currentRecipe.Some? && ingredient !in s.guessed
    ensures var t := AfterGuess(s, ingredient).0;
            && t.guessed == s.guessed + [ingredient]
            && t.(guessed := s.guessed, score := s.score, streak := s.streak, timeLeft := s.timeLeft,
                  recipesCompleted := s.recipesCompleted) == s
  {
  }

  /** A correct guess scores at least 6 points plus twice the streak, extends the
      streak and keeps the clock; it counts a recipe, adds the completion bonus and
      schedules the next round only when it completes the recipe, the last with
      more than 10 seconds left. */
  lemma CorrectGuess(s: Session, ingredient: string)
    requires s.currentRecipe.Some? && ingredient !in s.guessed && s.timeLeft >= 0
    requires ingredient in s.currentRecipe.value.ingredients
    ensures var (t, next) := AfterGuess(s, ingredient);
            var done := Completes(s.currentRecipe.value, s.guessed + [ingredient]);
            && t.score >= s.score + 6 + 2 * s.streak
            && t.score == s.score + GuessPoints(s.currentRecipe.value.difficulty, s.streak, s.timeLeft)
                          + (if done then CompletionBonus(s.timeLeft) else 0)
            && t.streak == s.streak + 1
            && t.timeLeft == s.timeLeft
            && (t.recipesCompleted == s.recipesCompleted + 1 <==> done)
            && (t.recipesCompleted == s.recipesCompleted || t.recipesCompleted == s.recipesCompleted + 1)
            && (next <==> done && s.timeLeft > 10)
  {
    GuessPointsOrdered(s.currentRecipe.value.difficulty, Easy, s.streak, s.streak, s.timeLeft, 0);
    CompletionBonusBounds(s.timeLeft);
  }

  /** A wrong guess breaks the streak and costs 5 seconds but never drives the
      clock below zero; the score and the completed count stay. */
  lemma WrongGuess(s: Session, ingredient: string)
    requires s.currentRecipe.Some? && ingredient !in s.guessed
    requires ingredient !in s.currentRecipe.value.ingredients
    ensures var (t, next) := AfterGuess(s, ingredient);
            && t.score == s.score && t.recipesCompleted == s.recipesCompleted
            && t.streak == 0
            && t.timeLeft == (if s.timeLeft >= 5 then s.timeLeft - 5 else 0)
            && !next
  {
  }

  /** A guess keeps the session invariant, and the score never goes down. */
  lemma AfterGuessValid(s: Session, ingredient: string, recipes: seq<GameRecipe>, all: seq<string>)
    requires SessionValid(s, recipes, all)
    ensures SessionValid(AfterGuess(s, ingredient).0, recipes, all)
    ensures AfterGuess(s, ingredient).0.score >= s.score
  {
    if s.currentRecipe.Some? && ingredient !in s.guessed {
      var g := s.guessed + [ingredient];
      forall i, j | 0 <= i < j < |g| ensures g[i] != g[j] {
        if j == |s.guessed| {
          assert g[i] == s.guessed[i];
          assert s.guessed[i] in s.guessed;
        }
      }
      CompletionBonusBounds(s.timeLeft);
    }
  }

  /** The `CookingGame` component's state and the events that change it. */
  class GameSession {
    const gameRecipes: seq<GameRecipe>
    const allIngredients: seq<string>
    var gameMode: GameMode
    var selectedDifficulty: DifficultyChoice
    var selectedRecipe: string
    var currentRecipe: Option<GameRecipe>
    var guessed: seq<string>
    var available: seq<string>
    var score: int
    var timeLeft: int
    var gameActive: bool
    var gameCompleted: bool
    var streak: int
    var recipesCompleted: int

    function State(): Session
      reads this
    {
      Session(gameMode, selectedDifficulty, selectedRecipe, currentRecipe, guessed, available,
              score, timeLeft, gameActive, gameCompleted, streak, recipesCompleted)
    }

    ghost predicate Valid()
      reads this
    {
      SessionValid(State(), gameRecipes, allIngredients)
    }

    /** The initial state: random mode, all difficulties, 30 seconds on a clock
        that is not running. */
    constructor(gameRecipes: seq<GameRecipe>, allIngredients: seq<string>)
      ensures this.gameRecipes == gameRecipes && this.allIngredients == allIngredients
      ensures State() == Session(RandomMode, All, "", None, [], [], 0, 30, false, false, 0, 0)
      ensures Valid()
    {
      this.gameRecipes := gameRecipes;
      this.allIngredients := allIngredients;
      gameMode := RandomMode;
      selectedDifficulty := All;
      selectedRecipe := "";
      currentRecipe := None;
      guessed := [];
      available := [];
      score := 0;
      timeLeft := 30;
      gameActive := false;
      gameCompleted := false;
      streak := 0;
      recipesCompleted := 0;
    }

    method SetGameMode(mode: GameMode)
      requires Valid()
      modifies this
      ensures Valid()
      ensures State() == old(State()).(gameMode := mode)
    {
      gameMode := mode;
    }

    method SetSelectedDifficulty(choice: DifficultyChoice)
      requires Valid()
      modifies this
      ensures Valid()
      ensures State() == old(State()).(selectedDifficulty := choice)
    {
      selectedDifficulty := choice;
    }

    method SetSelectedRecipe(name: string)
      requires Valid()
      modifies this
      ensures Valid()
      ensures State() == old(State()).(selectedRecipe := name)
    {
      selectedRecipe := name;
    }

    /** The recipe the next round plays for a random index `pick`. */
    function NextRecipe(pick: nat): GameRecipe
      reads this
      requires |gameRecipes| > 0
      requires DrawPool(gameMode, selectedDifficulty, selectedRecipe, gameRecipes).Some? ==>
                 pick < |DrawPool(gameMode, selectedDifficulty, selectedRecipe, gameRecipes).value|
    {
      ChooseRecipe(gameMode, selectedDifficulty, selectedRecipe, gameRecipes, pick)
    }

    /** `startNewRound`: play the chosen recipe on a fresh board with no guesses.
        `pick` is the random index; `shuffled` and `mixed` are the two random
        reorderings the source makes with `sort(() => Math.random() - 0.5)`. */
    method StartNewRound(pick: nat, shuffled: seq<string>, mixed: seq<string>)
      requires Valid()
      requires |gameRecipes| > 0
      requires DrawPool(gameMode, selectedDifficulty, selectedRecipe, gameRecipes).Some? ==>
                 pick < |DrawPool(gameMode, selectedDifficulty, selectedRecipe, gameRecipes).value|
      requires IsRoundBoard(allIngredients, NextRecipe(pick).ingredients, shuffled, mixed)
      modifies this
      ensures Valid()
      ensures State() == old(State()).(currentRecipe := Some(old(NextRecipe(pick))), guessed := [], available := mixed)
    {
      var recipe := NextRecipe(pick);
      ChooseRecipeCorrect(gameMode, selectedDifficulty, selectedRecipe, gameRecipes, pick);
      RoundBoardCorrect(allIngredients, recipe, shuffled, mixed);
      currentRecipe := Some(recipe);
      guessed := [];
      available := mixed;
    }

    /** `startGame`: a running session with fresh counters and 60 seconds, and
        its first round. */
    method StartGame(pick: nat, shuffled: seq<string>, mixed: seq<string>)
      requires Valid()
      requires |gameRecipes| > 0
      requires DrawPool(gameMode, selectedDifficulty, selectedRecipe, gameRecipes).Some? ==>
                 pick < |DrawPool(gameMode, selectedDifficulty, selectedRecipe, gameRecipes).value|
      requires IsRoundBoard(allIngredients, NextRecipe(pick).ingredients, shuffled, mixed)
      modifies this
      ensures Valid()
      ensures State() == old(State()).(gameActive := true, gameCompleted := false, score := 0, streak := 0,
                                       recipesCompleted := 0, timeLeft := 60,
                                       currentRecipe := Some(old(NextRecipe(pick))), guessed := [], available := mixed)
    {
      gameActive := true;
      gameCompleted := false;
      score := 0;
      streak := 0;
      recipesCompleted := 0;
      timeLeft := 60;
      StartNewRound(pick, shuffled, mixed);
    }

    /** `selectIngredient`: record the guess and score it or charge for it, as
        `AfterGuess` says. The method returns whether the source sets its
        1.5-second timer that starts the next round; that round is a separate
        `StartNewRound` call. */
    method SelectIngredient(ingredient: string) returns (scheduleNextRound: bool)
      requires Valid()
      modifies this
      ensures Valid()
      ensures (State(), scheduleNextRound) == AfterGuess(old(State()), ingredient)
    {
      AfterGuessValid(State(), ingredient, gameRecipes, allIngredients);
      ghost var after := AfterGuess(State(), ingredient).0;
      assert SessionValid(after, gameRecipes, allIngredients);
      scheduleNextRound := false;
      if currentRecipe.None? || ingredient in guessed {
        return;
      }
      var recipe := currentRecipe.value;
      var newGuessed := guessed + [ingredient];
      guessed := newGuessed;
      if ingredient in recipe.ingredients {
        score := score + GuessPoints(recipe.difficulty, streak, timeLeft);
        streak := streak + 1;
        if Completes(recipe, newGuessed) {
          score := score + CompletionBonus(timeLeft);
          recipesCompleted := recipesCompleted + 1;
          scheduleNextRound := timeLeft > 10;
        }
      } else {
        streak := 0;
        timeLeft := Max(0, timeLeft - 5);
      }
    }

    /** One run of the timer effect: a running clock loses one second; a running
        session whose clock has reached zero ends; otherwise nothing happens. */
    method Tick()
      requires Valid()
      modifies this
      ensures Valid()
      ensures old(gameActive) && old(timeLeft) > 0 ==> State() == old(State()).(timeLeft := old(timeLeft) - 1)
      ensures old(gameActive) && old(timeLeft) == 0 ==>
                State() == old(State()).(gameActive := false, gameCompleted := true)
      ensures !old(gameActive) ==> State() == old(State())
    {
      if gameActive && timeLeft > 0 {
        timeLeft := timeLeft - 1;
      } else if timeLeft == 0 && gameActive {
        EndGame();
      }
    }

    /** `endGame`: the session stops and shows its results. */
    method EndGame()
      requires Valid()
      modifies this
      ensures Valid()
      ensures State() == old(State()).(gameActive := false, gameCompleted := true)
    {
      gameActive := false;
      gameCompleted := true;
    }

    /** `resetGame`: back to the start screen with fresh counters, no round and
        60 seconds; the mode and selections stay. */
    method ResetGame()
      requires Valid()
      modifies this
      ensures Valid()
      ensures State() == old(State()).(gameActive := false, gameCompleted := false, currentRecipe := None,
                                       guessed := [], available := [], score := 0, timeLeft := 60,
                                       streak := 0, recipesCompleted := 0)
    {
      gameActive := false;
      gameCompleted := false;
      currentRecipe := None;
      guessed := [];
      available := [];
      score := 0;
      timeLeft := 60;
      streak := 0;
      recipesCompleted := 0;
    }
  }
}
