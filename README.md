# cook-site in Dafny

A Dafny model of the logic of cook-site, a Next.js recipe site. It covers these parts:

- **Public pages:**
  - the home page's content map and featured-recipe fallback;
  - the instant search box with its secret admin phrase;
  - the recipe cards;
  - the advanced filter panel with its seven filter passes, sort orders and active-filter badge;
  - the printable recipe;
  - the ingredient checklist;
  - the cooking game;
  - the Instagram feed;
  - the language provider.
- **Browser-side stores:** the recipe list and the background and Instagram settings, all kept in `localStorage`.
- **Admin side:**
  - the auth flag;
  - the background and Instagram settings editors;
  - the featured-recipes manager;
  - the page-content editors;
  - the SET-clause builder of the database `updateRecipe`;
  - the upload endpoint and its file validation.
- **Shared:** the toast container.

One module models each source file; the two page-content editors share one module. Components that keep state are classes: their `useState` fields become class fields, and each handler becomes a method that states the whole new state. Pure derivations are functions with lemmas about them. Loops in the source are methods with loop invariants, proved against a specification function.

The following are parameters or fields rather than calls:

- randomness: the picked recipe, the shuffled orders;
- clocks: `Date.now()`, today's date string;
- timers: one method per expiry;
- the contents of `localStorage`;
- the results of database and network calls.

The shared modules are:

- **Common:** Option, filtering, JavaScript `slice`.
- **Strings:** lower-casing, `includes`, `trim`, decimal numbers, `||` on strings.
- **Int32Hash:** the `(a << 5) - a + code` fold truncated to 32 bits.
- **StableSort:** `Array.prototype.sort` as a stable insertion sort.
- **SortedSet:** `[...new Set(xs)].sort()`.

## Model

| member | source | states |
|---|---|---|
| RecipeModel.DifficultyNameInjective | lib/types.ts:9 | the three difficulty names are distinct, so a stored name determines the level |
| RecipeModel.MatchesSearchCaseInsensitive | components/recipe-search.tsx:67-73 | the search matches title, category, ingredients or description ignoring the case of the term |
| RecipeModel.EmptyTermMatchesAll | components/recipe-search.tsx:67-73 | the empty term occurs in every recipe |
| StableSort.Sort | components/recipe-filters.tsx:152-175 | the sort returns a permutation of its input |
| StableSort.SortCorrect | components/recipe-filters.tsx:152-175 | for a total preorder the sorted list is ordered, a permutation of the input, and keeps the input order among equal keys |
| StableSort.SortStable | components/recipe-filters.tsx:152-175 | each class of equal keys appears in the sorted list in its input order |
| StableSort.KeyOrderIsPreorder | components/recipe-filters.tsx:157-170 | an integer-key comparator such as `a.prepTime - b.prepTime` is a total preorder |
| SortedSet.SortedUniqueCorrect | components/recipe-filters.tsx:54 | `[...new Set(s)].sort()` holds each member of `s` exactly once, in strictly increasing code-point order, and is the only such list |
| SortedSet.CodeLessTotal | components/recipe-filters.tsx:54 | of two different strings one sorts before the other in the default order |
| RecipeFilters.SortOrderIsPreorder | components/recipe-filters.tsx:152-175 | every comparator `sortBy` selects is a total preorder, given that `localeCompare` is; an unknown key selects no sort |
| RecipeFilters.FilterResultCorrect | components/recipe-filters.tsx:102-178 | the delivered list holds exactly the recipes passing every filter, each as often as stored; sorted and stable for a known `sortBy`, in stored order otherwise |
| RecipeFilters.FilterResultMembers | components/recipe-filters.tsx:102-150 | a recipe is delivered iff it is stored and passes search, ingredient, category, difficulty, time and servings filters |
| RecipeFilters.InitialFiltersShow | components/recipe-filters.tsx:33-42 | with no search, ingredient, category or difficulty filter and the default ranges, as in the initial filters, a recipe passes iff its times and servings lie within those ranges |
| RecipeFilters.SurvivesAll | components/recipe-filters.tsx:105-149 | keeping the survivors of the seven passes gives the recipes passing every filter, in stored order |
| RecipeFilters.ApplyFilters | components/recipe-filters.tsx:102-178 | the pass-by-pass method delivers `FilterResult` (filtered, then sorted), whose members are exactly the stored recipes passing every filter |
| RecipeFilters.NoneInUseIffDefaults | components/recipe-filters.tsx:89-100 | no setting counts as in use exactly when the filters are the initial ones up to a blank search term |
| RecipeFilters.CountActiveFilters | components/recipe-filters.tsx:89-100 | the badge count is the number of the eight settings in use, at most 8, and 0 iff the filters are at their defaults |
| RecipeFilters.Categories | components/recipe-filters.tsx:54 | the mapped list holds exactly the categories of the recipes |
| RecipeFilters.IngredientLines | components/recipe-filters.tsx:69 | the flattened ingredient lines hold exactly the lines of some recipe |
| RecipeFilters.AvailableCategoriesCorrect | components/recipe-filters.tsx:52-62 | the offered categories are those of some recipe in the selected difficulties (any recipe when none is selected), strictly sorted, so each once |
| RecipeFilters.StillOffered | components/recipe-filters.tsx:78-79 | the kept categories are the selected ones still offered, and nothing is dropped iff all are offered |
| RecipeFilters.Toggle | components/recipe-filters.tsx:180-205 | afterwards the value is present iff it was absent, and every other value is present iff it was |
| RecipeFilters.ToggleTwice | components/recipe-filters.tsx:180-205 | toggling an absent value twice gives the list back |
| RecipeFilters.ParseOr | components/recipe-filters.tsx:419 | `parseInt(v) \|\| d` is `d` for NaN and for 0, the parsed number otherwise |
| RecipeFilters.EditMin | components/recipe-filters.tsx:418-423 | a Min box takes an entry inside `[0, max]` as it is, `max` for one above it, 0 for a negative one or NaN, and raises the upper end to at least that value |
| RecipeFilters.EditMax | components/recipe-filters.tsx:436-441 | a Max box takes an entry inside `(0, max]` as it is, `max` for 0, NaN or one above the domain, 0 for a negative one, and lowers the lower end to at most that value |
| RecipeFilters.EditsStayInDomain | components/recipe-filters.tsx:418-484 | a range inside its domain stays an ordered range inside it after either box |
| RecipeFilters.MaxZeroMeansDomainMax | components/recipe-filters.tsx:437 | typing 0 into a Max box sets the upper end to the domain maximum, because 0 is falsy |
| RecipeFilters.EditServings | components/recipe-filters.tsx:513-518 | the slider sets the upper end and lowers the lower end when needed |
| RecipeFilters.ServingsLowerEndStays | components/recipe-filters.tsx:513-518 | from the initial servings range the lower end stays 1 for any slider value 1..12 |
| RecipeFilters.FilterPanel.Refresh | components/recipe-filters.tsx:73-87 | the filter effect either prunes the categories no longer offered and delivers nothing, or delivers `FilterResult` and sets the badge count |
| RecipeFilters.FilterPanel.Prune | components/recipe-filters.tsx:73-83 | the offered categories are recomputed; the selection is pruned to the still-offered ones iff one of them is no longer offered; nothing else changes |
| RecipeFilters.FilterPanel.Deliver | components/recipe-filters.tsx:85-86 | the panel delivers `FilterResult` and sets the badge to the number of settings in use; nothing else changes |
| RecipeFilters.MustPruneIff | components/recipe-filters.tsx:77-83 | the effect prunes iff some selected category is no longer offered |
| RecipeFilters.RunPasses | components/recipe-filters.tsx:102-149 | the passes run one after another leave exactly the recipes passing every filter, in stored order |
| RecipeFilters.FilterPanel.Load | components/recipe-filters.tsx:64-71 | mounting stores the recipes and their distinct sorted ingredient lines |
| RecipeFilters.FilterPanel.ResetFilters | components/recipe-filters.tsx:207-209 | reset restores the initial filters and nothing else |
| RecipeFilters.FilterPanel.constructor | components/recipe-filters.tsx:45-50 | no recipes, the initial filters, no categories or ingredients offered, a zero badge and nothing delivered |
| RecipeFilters.FilterPanel.ToggleCategory | components/recipe-filters.tsx:180-187 | only the category selection changes, toggled |
| RecipeFilters.FilterPanel.ToggleDifficulty | components/recipe-filters.tsx:189-196 | only the difficulty selection changes, toggled |
| RecipeFilters.FilterPanel.ToggleIngredient | components/recipe-filters.tsx:198-205 | only the ingredient selection changes, toggled |
| RecipeFilters.FilterPanel.SetSearchTerm | components/recipe-filters.tsx:239 | only the search term changes |
| RecipeFilters.FilterPanel.SetSortBy | components/recipe-filters.tsx:301 | only the sort key changes |
| RecipeFilters.FilterPanel.SetPrepMin | components/recipe-filters.tsx:418-423 | only the preparation range changes, by `EditMin` within 0..120 |
| RecipeFilters.FilterPanel.SetPrepMax | components/recipe-filters.tsx:436-441 | only the preparation range changes, by `EditMax` within 0..120 |
| RecipeFilters.FilterPanel.SetCookMin | components/recipe-filters.tsx:461-466 | only the cooking range changes, by `EditMin` within 0..300 |
| RecipeFilters.FilterPanel.SetCookMax | components/recipe-filters.tsx:479-484 | only the cooking range changes, by `EditMax` within 0..300 |
| RecipeFilters.FilterPanel.SetServings | components/recipe-filters.tsx:513-518 | only the servings range changes, by the slider rule |
| RecipeFilters.DifficultyRank | components/recipe-filters.tsx:166 | Easy ranks 1, Hard 3, Medium in between |
| RecipeFilters.PruneThenApply | components/recipe-filters.tsx:77-85 | after a pruning run every selected category is offered, so the next run delivers |
| RecipeFilters.ResetSortsByTitle | components/recipe-filters.tsx:33-42 | the reset filters deliver the passing recipes sorted by title |
| RecipeFilters.ResetCountsNone | components/recipe-filters.tsx:89-100 | after a reset the badge counts no setting in use |
| CookingGame.FilteredRecipes | components/cooking-game.tsx:40-45 | the recipes of the chosen level, or all of them for "All" |
| CookingGame.FindByName | components/cooking-game.tsx:61 | the first recipe with the name, or none iff no recipe has it |
| CookingGame.DrawPool | components/cooking-game.tsx:60-68 | the recipe is drawn at random, from recipes of the catalogue, unless the specific mode names one |
| CookingGame.ChooseRecipeCorrect | components/cooking-game.tsx:57-68 | the round plays a catalogue recipe: the named one (or the first recipe when none has the name) in specific mode, one of the chosen level in difficulty mode, the picked one otherwise |
| CookingGame.WrongIngredients | components/cooking-game.tsx:75-76 | the candidates are exactly the catalogue ingredients not in the recipe |
| CookingGame.DistractorCount | components/cooking-game.tsx:78 | a round is meant to get at most 8 distractors |
| CookingGame.DistractorSliceAsWritten | components/cooking-game.tsx:78 | the slice as written is a prefix of the shuffled candidates |
| CookingGame.DistractorSliceAsWrittenOverfills | components/cooking-game.tsx:78 | above 15 ingredients the negative slice end keeps all but `n - 15` candidates |
| CookingGame.DistractorSliceAsWrittenCounterexample | components/cooking-game.tsx:78 | 16 ingredients and 20 candidates give 19 distractors where none are meant |
| CookingGame.Distractors | components/cooking-game.tsx:78 | the corrected slice: a prefix of the candidates of length `min(DistractorCount(n), candidates)` |
| CookingGame.DistractorsAgreeUpTo15 | components/cooking-game.tsx:78 | up to 15 ingredients the corrected and the written slice agree |
| CookingGame.DistractorsBounded | components/cooking-game.tsx:78 | at most 8 distractors, and at most 15 buttons unless the recipe alone has more |
| CookingGame.RoundBoardCorrect | components/cooking-game.tsx:73-82 | the mixed board shows every ingredient of the recipe, only catalogue ingredients besides, and has the expected size |
| CookingGame.GuessPointsOrdered | components/cooking-game.tsx:93-96 | a correct guess earns between 6 and 20 points plus twice the streak, more for harder recipes, longer streaks and more time |
| CookingGame.CompletionBonusBounds | components/cooking-game.tsx:106 | the bonus is a multiple of 10 within 10 points below 5 per second left |
| CookingGame.CompletesIff | components/cooking-game.tsx:102-104 | with distinct guesses the completion test holds iff every ingredient was guessed and no ingredient line repeats |
| CookingGame.ScoreRating | components/cooking-game.tsx:140-148 | the rating is one of the seven ratings |
| CookingGame.ScoreRatingTiers | components/cooking-game.tsx:140-148 | a score gets the k-th rating iff it reached the k-th threshold and not the next |
| CookingGame.ScoreRatingMonotone | components/cooking-game.tsx:140-148 | a higher score never gets a lower rating |
| CookingGame.RatingsDistinct | components/cooking-game.tsx:140-148 | the seven ratings are all different, so each tier is told apart |
| CookingGame.GuessIgnored | components/cooking-game.tsx:86 | without a round, or for a repeated guess, nothing changes |
| CookingGame.GuessRecorded | components/cooking-game.tsx:88-89 | any other guess is appended and touches only guesses, score, streak, clock and completed count |
| CookingGame.CorrectGuess | components/cooking-game.tsx:91-115 | a correct guess adds its points, plus the bonus on completion, extends the streak, keeps the clock, and schedules the next round iff it completes with more than 10 seconds left |
| CookingGame.WrongGuess | components/cooking-game.tsx:116-120 | a wrong guess resets the streak and takes 5 seconds, never below zero |
| CookingGame.AfterGuessValid | components/cooking-game.tsx:85-121 | a guess keeps the session invariant and never lowers the score |
| CookingGame.GameSession.constructor | components/cooking-game.tsx:17-28 | the initial state: random mode, all levels, 30 seconds, nothing running |
| CookingGame.GameSession.StartNewRound | components/cooking-game.tsx:57-83 | a round sets the chosen recipe, clears the guesses and shows the board, keeping the invariant |
| CookingGame.GameSession.StartGame | components/cooking-game.tsx:47-55 | a game resets the counters, sets 60 seconds and starts a round |
| CookingGame.GameSession.SelectIngredient | components/cooking-game.tsx:85-121 | the new state and the timer flag are those of `AfterGuess` |
| CookingGame.GameSession.Tick | components/cooking-game.tsx:30-38 | a running clock loses a second, a running session at zero ends, an idle one is unchanged |
| CookingGame.GameSession.EndGame | components/cooking-game.tsx:123-126 | the session stops and shows its results |
| CookingGame.GameSession.ResetGame | components/cooking-game.tsx:128-138 | back to the start screen with fresh counters and 60 seconds; mode and selections stay |
| CookingGame.GameSession.SetGameMode | components/cooking-game.tsx:169 | only the mode changes |
| CookingGame.GameSession.SetSelectedDifficulty | components/cooking-game.tsx:206 | only the difficulty selection changes |
| CookingGame.GameSession.SetSelectedRecipe | components/cooking-game.tsx:230 | only the recipe selection changes |
| RecipeStore.MergeNeutralAndIdempotent | lib/recipes.ts:34 | an empty patch changes nothing and a patch applied twice is applied once |
| RecipeStore.MergePatchWins | lib/recipes.ts:34 | a supplied field takes the patch's value, an absent one keeps the recipe's |
| RecipeStore.FindIndex | lib/recipes.ts:31 | the first index with the id, or none iff no recipe has it |
| RecipeStore.WithoutIdCorrect | lib/recipes.ts:42-43 | removal keeps exactly the other recipes and shrinks the list iff some recipe has the id |
| RecipeStore.Store.Recipes | lib/recipes.ts:6-10 | the catalogue on the server or with nothing stored, else the stored list |
| RecipeStore.Store.constructor | lib/recipes.ts:6-10 | the store holds the given side, catalogue and stored list |
| RecipeStore.Store.SaveRecipes | lib/recipes.ts:12-15 | the list is stored and read back, except on the server |
| RecipeStore.Store.AddRecipe | lib/recipes.ts:17-27 | the new recipe gets the clock's id and today's stamp and goes at the end |
| RecipeStore.Store.UpdateRecipe | lib/recipes.ts:29-38 | the first recipe with the id is merged with the patch and the list stored; with none nothing changes |
| RecipeStore.Store.DeleteRecipe | lib/recipes.ts:40-47 | reports whether some recipe had the id and then stores the others |
| RecipeStore.Store.RecipeById | lib/recipes.ts:49-52 | the first recipe with the id, or none iff no recipe has it |
| DatabaseUpdate.Entries | lib/database.ts:185-224 | one optional parameter per column, in the fixed column order |
| DatabaseUpdate.SuppliedSound | lib/database.ts:185-224 | every assignment is a supplied field with its own value, in increasing column order |
| DatabaseUpdate.SuppliedComplete | lib/database.ts:185-224 | a column gets an assignment iff its field is supplied |
| DatabaseUpdate.BuildUpdate | lib/database.ts:182-226 | the k-th clause is "column = $k" for the k-th supplied field with its value, then the timestamp clause |
| DatabaseUpdate.EmptyPatchOnlyTimestamp | lib/database.ts:226 | an update that supplies nothing sets only the timestamp |
| DatabaseUpdate.ListFieldsAsJson | lib/database.ts:217-224 | the two list fields travel as JSON, the others as themselves |
| BackgroundSettings.LoadCorrect | lib/background-settings.ts:26-30 | defaults on the server or with nothing stored; otherwise each of the ten fields is the stored one when present and the default otherwise |
| BackgroundSettings.SaveThenLoad | lib/background-settings.ts:26-35 | a record that sets every defaulted field reads back as itself |
| BackgroundSettings.BackgroundStyle | lib/background-settings.ts:37-64 | a colour sets only the colour, a gradient only the image; the page is positioned iff an image with a URL is dimmed |
| BackgroundSettings.BackgroundStyleCases | lib/background-settings.ts:40-61 | white for a missing or empty colour; each gradient part stored when non-empty, else its default; an image only with a URL, with position, size and repeat stored when non-empty, else `center`, `cover`, `no-repeat`; nothing for other kinds |
| BackgroundSettings.DefaultStyle | lib/background-settings.ts:18-24 | the default background is the orange-to-white gradient |
| BackgroundSettings.WhiteOverlay | lib/background-settings.ts:66-81 | an overlay exactly for a dimmed image, carrying `100 - opacity` |
| BackgroundSettings.OverlayAndPosition | lib/background-settings.ts:56-67 | with a URL the overlay appears iff the page is positioned; without one it can appear unpositioned |
| BackgroundEditor.PreviewMatchesPage | components/background-settings.tsx:125-151 | the preview equals the page style for colours, gradients and real images (without positioning), and light gray otherwise |
| BackgroundEditor.Editor.constructor | components/background-settings.tsx:18-28 | the default gradient, no preview, no changes, no original |
| BackgroundEditor.Editor.Mount | components/background-settings.tsx:30-34 | working copy and original become the stored settings |
| BackgroundEditor.Editor.ChangeSettings | components/background-settings.tsx:36-45 | the change overlays the copy and marks it; in preview the store follows |
| BackgroundEditor.Editor.Save | components/background-settings.tsx:47-56 | the copy is stored and becomes the original, preview ends, no changes remain |
| BackgroundEditor.Editor.TogglePreview | components/background-settings.tsx:76-94 | entering preview stores the copy; leaving it stores the original when there is one |
| BackgroundEditor.Editor.Reset | components/background-settings.tsx:96-105 | the copy becomes the defaults and is marked changed; nothing is stored |
| Instagram.Load | lib/instagram.ts:32-36 | a malformed stored text is a parse error; defaults on the server or with nothing stored |
| Instagram.LoadCorrect | lib/instagram.ts:24-36 | a stored record's fields over the defaults, field by field |
| Instagram.SaveThenLoad | lib/instagram.ts:32-41 | saved settings read back as themselves in the browser |
| Instagram.FetchPosts | lib/instagram.ts:191-202 | the posts are a prefix of the mock posts, none when disabled |
| Instagram.FetchPostsCount | lib/instagram.ts:201 | a count 0..12 gives that many posts, more gives all, a negative count drops from the end |
| Instagram.MockPostsDistinct | lib/instagram.ts:44-189 | the twelve mock posts have distinct ids "1" to "12" |
| Instagram.MockIds | lib/instagram.ts:44-189 | the ids of the mock posts are "1" to "12" in order |
| Instagram.MockIdListDistinct | lib/instagram.ts:44-189 | the twelve ids "1" to "12" are pairwise different |
| Instagram.MockPostsCounted | lib/instagram.ts:44-189 | every mock post has like and comment counts |
| InstagramSettingsEditor.SliderCountIsShown | components/instagram-settings.tsx:175-186 | every slider value 3..12 is exactly the number of posts fetched when enabled |
| InstagramSettingsEditor.Editor.constructor | components/instagram-settings.tsx:16-25 | the defaults, no changes, no original |
| InstagramSettingsEditor.Editor.Mount | components/instagram-settings.tsx:27-32 | loaded settings become copy and original; a parse error leaves the state |
| InstagramSettingsEditor.Editor.ChangeSettings | components/instagram-settings.tsx:34-39 | the change overlays the copy and marks it |
| InstagramSettingsEditor.Editor.ChangeDisplayCount | components/instagram-settings.tsx:175-186 | the slider sets the count and marks the copy |
| InstagramSettingsEditor.Editor.Save | components/instagram-settings.tsx:41-72 | the copy is stored and becomes the original; in the browser it then reads back as itself |
| InstagramSettingsEditor.Editor.Reset | components/instagram-settings.tsx:74-84 | the copy becomes the defaults and is marked changed |
| InstagramFeed.TruncateCaption | components/instagram-feed.tsx:105-108 | a fitting caption is unchanged, a longer one is its first `max` characters and "..." |
| InstagramFeed.TruncateCaptionCorrect | components/instagram-feed.tsx:105-108 | the result is at most `max + 3` long, extends a prefix of the caption and is stable under truncation |
| InstagramFeed.FormatNumberCorrect | components/instagram-feed.tsx:110-115 | the text ends in "k" iff the number is at least 1000; below it is the decimal number, read back by parsing |
| InstagramFeed.CountsShown | components/instagram-feed.tsx:174-178 | missing like and comment counts show as 0 |
| InstagramFeed.ImageSource | components/instagram-feed.tsx:140 | the media URL, or the placeholder when it is empty |
| InstagramFeed.Feed.LoadData | components/instagram-feed.tsx:21-48 | a parse error shows the error message; otherwise posts are fetched only when enabled and on the home page, and a grid appears iff some post is fetched |
| InstagramFeed.Feed.constructor | components/instagram-feed.tsx:16-19 | no posts, no settings, loading, no error |
| InstagramFeed.Feed.Render | components/instagram-feed.tsx:64-96 | a spinner while loading, a grid iff loaded without error, enabled, on the home page and with posts |
| InstagramFeed.LoadedGrid | components/instagram-feed.tsx:21-96 | enabled home-page settings with a count of 1..12 fetch that prefix of the posts, so a grid shows; a count of 0 fetches none |
| Language.Table | lib/language-context.tsx:22-77 | a table exists exactly for "en", "es" and "fr" |
| Language.TablesComplete | lib/language-context.tsx:22-77 | every table has a nonempty text for each of the 16 distinct keys |
| Language.IndexOf | lib/language-context.tsx:94-96 | the position of the key in the key list, or none iff it is not a key |
| Language.Entry | lib/language-context.tsx:94-96 | the text of a known key in a known language, none otherwise |
| Language.TranslateCorrect | lib/language-context.tsx:94-96 | a known key gives the language's text, or the English text for an unknown language |
| Language.TranslateUnknownKey | lib/language-context.tsx:94-96 | an unknown key gives the nonempty fallback, else the key itself |
| Language.Provider.constructor | lib/language-context.tsx:80 | English first |
| Language.Provider.Mount | lib/language-context.tsx:82-87 | a saved known language is adopted, anything else keeps English |
| Language.Provider.SetLanguage | lib/language-context.tsx:89-92 | the language is set and saved |
| Language.Revisit | lib/language-context.tsx:82-92 | after choosing a language and revisiting, a known language is active again, an unknown one falls back to English |
| ImageValidation.ValidateImageFileCorrect | lib/image-upload.ts:27-39 | no error iff an image of at most 5 MB; the type message for a non-image, the size message for a large image |
| UploadRoute.Sanitize | app/api/upload/route.ts:46 | same length, only letters, digits, ".", "-" or "_" |
| UploadRoute.SanitizeCorrect | app/api/upload/route.ts:46 | each safe character stays, each other becomes "_", and sanitizing twice is once |
| UploadRoute.StoredName | app/api/upload/route.ts:46 | "recipe-", the clock's digits, "-" and the sanitized name |
| UploadRoute.StoredNameInjective | app/api/upload/route.ts:46 | equal stored names from equally long clock readings come from the same reading |
| UploadRoute.HandleCorrect | app/api/upload/route.ts:7-43 | the checks in order: no file is a 400, a file failing either image check a 400 without storing, a valid file with no token the missing-token 500, an unreadable form a 500 |
| UploadRoute.MissingTokenAfterChecks | app/api/upload/route.ts:17-43 | the missing-token response only follows a readable form whose file passed both image checks, with the token absent or empty |
| UploadRoute.HandleStores | app/api/upload/route.ts:45-70 | the store is called iff every check passed, under the derived name; a 200 carries the store's URL and comes iff the store succeeded; a failed store is a 500 |
| RecipeCard.CategoryIndex | components/recipe-card.tsx:41 | the colour index is below 5 |
| RecipeCard.CategoryColor | components/recipe-card.tsx:29-42 | the colour is one of the five |
| RecipeCard.CategoryIndexCorrect | components/recipe-card.tsx:37-41 | the index is `abs(int32 fold of 31 * a + code) % 5`; the extreme hash -2^31 gives index 3 |
| Int32Hash.HashIsHash31 | components/recipe-card.tsx:37-40 | the shift-subtract-truncate step is the int32 step `31 * a + code` |
| RecipeCard.DifficultyColorCorrect | components/recipe-card.tsx:16-27 | the colour ignores case: green, yellow, red for the three levels, gray otherwise |
| RecipeCard.RenderTileCorrect | components/recipe-card.tsx:45-95 | no tile without a recipe; otherwise image, badges, link, total time and servings with their fallbacks |
| PrintRecipe.ListItemsCorrect | components/print-recipe.tsx:158-165 | the list is the `<li>` items of the lines, in order, with no separator |
| PrintRecipe.ListItemsLength | components/print-recipe.tsx:158 | its length is the lines' total plus 9 per line |
| PrintRecipe.FragmentsCorrect | components/print-recipe.tsx:18-165 | the page carries the title tag, header, four meta values in minutes and both lists |
| PrintRecipe.ItemOccurs | components/print-recipe.tsx:158 | every ingredient line occurs in the printed list |
| Toasts.RemovedCorrect | components/toast.tsx:73-75 | removal keeps exactly the other toasts, in order |
| Toasts.ShowThenRemove | components/toast.tsx:64-75 | showing a toast with a new id and removing it gives the list back |
| Toasts.RemovalDelay | components/toast.tsx:20-23 | the given duration, or 3000 ms when it is missing or 0 |
| Toasts.Container.Show | components/toast.tsx:64-67 | the toast is appended with the clock's id |
| Toasts.Container.constructor | components/toast.tsx:61 | no toasts |
| Toasts.Container.Remove | components/toast.tsx:73-75 | only the toasts with another id stay |
| IngredientChecklist.AllIndices | components/ingredient-checklist.tsx:27-33 | exactly the indices below n |
| IngredientChecklist.AllCheckedIff | components/ingredient-checklist.tsx:39-41 | n checked indices below n means every index is checked, and conversely |
| IngredientChecklist.AllIndicesCard | components/ingredient-checklist.tsx:27-33 | checking all indices checks exactly n of them |
| IngredientChecklist.Checklist.constructor | components/ingredient-checklist.tsx:15 | nothing is checked |
| IngredientChecklist.Checklist.Check | components/ingredient-checklist.tsx:17-25 | the index is added or removed, nothing else changes |
| IngredientChecklist.Checklist.CheckAll | components/ingredient-checklist.tsx:27-33 | unticks everything when all are ticked, otherwise ticks exactly the indices below n |
| IngredientChecklist.Checklist.Reset | components/ingredient-checklist.tsx:35-37 | nothing is checked |
| Auth.Session.Submit | app/admin/login/page.tsx:22-37 | the form succeeds iff the email and the password are the admin's; then the flag is stored as "true" in the browser, else the error message is shown and the flag stays; from a logged-out browser session it is authenticated afterwards iff the credentials match |
| Auth.Session.SetAuthenticated | lib/auth.ts:14-17 | afterwards the session is authenticated iff in the browser and set to true |
| Auth.Session.constructor | lib/auth.ts:9-12 | the session reads the given side and stored flag |
| Auth.Session.Logout | lib/auth.ts:19-22 | afterwards the session is not authenticated |
| RecipeSearch.SearchResultsCorrect | components/recipe-search.tsx:67-76 | the results are exactly the matching recipes, in order |
| RecipeSearch.SecretPhraseNotBlank | components/recipe-search.tsx:56-65 | the phrase is not blank and a term matching it has its length, so the blank test never hides it |
| RecipeSearch.SearchBox.RunSearch | components/recipe-search.tsx:54-77 | the phrase navigates to the login page, a blank term hides the results, any other term shows the matches |
| RecipeSearch.SearchBox.constructor | components/recipe-search.tsx:20-23 | no recipes, an empty term, no results shown, no navigation |
| RecipeSearch.SearchBox.Mount | components/recipe-search.tsx:28-29 | the recipes are stored and the search runs again over them |
| RecipeSearch.SearchBox.Type | components/recipe-search.tsx:54-77 | the term is set and the search runs: the phrase navigates, a blank term hides, any other shows the matches |
| RecipeSearch.SearchBox.ClearSearch | components/recipe-search.tsx:79-83 | the term, results and list are cleared |
| RecipeSearch.SearchBox.ResultClick | components/recipe-search.tsx:85-88 | the list closes and the term is cleared |
| FeaturedManager.AvailableRecipesCorrect | components/featured-recipes-manager.tsx:176-183 | a recipe is available iff it matches the search and is not featured, in order; the empty term keeps all |
| FeaturedManager.MovesInverse | components/featured-recipes-manager.tsx:124-156 | moving up sends a request iff the position is positive; up then down, and down then up from a non-negative position, give back the position |
| FeaturedManager.RowLabels | components/featured-recipes-manager.tsx:208-211 | one label per row, "#" and the row number |
| FeaturedManager.RowLabelsCorrect | components/featured-recipes-manager.tsx:208-211 | the labels depend only on the number of rows and are distinct |
| ContentEditing.EditingOfCorrect | app/admin/pages/page.tsx:90-96 | the editing map has a key per item key, holding the text of the last item with it |
| ContentEditing.InitializeEditing | app/admin/pages/page.tsx:90-96 | the loop builds `EditingOf` of the rows |
| ContentEditing.MergeKeepsOthers | app/admin/pages/page.tsx:95 | merging new entries keeps every other key |
| ContentEditing.InputChangeOnlyKey | app/admin/pages/page.tsx:138-143 | an input change sets its key and no other |
| ContentEditing.SaveRequestFor | app/admin/pages/page.tsx:98-102 | a request iff the edited text is present and not empty, carrying that text |
| ContentEditing.EnabledButEmpty | app/admin/pages/page.tsx:209 | an enabled button over an empty edit still sends nothing |
| ContentEditing.Label | app/admin/pages/page.tsx:184 | same length, no dots or underscores left |
| ContentEditing.LabelCorrect | app/admin/pages/page.tsx:184 | dots and underscores become spaces, all else stays, and relabelling changes nothing |
| ContentEditing.GroupsOfKeys | app/admin/pages/page.tsx:146-155 | a group exactly for each section that occurs |
| ContentEditing.GroupsOfContents | app/admin/pages/page.tsx:146-155 | each group holds exactly its section's rows, in order |
| ContentEditing.SectionOrderCorrect | app/admin/pages/page.tsx:146-155 | the sections are listed once each, exactly those that occur |
| ContentEditing.GroupBySection | app/admin/pages/page.tsx:146-155 | the loop builds the groups and the section order |
| ContentEditing.AfterLoadKeeps | components/page-content-editor.tsx:34-74 | loading only adds or overwrites keys of the pages that answered |
| ContentEditing.Editor.Load | components/page-content-editor.tsx:34-74 | a failed fetch keeps the state; otherwise each answering page's rows are stored and merged into the editing map |
| ContentEditing.Editor.constructor | components/page-content-editor.tsx:26-32 | no rows for any page, no edits, loading |
| ContentEditing.Editor.InputChange | components/page-content-editor.tsx:116-121 | the key is set, the rows stay |
| ContentEditing.Editor.Save | components/page-content-editor.tsx:76-80 | the request sent is `SaveRequestFor` of the editing map |
| PageContentEditor.Open | components/page-content-editor.tsx:34-74 | loading "home" and "all-recipes" gives the two pages' editing maps, the second winning |
| AdminPages.Mount | app/admin/pages/page.tsx:38-88 | an unauthenticated visit redirects to the login page and loads nothing; otherwise the four pages load |
| HomePage.SectionsOfSections | app/page.tsx:32-39 | the content map has a section exactly for each section that occurs |
| HomePage.SectionsOfKeys | app/page.tsx:32-39 | a section has a key exactly when some row has both |
| HomePage.SectionsOfLastWins | app/page.tsx:34-39 | under a section and key stands the text of the last row with both |
| HomePage.BuildContentMap | app/page.tsx:32-39 | the `forEach` builds `SectionsOf` of the rows |
| HomePage.PageContent | app/page.tsx:29-59 | the rows' map, or the fallback map when the fetch throws |
| HomePage.Heading | app/page.tsx:94-131 | the stored text when present and not empty, the page's default otherwise |
| HomePage.FallbackMatchesDefaults | app/page.tsx:44-57 | a failed load shows the same four headings as a page with no rows |
| HomePage.DailySeed | app/page.tsx:15-19 | the seed is an int32 and equals the fold `a := int32(31 * a + code)` over the date string |
| HomePage.DailyShuffled | app/page.tsx:26 | a prefix of the shuffled list of length `min(count, size)` |
| HomePage.DailyShuffledCorrect | app/page.tsx:14-27 | the daily pick has `min(count, size)` recipes, all from the catalogue, none repeated beyond the catalogue |
| HomePage.Present | app/page.tsx:65 | the present recipes, no more than the entries |
| HomePage.PresentAppend | app/page.tsx:65 | dropping missing recipes keeps the order of the rest |
| HomePage.PresentAll | app/page.tsx:65 | with no recipe missing every entry is kept, in place |
| HomePage.FeaturedRecipes | app/page.tsx:61-72 | the featured recipes when entries exist, else the daily pick of six |
| HomePage.Rendered | app/page.tsx:136 | the first six recipes |
| HomePage.RenderedFeatured | app/page.tsx:61-136 | without featured entries six catalogue recipes are shown (all if fewer); with entries the first six present ones; never more than six |

## Left out

- Rendering: JSX markup, CSS classes beyond the computed ones, icons, animations, and the static text and CSS of the print window.
- Events: `window.dispatchEvent` and its listeners (`backgroundChanged`, `instagramChanged`). A listener's reload is the same `Load`/`LoadData` call made again.
- Strings: `toLowerCase` covers ASCII letters only. Strings are sequences of code points, not UTF-16 units, which matters for lengths and for the character codes of the hashes. There is no Unicode normalisation.
- Floating point:
  - the `Math.sin` comparator of the daily shuffle, whose order is a parameter;
  - `toFixed(1)`, whose text is a parameter of `FormatNumber`;
  - progress percentages;
  - the overlay opacity, kept as a whole percentage of white;
  - `new Date(...).getTime()` of "newest", with `createdAt` kept as a number.
- `localeCompare` is an abstract total preorder passed in.
- JSON: `JSON.parse`/`JSON.stringify` are not modelled. Stored values are records. A stored Instagram text is blank, malformed (the parse throws) or a record.
- Timers: `setTimeout` delays. Each expiry is a method (`Tick`, `Remove`, the next-round flag of `SelectIngredient`). A toast's timer restarts whenever the toast list changes, because each render hands every toast a new `onRemove`; when `Remove` is called is up to the caller, so that restart is not captured.
- Data modules that are not part of this model are parameters: lib/game-recipes, lib/complete-recipes, the admin credentials and the database. Only `updateRecipe`'s SET-clause and values assembly of lib/database.ts is modelled. The SQL statements and the network are not.
- RecipeFilters.ApplyFilters and DatabaseUpdate.BuildUpdate: the source writes one `if` per pass or column. The model loops over a table of the passes or columns in the same order.
- CookingGame.GameSession.StartNewRound and CookingGame.GameSession.StartGame: the session plays the corrected board of `Distractors` (see Findings). For a recipe of more than 15 ingredients the source's board holds the distractors of `DistractorSliceAsWritten` instead, and a session showing that board is not modelled.
- CookingGame.GameSession.StartNewRound: requires a nonempty draw pool. With an empty pool (difficulty mode with no recipe of the level) the source indexes `undefined` and throws.
- `isSaving` flags and the toasts shown by the editors are left out. `SaveDisabled` takes `isSaving` as an argument.
- uploadImage's `fetch` is not modelled, and neither is a form field that holds a string instead of a file.
- `useLanguage` throwing outside its provider is not modelled, and neither are translation keys or saved language codes that are object-prototype names: a saved code such as "constructor" is adopted by the source, where Language.Provider.Mount keeps English (the texts shown fall back to English either way).
- InstagramSettingsEditor.Editor.ChangeDisplayCount: requires 3..12, the range of the slider, which is the only input that sets the count.
- Auth.Session.Submit: the 500 ms wait, the loading flag and the navigation of the login form are not modelled; `None` stands for the move to the dashboard.
- `toLocaleDateString` of the print view and the layout of the dashboard, settings, login, about, FAQ and disclaimer pages are not modelled.
- HomePage.BuildContentMap: JavaScript lists object keys that look like integers first. The model's maps are unordered, so that rendering order is not captured.
- ContentEditing.SectionOrder and ContentEditing.GroupBySection: the sections are listed in order of first appearance. `Object.entries` lists section names that look like integers first, in ascending order, and that order is not captured.

## Findings

| source | as written | input that shows it | evidently intended | confidence | as-written member | corrected member |
|---|---|---|---|---|---|---|
| components/cooking-game.tsx:78 | `slice(0, Math.min(8, 15 - n))` takes a negative end when the recipe has more than 15 ingredients, which counts from the back and keeps almost every distractor | a recipe with 16 ingredients and 20 other catalogue ingredients shows 19 distractors | at most `max(0, min(8, 15 - n))` distractors, none for recipes of more than 15 ingredients | not executed | CookingGame.DistractorSliceAsWritten (CookingGame.DistractorSliceAsWrittenCounterexample) | CookingGame.Distractors |
