# Mediterranean recipe browser: store, filter, rating and detail view

This project models the client-side logic of a single-page recipe browser.
The browser loads a batch of generated recipes from a content provider and
shows them filtered by category and by a text search. A detail view lets the
user rate a recipe once per opening and ask for a generated photo.

What is modelled:

- **Recipe record and categories** (`Types`, from `types.ts`). A recipe is a
  datatype. Its rating is kept as a natural number of tenths (4.1 stars is
  41).
- **Host string operations** (`Text`). `toLowerCase` is a per-character
  mapping. `includes` is a left-to-right substring search, proved equal to
  "the needle occurs at some position".
- **Rating arithmetic** (`Rating`). The new average is
  `(rating * votes + score) / (votes + 1)`, rounded by `toFixed(1)`. In tenths
  this is `num / den` rounded half up, where `num = rating10 * votes + 10 * score`
  and `den = votes + 1`. It is proved to be the nearest multiple of 0.1, with
  ties going to the larger one, which is how `toFixed` chooses on the exact
  mean (the program rounds a double instead; see Left out). It is also
  proved to lie between the old rating and the new score, and so within
  0.0..5.0.
- **Rating handler, pure part** (`RecipeRating`). The `map` rates every recipe
  whose id matches the selected one. The `find` reads back the first match.
  Lemmas cover the read-back, unique ids, the vote totals and a series of
  votes.
- **Filter** (`RecipeFilter`, `FilterExamples`). The shown list is proved to
  be the order-preserving subsequence of the stored list made of exactly the
  recipes that pass both tests. `All` with an empty query shows everything,
  and filtering twice is the same as filtering once.
- **Detail view** (`Modal`). `RecipeModal` is a class with the view's three
  state flags. It forwards at most one vote per mounted view, and the image
  request sets and clears a pending flag. `CurrentImage` is the picture
  fallback and `StarScores` are the five star values.
- **Application store** (`AppState`). `App` is a class with the store's
  fields and the mounted view, which exists exactly while a recipe is
  selected. Its methods are the load, the filter choices, selecting and
  closing a recipe, the rating handler and a star click in the view.
  `VoteReopenVote` shows that closing the view and opening it again allows a
  second vote.

The content provider is not modelled. Its results are parameters: the
recipe list given to `App.FetchRecipes` (empty when the provider fails) and
the image given to `RecipeModal.FinishImageRequest` (`None` when it fails).

Points where the code's declarations or comments say less than, or other
than, what it does; the model follows what the code does:

- A recipe's `category` is kept as the string the provider sent.
  `types.ts:11` declares it as the category enumeration. The filter, however,
  lower-cases both sides before comparing, which only matters for a string.
- The voted flag is cleared only when the view is mounted again, which
  happens after a close. Selecting another recipe while the view is mounted
  keeps the same view and its flags (`App.SelectRecipe`). The page's overlay
  normally prevents that.
- The provider seeds each recipe with 10..59 votes, because `floor(r * 50) + 10` with r < 1 never reaches 60. The comment at `services/geminiService.ts:58` says "between 10 and 60". Seeding is outside this model.
- A late image result, arriving after the view was closed, is not discarded
  by any check in the code; the model does not capture it either (see Left out).

## Model

| member | source | states |
|---|---|---|
| Types.CategoryName | types.ts:2-5 | the string value of each category member; each is a non-empty word of lower-case letters |
| Types.CategoryNameInjective | types.ts:2-5 | the four category strings are distinct, so equal names mean equal categories |
| Text.LowerChar | App.tsx:57-62 | `toLowerCase` on one character: the result is never a capital, and a changed character was a capital moved 32 code points up |
| Text.LowerCharIdempotent | App.tsx:57-62 | lower-casing a character again changes nothing |
| Text.ToLower | App.tsx:57-62 | lower-casing keeps the length and lower-cases each character in place |
| Text.Includes | App.tsx:60-62 | `includes`: the needle is a prefix of the text or of some suffix of it; the empty needle is always found and a found needle is no longer than the text |
| Text.IncludesIff | App.tsx:60-62 | the substring search succeeds exactly when the query occurs at some position of the text |
| Text.EmptyIncluded | App.tsx:58-62 | the empty query occurs in every text |
| Rating.RoundHalfUp | App.tsx:40 | the result n satisfies n - 1/2 <= num/den < n + 1/2, i.e. rounding half up |
| Rating.RoundHalfUpIsNearest | App.tsx:40 | no integer is nearer to num/den than the rounded value, and one equally near is not larger (the toFixed choice) |
| Rating.RoundHalfUpUnique | App.tsx:40 | only one integer satisfies the half-up rounding condition |
| Rating.RoundHalfUpBetween | App.tsx:35-40 | a value between integers a and b rounds to a value between a and b |
| Rating.MeanNumerator | App.tsx:35 | the numerator rating*votes + score in tenths; at most 50*(votes+1) when the rating is within 0.0..5.0 and the score at most 5 |
| Rating.NewRating10 | App.tsx:34-40 | the new rating in tenths is (rating*votes + score)/(votes+1) rounded half up to one decimal |
| Rating.NewRatingBetween | App.tsx:34-40 | the new rating lies between the old rating and the new score |
| Rating.NewRatingInRange | App.tsx:34-40 | an old rating within 0.0..5.0 and a score of at most 5 give a new rating within 0.0..5.0 |
| Rating.NewRatingExample | App.tsx:34-40 | 4.0 from 10 votes, rated 5, becomes 4.1 |
| RecipeRating.Rated | App.tsx:32-41 | votes grow by exactly one, the rating is the rounded weighted mean, every other field is unchanged |
| RecipeRating.RateMatching | App.tsx:31-44 | same length and order; each recipe with the id is rated, every other recipe is unchanged |
| RecipeRating.FindById | App.tsx:49 | None exactly when no recipe has the id; otherwise the recipe at the first position with the id |
| RecipeRating.FindAfterRating | App.tsx:31-52 | reading back the selected id after rating yields the old first match, rated once |
| RecipeRating.RateUniqueChangesOne | App.tsx:31-44 | with unique ids exactly the one recipe with the id changes, and ids stay unique |
| RecipeRating.TotalVotesAfterRating | App.tsx:31-44 | the total vote count grows by the number of recipes carrying the id |
| RecipeRating.UniqueCountIsOne | App.tsx:32 | with unique ids a present id is carried by exactly one recipe |
| RecipeRating.RateKeepsRange | App.tsx:31-44 | a vote of at most five stars keeps every rating within 0.0..5.0 |
| RecipeRating.RateSeries | App.tsx:31-44 | a series of votes keeps the list length |
| RecipeRating.RateSeriesCountsVotes | App.tsx:31-44 | after n votes on a unique id the recipe has n more votes, its rating stays within 0.0..5.0, the others are unchanged |
| RecipeFilter.Filter | App.tsx:55-66 | the shown list is no longer than the stored one and holds exactly the stored recipes that pass both tests |
| RecipeFilter.MatchesCategory | App.tsx:57 | the category test: All, or equal lower-cased category and selected name; All passes every category |
| RecipeFilter.SomeIngredientIncludes | App.tsx:62 | `some` over the ingredients of the lower-cased `includes` test; false on no ingredients, and with the empty query true exactly when there is an ingredient |
| RecipeFilter.MatchesSearch | App.tsx:58-62 | the search test: the lower-cased query in the lower-cased title, summary or some ingredient; the empty query passes |
| RecipeFilter.Matches | App.tsx:64 | both tests pass; All with the empty query passes every recipe |
| RecipeFilter.CategoryNamesLower | types.ts:1-6 | the category names are already lower case |
| RecipeFilter.MatchesCategoryIff | App.tsx:57 | with All every recipe passes; otherwise a recipe passes iff its lower-cased category is the selected name |
| RecipeFilter.SomeIngredientIff | App.tsx:62 | `some` holds iff some ingredient, lower-cased, contains the query |
| RecipeFilter.MatchesSearchIff | App.tsx:58-62 | a recipe passes the search iff the lower-cased query occurs in its lower-cased title, summary or some ingredient |
| RecipeFilter.EmptyQueryMatches | App.tsx:58-62 | the empty query matches every recipe |
| RecipeFilter.FilterShowsAll | App.tsx:55-66 | All with the empty query shows the whole list in its order |
| RecipeFilter.FilterIsOrderedSelection | App.tsx:55-66 | the shown list is the stored list at strictly increasing positions, and those positions are exactly the passing recipes |
| RecipeFilter.FilterIdempotent | App.tsx:55-66 | filtering the shown list again with the same choices changes nothing |
| FilterExamples.DessertMatchesCaseInsensitively | App.tsx:57 | category "Postre" passes the dessert filter and not the first-course filter |
| FilterExamples.TomatoSearchExample | App.tsx:58-62 | a recipe with the ingredient "Tomates cherry" passes the search "tomate" |
| Modal.PlaceholderUrl | components/RecipeModal.tsx:37 | the placeholder address is never empty |
| Modal.Truthy | components/RecipeModal.tsx:24-26 | JavaScript truthiness of an optional string: present and non-empty; null and "" are falsy (also the `||` tests at line 37) |
| Modal.CurrentImage | components/RecipeModal.tsx:37 | the generated image if truthy, else the recipe's image if truthy, else the placeholder for the id; never empty |
| Modal.StarScores | components/RecipeModal.tsx:172 | the star buttons offer exactly the scores 1..5, in increasing order |
| Modal.RecipeModal.constructor | components/RecipeModal.tsx:14-17 | a freshly mounted view has not voted, has no pending request and no generated image |
| Modal.RecipeModal.Image | components/RecipeModal.tsx:37 | the view always shows a non-empty picture address |
| Modal.RecipeModal.HandleRate | components/RecipeModal.tsx:30-35 | the score is forwarded iff the view had not voted; afterwards it has voted |
| Modal.RecipeModal.StartImageRequest | components/RecipeModal.tsx:21-23 | a click while a request is pending (button disabled, line 93) sends nothing; otherwise the title is sent and the pending flag is set |
| Modal.RecipeModal.FinishImageRequest | components/RecipeModal.tsx:24-27 | the pending flag is cleared; the image changes only to a truthy result |
| Modal.RecipeModal.Rerender | App.tsx:159-160 | new props from the parent replace the record and keep the view's flags |
| Modal.GenerateImage | components/RecipeModal.tsx:21-28 | a whole request on an idle view sends the title, ends with the flag down, and shows a truthy result |
| AppState.App.constructor | App.tsx:11-15 | start-up state: empty list, loading, category All, empty search, nothing selected |
| AppState.App.Valid | App.tsx:158-163 | the view is mounted exactly while a recipe is selected, and shows the selected record |
| AppState.App.FilteredRecipes | App.tsx:55-66 | the shown recipes are exactly the stored ones that pass the current choices |
| AppState.App.BeginFetch | App.tsx:18 | a load raises the loading flag |
| AppState.App.CompleteFetch | App.tsx:19-21 | the provider's result replaces the list wholesale and the loading flag drops |
| AppState.App.FetchRecipes | App.tsx:17-22 | a whole load ends with the provider's result as the list and loading false |
| AppState.App.SelectCategory | App.tsx:71 | the chosen category becomes the filter |
| AppState.App.SetSearchQuery | App.tsx:72 | the typed text becomes the search query |
| AppState.App.SelectRecipe | App.tsx:131 | the clicked recipe is selected; the view is mounted fresh if it was not mounted, else kept with its flags |
| AppState.App.CloseRecipe | App.tsx:161 | closing clears the selection and unmounts the view |
| AppState.App.HandleRateRecipe | App.tsx:28-53 | with no selection nothing changes; otherwise the list is rated by id and the selection is re-read as the first match, ratings stay in range |
| AppState.App.RateFromView | App.tsx:158-163 | a star click rates the list only on the view's first vote; later clicks change nothing |
| AppState.VoteReopenVote | App.tsx:158-163 | vote, ignored second vote, close, reopen and vote: the recipe ends with exactly two more votes |

## Left out

- The content provider (`services/geminiService.ts`) is not part of this model. This covers the remote calls, the JSON parsing, the prompt text and the random seeding of ratings and votes. Its results are parameters, as described above.
- Binary floating point is not modelled. Ratings are exact tenths and the mean is rounded exactly. At an exact hundredth tie the program can round down where the model rounds up: 4.1 from 1 vote, rated 5, is the double 4.5499... in the program, which `toFixed(1)` turns into 4.5, while the model gives 4.6.
- Rating.NewRating10: ratings and scores are natural numbers. Negative or fractional values never arise, because seeds lie in 4.0..5.0 and the only caller passes the star values 1..5.
- Text.ToLower: only ASCII and Latin-1 capitals are lower-cased. Full Unicode case mapping is not modelled.
- Async scheduling is not modelled. This covers overlapping loads, React state batching, `useEffect` and `useMemo`. It also covers an image result that arrives after the view was closed: `FinishImageRequest` would then change only the detached view object.
- Hover-star rendering and all markup are left out. So are the menu flags of `components/Navbar.tsx`, the display-only `components/RecipeCard.tsx` and the ad script of `components/AdSenseBanner.tsx`.
- Modal.GenerateImage requires an idle view because the button is disabled while a request is pending. `StartImageRequest` models the disabled click itself.
