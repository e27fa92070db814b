/** The application's store: the recipe list and its loading flag, the
    category and search choices, the selected recipe, and the detail view
    that is mounted exactly while a recipe is selected. */
module AppState {
  import opened Types
  import opened RecipeFilter
  import opened RecipeRating
  import opened Modal

  class App {
    var recipes: seq<Recipe>
    var loading: bool
    var selectedCategory: Category
    var searchQuery: string
    var selectedRecipe: Option<Recipe>
    var modal: RecipeModal?

    /** The detail view is mounted exactly while a recipe is selected, and
        shows the selected record. */
    ghost predicate Valid()
      reads this, modal
      ensures Valid() && modal != null ==> selectedRecipe == Some(modal.recipe)
      ensures Valid() && modal == null ==> selectedRecipe == None
    {
      (modal == null <==> selectedRecipe.None?) &&
      (modal != null ==> modal.recipe == selectedRecipe.value)
    }

    /** Every stored rating, and the selected one, within 0.0..5.0. */
    ghost predicate RatingsValid()
      reads this
    {
      RatingsInRange(recipes) &&
      (selectedRecipe.Some? ==> selectedRecipe.value.rating10 <= 50)
    }

    /** Start-up state: nothing loaded yet, a load in progress, no filter,
        nothing selected. */
    constructor ()
      ensures Valid()
      ensures recipes == [] && loading && selectedCategory == All && searchQuery == ""
      ensures selectedRecipe == None
    {
      recipes := [];
      loading := true;
      selectedCategory := All;
      searchQuery := "";
      selectedRecipe := None;
      modal := null;
    }

    /** The recipes on show. */
    function FilteredRecipes(): (shown: seq<Recipe>)
      reads this
      ensures forall x :: x in shown <==> x in recipes && Matches(x, selectedCategory, searchQuery)
    {
      Filter(recipes, selectedCategory, searchQuery)
    }

    /** A load starts: the loading flag goes up. */
    method BeginFetch()
      modifies this`loading
      ensures loading
    {
      loading := true;
    }

    /** The provider answered with `data` (empty on any failure): the list
        is replaced wholesale and the loading flag goes down. */
    method CompleteFetch(data: seq<Recipe>)
      modifies this`recipes, this`loading
      ensures recipes == data && !loading
    {
      recipes := data;
      loading := false;
    }

    /** A whole load whose provider call returns `data`. */
    method FetchRecipes(data: seq<Recipe>)
      modifies this`recipes, this`loading
      ensures recipes == data && !loading
    {
      BeginFetch();
      CompleteFetch(data);
    }

    /** The navigation bar's category choice. */
    method SelectCategory(c: Category)
      modifies this`selectedCategory
      ensures selectedCategory == c
    {
      selectedCategory := c;
    }

    /** The navigation bar's search text. */
    method SetSearchQuery(q: string)
      modifies this`searchQuery
      ensures searchQuery == q
    {
      searchQuery := q;
    }

    /** A recipe card was clicked.  A view that was not mounted is mounted
        fresh, with its flags cleared; a mounted view is kept with its flags
        and re-rendered with the new record. */
    method SelectRecipe(r: Recipe)
      requires Valid()
      modifies this`selectedRecipe, this`modal, modal
      ensures Valid() && selectedRecipe == Some(r)
      ensures old(modal) == null ==>
        fresh(modal) && !modal.userHasRated && !modal.isGeneratingImage && modal.generatedImage == None
      ensures old(modal) != null ==>
        modal == old(modal) && modal.userHasRated == old(modal.userHasRated) &&
        modal.isGeneratingImage == old(modal.isGeneratingImage) &&
        modal.generatedImage == old(modal.generatedImage)
    {
      selectedRecipe := Some(r);
      if modal == null {
        modal := new RecipeModal(r);
      } else {
        modal.Rerender(r);
      }
    }

    /** The detail view was closed: nothing is selected and the view is
        unmounted. */
    method CloseRecipe()
      modifies this`selectedRecipe, this`modal
      ensures Valid() && selectedRecipe == None && modal == null
    {
      selectedRecipe := None;
      modal := null;
    }

    /** The parent's rating handler: with no selected recipe nothing
        changes; otherwise every recipe with the selected id gets the vote,
        and the selected recipe is read back as the first such recipe of
        the new list (kept as it was if there is none).  This is the
        handler step before the re-render: the mounted view still holds the
        old record, so `Valid()` may not hold afterwards; `RateFromView`
        re-renders the view and so restores it. */
    method HandleRateRecipe(score: nat)
      modifies this`recipes, this`selectedRecipe
      ensures old(selectedRecipe).None? ==> recipes == old(recipes) && selectedRecipe == old(selectedRecipe)
      ensures old(selectedRecipe).Some? ==>
        var id := old(selectedRecipe).value.id;
        recipes == RateMatching(old(recipes), id, score) &&
        selectedRecipe == (if FindById(recipes, id).Some? then FindById(recipes, id) else old(selectedRecipe))
      ensures old(RatingsValid()) && score <= 5 ==> RatingsValid()
    {
      if selectedRecipe.None? {
        return;
      }
      var id := selectedRecipe.value.id;
      var updated := RateMatching(recipes, id, score);
      recipes := updated;
      var found := FindById(updated, id);
      if found.Some? {
        selectedRecipe := found;
      }
      if old(RatingsValid()) && score <= 5 {
        RateKeepsRange(old(recipes), id, score);
      }
    }

    /** A star of the mounted detail view was clicked.  The view passes the
        first score on to the rating handler and ignores the later ones;
        then it is re-rendered with the refreshed selected recipe. */
    method RateFromView(score: nat)
      requires Valid() && modal != null
      modifies this`recipes, this`selectedRecipe, modal
      ensures Valid() && modal == old(modal) && modal.userHasRated
      ensures modal.isGeneratingImage == old(modal.isGeneratingImage)
      ensures modal.generatedImage == old(modal.generatedImage)
      ensures old(modal.userHasRated) ==>
        recipes == old(recipes) && selectedRecipe == old(selectedRecipe)
      ensures !old(modal.userHasRated) ==>
        var id := old(selectedRecipe).value.id;
        recipes == RateMatching(old(recipes), id, score) &&
        selectedRecipe == (if FindById(recipes, id).Some? then FindById(recipes, id) else old(selectedRecipe))
      ensures old(RatingsValid()) && score <= 5 ==> RatingsValid()
    {
      var forwarded := modal.HandleRate(score);
      if forwarded.Some? {
        HandleRateRecipe(forwarded.value);
      }
      modal.Rerender(selectedRecipe.value);
    }
  }

  /** Voting, closing the view and opening the same recipe again allows a
      second vote: with unique ids the recipe ends with two more votes, even
      though a second click in the first view was ignored. */
  method VoteReopenVote(app: App, k: nat, s1: nat, s2: nat, s3: nat)
    requires app.Valid() && app.modal == null
    requires UniqueIds(app.recipes) && k < |app.recipes|
    modifies app
    ensures |app.recipes| == old(|app.recipes|)
    ensures app.recipes[k].votes == old(app.recipes[k].votes) + 2
    ensures forall j :: 0 <= j < |app.recipes| && j != k ==> app.recipes[j] == old(app.recipes[j])
  {
    ghost var before := app.recipes;
    var r := app.recipes[k];
    app.SelectRecipe(r);
    app.RateFromView(s1);
    ghost var first := app.recipes;
    assert first == RateMatching(before, r.id, s1);
    RateUniqueChangesOne(before, r.id, s1, k);
    app.RateFromView(s2);
    assert app.recipes == first;
    app.CloseRecipe();
    app.SelectRecipe(app.recipes[k]);
    assert !app.modal.userHasRated && app.selectedRecipe.value.id == r.id;
    app.RateFromView(s3);
    assert app.recipes == RateMatching(first, r.id, s3);
    RateUniqueChangesOne(first, r.id, s3, k);
  }
}
