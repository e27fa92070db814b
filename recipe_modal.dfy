/** The detail view of one recipe: the one-vote guard, the image request
    with its pending flag, and the choice of picture to show. */
module Modal {
  import opened Types

  /** JavaScript truthiness of an optional string: present and not empty. */
  predicate Truthy(o: Option<string>)
    ensures Truthy(o) ==> o.Some? && |o.value| > 0
    ensures o == None || o == Some("") ==> !Truthy(o)
  {
    o.Some? && o.value != ""
  }

  /** The stock picture for a recipe that has no image of its own. */
  function PlaceholderUrl(id: string): (url: string)
    ensures url != ""
  {
    "https://picsum.photos/seed/" + id + "/800/600"
  }

  /** The picture shown: the generated image if there is one, else the
      recipe's own image, else the placeholder keyed by the recipe id;
      empty strings count as absent. */
  function CurrentImage(generated: Option<string>, recipe: Recipe): (url: string)
    ensures url != ""
    ensures Truthy(generated) ==> url == generated.value
    ensures !Truthy(generated) && Truthy(recipe.imageUrl) ==> url == recipe.imageUrl.value
    ensures !Truthy(generated) && !Truthy(recipe.imageUrl) ==> url == PlaceholderUrl(recipe.id)
  {
    if Truthy(generated) then generated.value
    else if Truthy(recipe.imageUrl) then recipe.imageUrl.value
    else PlaceholderUrl(recipe.id)
  }

  /** The scores offered by the five star buttons, in display order. */
  function StarScores(): (scores: seq<nat>)
    ensures |scores| == 5
    ensures forall s :: s in scores <==> 1 <= s <= 5
    ensures forall i, j :: 0 <= i < j < |scores| ==> scores[i] < scores[j]
  {
    [1, 2, 3, 4, 5]
  }

  /** One mounted detail view.  `recipe` is the record the parent passes
      in; the three flags are the view's own state and start cleared each
      time the view is mounted. */
  class RecipeModal {
    var recipe: Recipe
    var isGeneratingImage: bool
    var generatedImage: Option<string>
    var userHasRated: bool

    constructor (r: Recipe)
      ensures recipe == r
      ensures !isGeneratingImage && generatedImage == None && !userHasRated
    {
      recipe := r;
      isGeneratingImage := false;
      generatedImage := None;
      userHasRated := false;
    }

    /** The picture the view shows now. */
    function Image(): (url: string)
      reads this
      ensures url != ""
    {
      CurrentImage(generatedImage, recipe)
    }

    /** A star was clicked: the score is passed on to the parent only if
        this view has not voted yet, and afterwards it has. */
    method HandleRate(score: nat) returns (forwarded: Option<nat>)
      modifies this`userHasRated
      ensures forwarded == if old(userHasRated) then None else Some(score)
      ensures userHasRated
    {
      forwarded := None;
      if !userHasRated {
        forwarded := Some(score);
        userHasRated := true;
      }
    }

    /** The generate button was clicked.  The button is disabled while a
        request is pending, so a click then does nothing; otherwise the
        pending flag is set and the recipe title is sent to the image
        provider. */
    method StartImageRequest() returns (request: Option<string>)
      modifies this`isGeneratingImage
      ensures request == if old(isGeneratingImage) then None else Some(recipe.title)
      ensures isGeneratingImage
    {
      request := None;
      if !isGeneratingImage {
        isGeneratingImage := true;
        request := Some(recipe.title);
      }
    }

    /** The image provider answered: a truthy image replaces the shown one,
        a missing one keeps it; either way the request is over. */
    method FinishImageRequest(result: Option<string>)
      modifies this`isGeneratingImage, this`generatedImage
      ensures !isGeneratingImage
      ensures generatedImage == if Truthy(result) then result else old(generatedImage)
    {
      if Truthy(result) {
        generatedImage := result;
      }
      isGeneratingImage := false;
    }

    /** The parent re-rendered the view with a new record; the view's own
        flags are kept. */
    method Rerender(r: Recipe)
      modifies this`recipe
      ensures recipe == r
    {
      recipe := r;
    }
  }

  /** A full image request on an idle view that the provider answers with
      `result`: the title goes out, the flag is down again afterwards, and
      a truthy result is what the view then shows. */
  method GenerateImage(m: RecipeModal, result: Option<string>) returns (request: Option<string>)
    requires !m.isGeneratingImage
    modifies m
    ensures request == Some(m.recipe.title)
    ensures !m.isGeneratingImage && m.recipe == old(m.recipe) && m.userHasRated == old(m.userHasRated)
    ensures Truthy(result) ==> m.generatedImage == result && m.Image() == result.value
    ensures !Truthy(result) ==> m.generatedImage == old(m.generatedImage)
  {
    request := m.StartImageRequest();
    m.FinishImageRequest(result);
  }
}
