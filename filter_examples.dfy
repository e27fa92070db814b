/** Worked cases of the filter: a category in another letter case, and an
    ingredient found by a lower-case search. */
module FilterExamples {
  import opened Types
  import opened Text
  import opened RecipeFilter

  /** "Postre" in any letter case is a dessert. */
  lemma DessertMatchesCaseInsensitively(r: Recipe)
    requires r.category == "Postre"
    ensures MatchesCategory(Postre, r.category)
    ensures !MatchesCategory(Primero, r.category)
  {
    CategoryNamesLower(Postre);
    assert ToLower(r.category) == "postre";
  }

  /** The lower case of "tomate" starts the lower case of "Tomates cherry". */
  lemma TomatoLowerCase(ingredient: string, query: string)
    requires ingredient == "Tomates cherry" && query == "tomate"
    ensures OccursAt(ToLower(ingredient), ToLower(query), 0)
  {
    var l, q := ToLower(ingredient), ToLower(query);
    forall k | 0 <= k < 6 ensures l[k] == q[k] {
      assert ingredient[k] == query[k] || k == 0;
    }
    assert l[0..6] == q;
  }

  /** A recipe with the ingredient "Tomates cherry" is found by the search
      "tomate". */
  lemma TomatoSearchExample(r: Recipe, query: string)
    requires "Tomates cherry" in r.ingredients && query == "tomate"
    ensures MatchesSearch(r, query)
  {
    var i :| 0 <= i < |r.ingredients| && r.ingredients[i] == "Tomates cherry";
    var l, q := ToLower(r.ingredients[i]), ToLower(query);
    TomatoLowerCase(r.ingredients[i], query);
    OccurrenceFound(l, q, 0);
    SomeIngredientIff(r.ingredients, q);
  }
}
