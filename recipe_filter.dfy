/** The list of recipes on show: the stored recipes that pass the category
    filter and the text search, in their stored order. */
module RecipeFilter {
  import opened Types
  import opened Text

  /** The category test: the `All` choice lets every recipe through; any
      other choice compares lower-cased names. */
  predicate MatchesCategory(selected: Category, category: string)
    ensures selected == All ==> MatchesCategory(selected, category)
  {
    selected == All || ToLower(category) == ToLower(CategoryName(selected))
  }

  /** Some ingredient contains the (already lower-cased) query after
      lower-casing (`Array.prototype.some`). */
  predicate SomeIngredientIncludes(ingredients: seq<string>, query: string)
    ensures SomeIngredientIncludes(ingredients, query) ==> ingredients != []
    ensures query == "" ==> (SomeIngredientIncludes(ingredients, query) <==> ingredients != [])
  {
    ingredients != [] &&
    (Includes(ToLower(ingredients[0]), query) || SomeIngredientIncludes(ingredients[1..], query))
  }

  /** The search test: the lower-cased query occurs in the lower-cased
      title, summary or some ingredient. */
  predicate MatchesSearch(r: Recipe, query: string)
    ensures query == "" ==> MatchesSearch(r, query)
  {
    var q := ToLower(query);
    Includes(ToLower(r.title), q) || Includes(ToLower(r.summary), q) ||
    SomeIngredientIncludes(r.ingredients, q)
  }

  /** Both tests pass. */
  predicate Matches(r: Recipe, selected: Category, query: string)
    ensures selected == All && query == "" ==> Matches(r, selected, query)
  {
    MatchesCategory(selected, r.category) && MatchesSearch(r, query)
  }

  /** The recipes passing both tests, in their order in `s`. */
  function Filter(s: seq<Recipe>, selected: Category, query: string): (t: seq<Recipe>)
    ensures |t| <= |s|
    ensures forall x :: x in t <==> x in s && Matches(x, selected, query)
  {
    if s == [] then []
    else
      var rest := Filter(s[1..], selected, query);
      assert forall x :: x in s <==> x == s[0] || x in s[1..];
      if Matches(s[0], selected, query) then [s[0]] + rest else rest
  }

  /** The category names are their own lower case. */
  lemma CategoryNamesLower(c: Category)
    ensures ToLower(CategoryName(c)) == CategoryName(c)
  {
    var n := CategoryName(c);
    forall i | 0 <= i < |n| ensures LowerChar(n[i]) == n[i] {
    }
    assert ToLower(n) == n;
  }

  /** With `All` every category passes; otherwise exactly the categories
      whose lower case is the selected name. */
  lemma MatchesCategoryIff(selected: Category, category: string)
    ensures selected == All ==> MatchesCategory(selected, category)
    ensures selected != All ==>
      (MatchesCategory(selected, category) <==> ToLower(category) == CategoryName(selected))
  {
    CategoryNamesLower(selected);
  }

  /** `some` over the ingredients is an existential over their positions. */
  lemma {:induction false} SomeIngredientIff(ingredients: seq<string>, query: string)
    ensures SomeIngredientIncludes(ingredients, query) <==>
      exists i :: 0 <= i < |ingredients| && Includes(ToLower(ingredients[i]), query)
  {
    if ingredients != [] {
      SomeIngredientIff(ingredients[1..], query);
      assert forall i :: 0 < i < |ingredients| ==> ingredients[1..][i - 1] == ingredients[i];
    }
  }

  /** The search test in terms of occurrences: the lower-cased query
      occurs in the lower-cased title, summary or some ingredient. */
  lemma MatchesSearchIff(r: Recipe, query: string)
    ensures MatchesSearch(r, query) <==>
      Occurs(ToLower(r.title), ToLower(query)) ||
      Occurs(ToLower(r.summary), ToLower(query)) ||
      exists i :: 0 <= i < |r.ingredients| && Occurs(ToLower(r.ingredients[i]), ToLower(query))
  {
    var q := ToLower(query);
    IncludesIff(ToLower(r.title), q);
    IncludesIff(ToLower(r.summary), q);
    SomeIngredientIff(r.ingredients, q);
    forall i | 0 <= i < |r.ingredients|
      ensures Includes(ToLower(r.ingredients[i]), q) <==> Occurs(ToLower(r.ingredients[i]), q)
    {
      IncludesIff(ToLower(r.ingredients[i]), q);
    }
  }

  /** The empty query matches every recipe. */
  lemma EmptyQueryMatches(r: Recipe)
    ensures MatchesSearch(r, "")
  {
    EmptyIncluded(ToLower(r.title));
  }

  /** Filtering with `All` and the empty query shows the whole list. */
  lemma {:induction false} FilterShowsAll(s: seq<Recipe>)
    ensures Filter(s, All, "") == s
  {
    if s != [] {
      EmptyQueryMatches(s[0]);
      FilterShowsAll(s[1..]);
    }
  }

  /** `idx` lists, in increasing order, positions of `s` whose recipes
      make up `t`. */
  ghost predicate SelectsPositions(t: seq<Recipe>, s: seq<Recipe>, idx: seq<nat>)
  {
    |idx| == |t| &&
    (forall k :: 0 <= k < |idx| ==> idx[k] < |s| && t[k] == s[idx[k]]) &&
    (forall k, l :: 0 <= k < l < |idx| ==> idx[k] < idx[l])
  }

  /** Every position moved one place to the right. */
  function Shift(idx: seq<nat>): (r: seq<nat>)
    ensures |r| == |idx|
    ensures forall k :: 0 <= k < |idx| ==> r[k] == idx[k] + 1
  {
    seq(|idx|, k requires 0 <= k < |idx| => idx[k] + 1)
  }

  /** A selection from `s` is a selection from `x` followed by `s`, at the
      shifted positions, with or without `x` itself in front. */
  lemma SelectionCons(x: Recipe, t: seq<Recipe>, s: seq<Recipe>, idx: seq<nat>)
    requires SelectsPositions(t, s, idx)
    ensures SelectsPositions(t, [x] + s, Shift(idx))
    ensures SelectsPositions([x] + t, [x] + s, [0] + Shift(idx))
    ensures forall i :: 0 < i <= |s| ==> (i in Shift(idx) <==> i - 1 in idx)
    ensures 0 !in Shift(idx)
  {
    var sh := Shift(idx);
    forall i | 0 < i <= |s| ensures (i in sh <==> i - 1 in idx) {
      if i - 1 in idx {
        var k :| 0 <= k < |idx| && idx[k] == i - 1;
        assert sh[k] == i;
      }
    }
  }

  /** The filtered list is the subsequence of `s` at the increasing positions
      `idx`, and those positions are exactly the ones whose recipe passes. */
  lemma {:induction false} FilterIsOrderedSelection(s: seq<Recipe>, selected: Category, query: string)
    returns (idx: seq<nat>)
    ensures SelectsPositions(Filter(s, selected, query), s, idx)
    ensures forall i :: 0 <= i < |s| ==> (i in idx <==> Matches(s[i], selected, query))
  {
    if s == [] {
      idx := [];
    } else {
      var rest := FilterIsOrderedSelection(s[1..], selected, query);
      SelectionCons(s[0], Filter(s[1..], selected, query), s[1..], rest);
      assert s == [s[0]] + s[1..];
      idx := if Matches(s[0], selected, query) then [0] + Shift(rest) else Shift(rest);
      forall i | 0 < i < |s| ensures Matches(s[i], selected, query) == Matches(s[1..][i - 1], selected, query) {
      }
    }
  }

  /** Filtering an already filtered list with the same choices changes
      nothing. */
  lemma {:induction false} FilterIdempotent(s: seq<Recipe>, selected: Category, query: string)
    ensures Filter(Filter(s, selected, query), selected, query) == Filter(s, selected, query)
  {
    if s != [] {
      FilterIdempotent(s[1..], selected, query);
    }
  }
}
