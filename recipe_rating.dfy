/** The pure parts of the store's rating handler: the per-recipe update
    applied by `map` to every recipe whose id matches, and the `find` that
    reads the selected recipe back from the updated list. */
module RecipeRating {
  import opened Types
  import opened Rating

  /** One more vote of `score` stars on `r`. */
  function Rated(r: Recipe, score: nat): (r': Recipe)
    ensures r'.votes == r.votes + 1
    ensures RoundsHalfUpTo(MeanNumerator(r.rating10, r.votes, score), r.votes + 1, r'.rating10)
    ensures r'.(rating10 := r.rating10, votes := r.votes) == r
  {
    r.(votes := r.votes + 1, rating10 := NewRating10(r.rating10, r.votes, score))
  }

  /** The list after rating: same length and order, every recipe with the
      given id rated, every other recipe as it was. */
  function RateMatching(s: seq<Recipe>, id: string, score: nat): (t: seq<Recipe>)
    ensures |t| == |s|
    ensures forall i :: 0 <= i < |s| && s[i].id == id ==> t[i] == Rated(s[i], score)
    ensures forall i :: 0 <= i < |s| && s[i].id != id ==> t[i] == s[i]
  {
    if s == [] then []
    else [if s[0].id == id then Rated(s[0], score) else s[0]] + RateMatching(s[1..], id, score)
  }

  /** `i` is the position of the first recipe with the given id. */
  ghost predicate IsFirstMatch(s: seq<Recipe>, id: string, i: int)
  {
    0 <= i < |s| && s[i].id == id && forall j :: 0 <= j < i ==> s[j].id != id
  }

  /** The first recipe with the given id, if any (`Array.prototype.find`). */
  function FindById(s: seq<Recipe>, id: string): (o: Option<Recipe>)
    ensures o.None? <==> forall i :: 0 <= i < |s| ==> s[i].id != id
    ensures o.Some? ==> exists i :: IsFirstMatch(s, id, i) && s[i] == o.value
  {
    if s == [] then None
    else if s[0].id == id then Some(s[0])
    else
      var o := FindById(s[1..], id);
      assert forall i :: IsFirstMatch(s[1..], id, i) ==> IsFirstMatch(s, id, i + 1);
      o
  }

  /** Reading the selected recipe back after rating yields the first match
      of the old list, rated once. */
  lemma {:induction false} FindAfterRating(s: seq<Recipe>, id: string, score: nat)
    ensures FindById(RateMatching(s, id, score), id) ==
      match FindById(s, id)
      case None => None
      case Some(r) => Some(Rated(r, score))
  {
    if s != [] && s[0].id != id {
      FindAfterRating(s[1..], id, score);
      assert RateMatching(s, id, score)[1..] == RateMatching(s[1..], id, score);
    }
  }

  /** No two recipes of the list share an id. */
  ghost predicate UniqueIds(s: seq<Recipe>)
  {
    forall i, j :: 0 <= i < j < |s| ==> s[i].id != s[j].id
  }

  /** With unique ids, rating changes exactly the one recipe with the id,
      and the ids stay unique. */
  lemma RateUniqueChangesOne(s: seq<Recipe>, id: string, score: nat, k: nat)
    requires UniqueIds(s) && k < |s| && s[k].id == id
    ensures RateMatching(s, id, score)[k] == Rated(s[k], score)
    ensures forall j :: 0 <= j < |s| && j != k ==> RateMatching(s, id, score)[j] == s[j]
    ensures UniqueIds(RateMatching(s, id, score))
  {
    var t := RateMatching(s, id, score);
    forall i, j | 0 <= i < j < |t| ensures t[i].id != t[j].id {
      assert t[i].id == s[i].id && t[j].id == s[j].id;
    }
  }

  /** Number of recipes with the given id. */
  function CountId(s: seq<Recipe>, id: string): nat
  {
    if s == [] then 0 else (if s[0].id == id then 1 else 0) + CountId(s[1..], id)
  }

  /** Sum of the vote counts of the list. */
  function TotalVotes(s: seq<Recipe>): nat
  {
    if s == [] then 0 else s[0].votes + TotalVotes(s[1..])
  }

  /** Rating adds one vote per recipe carrying the id. */
  lemma {:induction false} TotalVotesAfterRating(s: seq<Recipe>, id: string, score: nat)
    ensures TotalVotes(RateMatching(s, id, score)) == TotalVotes(s) + CountId(s, id)
  {
    if s != [] {
      TotalVotesAfterRating(s[1..], id, score);
      assert RateMatching(s, id, score)[1..] == RateMatching(s[1..], id, score);
    }
  }

  /** With unique ids a present id occurs once, so the total grows by one. */
  lemma {:induction false} UniqueCountIsOne(s: seq<Recipe>, id: string, k: nat)
    requires UniqueIds(s) && k < |s| && s[k].id == id
    ensures CountId(s, id) == 1
  {
    if k == 0 {
      NoMatchCountZero(s[1..], id);
    } else {
      UniqueCountIsOne(s[1..], id, k - 1);
    }
  }

  lemma {:induction false} NoMatchCountZero(s: seq<Recipe>, id: string)
    requires forall i :: 0 <= i < |s| ==> s[i].id != id
    ensures CountId(s, id) == 0
  {
    if s != [] {
      NoMatchCountZero(s[1..], id);
    }
  }

  /** Every rating within 0.0..5.0. */
  ghost predicate RatingsInRange(s: seq<Recipe>)
  {
    forall i :: 0 <= i < |s| ==> s[i].rating10 <= 50
  }

  /** A vote of at most five stars keeps every rating within 0.0..5.0. */
  lemma RateKeepsRange(s: seq<Recipe>, id: string, score: nat)
    requires RatingsInRange(s) && score <= 5
    ensures RatingsInRange(RateMatching(s, id, score))
  {
    var t := RateMatching(s, id, score);
    forall i | 0 <= i < |t| ensures t[i].rating10 <= 50 {
      if s[i].id == id {
        NewRatingInRange(s[i].rating10, s[i].votes, score);
      }
    }
  }

  /** The list after a series of votes on the same id, oldest first. */
  function RateSeries(s: seq<Recipe>, id: string, scores: seq<nat>): (t: seq<Recipe>)
    ensures |t| == |s|
    decreases |scores|
  {
    if scores == [] then s
    else RateSeries(RateMatching(s, id, scores[0]), id, scores[1..])
  }

  /** After n votes of at most five stars on a recipe with a unique id, it
      has n more votes, its rating is still within 0.0..5.0, and every other
      recipe is as it was. */
  lemma {:induction false} RateSeriesCountsVotes(s: seq<Recipe>, id: string, scores: seq<nat>, k: nat)
    requires UniqueIds(s) && k < |s| && s[k].id == id
    requires s[k].rating10 <= 50 && forall i :: 0 <= i < |scores| ==> scores[i] <= 5
    ensures RateSeries(s, id, scores)[k].votes == s[k].votes + |scores|
    ensures RateSeries(s, id, scores)[k].rating10 <= 50
    ensures forall j :: 0 <= j < |s| && j != k ==> RateSeries(s, id, scores)[j] == s[j]
    decreases |scores|
  {
    if scores != [] {
      var t := RateMatching(s, id, scores[0]);
      RateUniqueChangesOne(s, id, scores[0], k);
      NewRatingInRange(s[k].rating10, s[k].votes, scores[0]);
      assert forall i :: 0 <= i < |scores[1..]| ==> scores[1..][i] == scores[i + 1];
      RateSeriesCountsVotes(t, id, scores[1..], k);
    }
  }
}
