/** The weighted-average rating update, in exact integer tenths.

    The application keeps `rating` as a JavaScript number with one decimal
    and rounds the new mean with `toFixed(1)`, which picks the nearest
    multiple of 0.1 and, on a tie, the larger one.  Here a rating is a
    natural number of tenths, so the mean (rating * votes + score) / (votes + 1)
    becomes the fraction num / den below with num counted in tenths. */
module Rating {

  /** `n` is the value num / den rounded to the nearest integer with ties
      going up: n - 1/2 <= num / den < n + 1/2, cleared of fractions. */
  ghost predicate RoundsHalfUpTo(num: int, den: int, n: int)
  {
    2 * den * n <= 2 * num + den < 2 * den * n + 2 * den
  }

  /** num / den rounded half up, for a positive denominator. */
  function RoundHalfUp(num: nat, den: nat): (n: nat)
    requires den > 0
    ensures RoundsHalfUpTo(num, den, n)
  {
    (2 * num + den) / (2 * den)
  }

  /** Distance, doubled and scaled by den, between num / den and n. */
  function Gap(num: int, den: int, n: int): nat
  {
    if 2 * num >= 2 * den * n then 2 * num - 2 * den * n else 2 * den * n - 2 * num
  }

  lemma CancelLess(k: int, x: int, y: int)
    requires k > 0 && k * x < k * y
    ensures x < y
  {
    assert k * (y - x) == k * y - k * x;
  }

  lemma MulStep(k: nat, x: int, y: int)
    requires x <= y
    ensures k * x <= k * y
  {
    assert k * y - k * x == k * (y - x);
  }

  /** Rounding half up is what `toFixed` does: no integer is nearer to
      num / den than the rounded value, and an integer exactly as near is
      not larger. */
  lemma RoundHalfUpIsNearest(num: nat, den: nat, m: int)
    requires den > 0
    ensures Gap(num, den, RoundHalfUp(num, den)) <= Gap(num, den, m)
    ensures Gap(num, den, RoundHalfUp(num, den)) == Gap(num, den, m) ==> m <= RoundHalfUp(num, den)
  {
    var n := RoundHalfUp(num, den);
    var d := 2 * den;
    var dn, dm := d * n, d * m;
    assert dn <= 2 * num + den < dn + d;
    if m > n {
      MulStep(d, n + 1, m);
      assert dm >= dn + d;
    } else if m < n {
      MulStep(d, m, n - 1);
      assert dm <= dn - d;
    }
  }

  /** Only one integer satisfies the rounding condition. */
  lemma RoundHalfUpUnique(num: nat, den: nat, n: int)
    requires den > 0
    requires RoundsHalfUpTo(num, den, n)
    ensures n == RoundHalfUp(num, den)
  {
    var r := RoundHalfUp(num, den);
    CancelLess(2 * den, n, r + 1);
    CancelLess(2 * den, r, n + 1);
  }

  /** Rounding keeps a value that lies between two integers a and b
      between them. */
  lemma RoundHalfUpBetween(num: nat, den: nat, a: int, b: int)
    requires den > 0
    requires a * den <= num <= b * den
    ensures a <= RoundHalfUp(num, den) <= b
  {
    var n := RoundHalfUp(num, den);
    assert 2 * den * a < 2 * den * (n + 1) by {
      assert 2 * den * a == 2 * (a * den);
    }
    CancelLess(2 * den, a, n + 1);
    assert 2 * den * n < 2 * den * (b + 1) by {
      assert 2 * den * b == 2 * (b * den);
    }
    CancelLess(2 * den, n, b + 1);
  }

  /** The numerator of the new mean, in tenths. */
  function MeanNumerator(rating10: nat, votes: nat, score: nat): (num: nat)
    ensures rating10 <= 50 && score <= 5 ==> num <= 50 * (votes + 1)
  {
    rating10 * votes + 10 * score
  }

  /** The new average in tenths after one more vote of `score` stars on a
      recipe rated `rating10` tenths from `votes` votes. */
  function NewRating10(rating10: nat, votes: nat, score: nat): (n: nat)
    ensures RoundsHalfUpTo(MeanNumerator(rating10, votes, score), votes + 1, n)
  {
    RoundHalfUp(MeanNumerator(rating10, votes, score), votes + 1)
  }

  function Min(a: int, b: int): int { if a <= b then a else b }
  function Max(a: int, b: int): int { if a <= b then b else a }

  /** The new average lies between the old average and the new score. */
  lemma NewRatingBetween(rating10: nat, votes: nat, score: nat)
    ensures Min(rating10, 10 * score) <= NewRating10(rating10, votes, score) <= Max(rating10, 10 * score)
  {
    var num, den := MeanNumerator(rating10, votes, score), votes + 1;
    var lo, hi := Min(rating10, 10 * score), Max(rating10, 10 * score);
    assert lo * den <= num <= hi * den by {
      assert lo * den == lo * votes + lo;
      assert hi * den == hi * votes + hi;
      MulStep(votes, lo, rating10);
      MulStep(votes, rating10, hi);
    }
    RoundHalfUpBetween(num, den, lo, hi);
  }

  /** A rating within 0.0..5.0 stays there after a vote of at most five
      stars. */
  lemma NewRatingInRange(rating10: nat, votes: nat, score: nat)
    requires rating10 <= 50 && score <= 5
    ensures NewRating10(rating10, votes, score) <= 50
  {
    NewRatingBetween(rating10, votes, score);
  }

  /** 4.0 stars from 10 votes, rated 5: the mean 45/11 = 4.09... becomes 4.1. */
  lemma NewRatingExample()
    ensures NewRating10(40, 10, 5) == 41
  {
  }
}
