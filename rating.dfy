/**
 * The rating circle: a rating is clamped to [0, maxRating], turned into a
 * percentage, and the percentage picks a colour band and the offset of the
 * drawn arc.
 */
module Rating {
  import opened Wrappers

  /** `maxRating` when the caller gives none. */
  const DefaultMaxRating: real := 10.0

  function MaxRatingOrDefault(maxRating: Option<real>): (m: real)
    ensures maxRating.None? ==> m == DefaultMaxRating
    ensures maxRating.Some? ==> m == maxRating.value
  {
    maxRating.GetOr(DefaultMaxRating)
  }

  function Min(a: real, b: real): real { if a <= b then a else b }
  function Max(a: real, b: real): real { if a >= b then a else b }

  /** `Math.min(Math.max(rating, 0), maxRating)`. */
  function NormalizedRating(rating: real, maxRating: real): (n: real)
    ensures 0.0 <= maxRating ==> 0.0 <= n <= maxRating
    ensures 0.0 <= rating <= maxRating ==> n == rating
    ensures maxRating < 0.0 ==> n == maxRating
    ensures 0.0 <= maxRating && rating < 0.0 ==> n == 0.0
    ensures 0.0 <= maxRating && maxRating < rating ==> n == maxRating
  {
    Min(Max(rating, 0.0), maxRating)
  }

  /** A percentage, or the NaN that `0 / 0` gives when maxRating is zero. */
  datatype Percent = Finite(value: real) | NaN

  /** `(normalizedRating / maxRating) * 100`. */
  function Percentage(rating: real, maxRating: real): (p: Percent)
    ensures p.NaN? <==> maxRating == 0.0
    ensures maxRating > 0.0 ==> p.Finite? && 0.0 <= p.value <= 100.0
    ensures maxRating < 0.0 ==> p == Finite(100.0)
    ensures maxRating > 0.0 && 0.0 <= rating <= maxRating ==> p == Finite(rating / maxRating * 100.0)
    ensures maxRating > 0.0 && rating < 0.0 ==> p == Finite(0.0)
    ensures maxRating > 0.0 && maxRating < rating ==> p == Finite(100.0)
  {
    if maxRating == 0.0 then NaN
    else
      var n := NormalizedRating(rating, maxRating);
      if maxRating > 0.0 then
        assert n / maxRating <= 1.0 by { QuotientAtMostOne(n, maxRating); }
        Finite(n / maxRating * 100.0)
      else
        assert n / maxRating == 1.0;
        Finite(n / maxRating * 100.0)
  }

  lemma QuotientAtMostOne(n: real, m: real)
    requires 0.0 <= n <= m && m > 0.0
    ensures 0.0 <= n / m <= 1.0
  {
  }

  datatype Band = Green | Yellow | Red
  {
    /** The text colour class of the band. */
    function ClassName(): string
    {
      match this
      case Green => "text-green-500"
      case Yellow => "text-yellow-500"
      case Red => "text-red-500"
    }

    /** How good the band is: red 0, yellow 1, green 2. */
    function Rank(): nat
    {
      match this
      case Red => 0
      case Yellow => 1
      case Green => 2
    }
  }

  /** The if-chain on the percentage; every comparison with NaN is false, so NaN falls through to red. */
  function ColorBand(p: Percent): (b: Band)
    ensures b == Green <==> p.Finite? && p.value >= 75.0
    ensures b == Yellow <==> p.Finite? && 60.0 <= p.value < 75.0
    ensures b == Red <==> p.NaN? || p.value < 60.0
  {
    if p.Finite? && p.value >= 75.0 then Green
    else if p.Finite? && p.value >= 60.0 then Yellow
    else Red
  }

  /** The band of a rating out of maxRating. */
  function RatingBand(rating: real, maxRating: real): Band
  {
    ColorBand(Percentage(rating, maxRating))
  }

  /** `100 - percentage`, NaN when the percentage is NaN. */
  function StrokeDashoffset(p: Percent): (o: Percent)
    ensures p.NaN? <==> o.NaN?
    ensures p.Finite? ==> o.value + p.value == 100.0
    ensures p.Finite? && 0.0 <= p.value <= 100.0 ==> 0.0 <= o.value <= 100.0
  {
    match p
    case NaN => NaN
    case Finite(v) => Finite(100.0 - v)
  }

  /** With a positive maximum the arc offset of any rating lies in [0, 100]. */
  lemma DashoffsetInRange(rating: real, maxRating: real)
    requires maxRating > 0.0
    ensures StrokeDashoffset(Percentage(rating, maxRating)).Finite?
    ensures 0.0 <= StrokeDashoffset(Percentage(rating, maxRating)).value <= 100.0
  {
  }

  /** The percentage never falls as the rating rises. */
  lemma {:induction false} PercentageMonotone(r1: real, r2: real, maxRating: real)
    requires r1 <= r2 && maxRating > 0.0
    ensures Percentage(r1, maxRating).value <= Percentage(r2, maxRating).value
  {
    var n1 := NormalizedRating(r1, maxRating);
    var n2 := NormalizedRating(r2, maxRating);
    assert n1 <= n2;
    DivideMonotone(n1, n2, maxRating);
  }

  lemma DivideMonotone(a: real, b: real, m: real)
    requires a <= b && m > 0.0
    ensures a / m * 100.0 <= b / m * 100.0
  {
    assert a / m <= b / m;
  }

  /** A higher rating never gives a worse band. */
  lemma BandMonotone(r1: real, r2: real, maxRating: real)
    requires r1 <= r2 && maxRating > 0.0
    ensures RatingBand(r1, maxRating).Rank() <= RatingBand(r2, maxRating).Rank()
  {
    PercentageMonotone(r1, r2, maxRating);
  }

  /** With the default maximum of 10, a rating of 7.5 or more is green and one below 6 is red. */
  lemma DefaultScaleThresholds(rating: real)
    ensures rating >= 7.5 ==> RatingBand(rating, DefaultMaxRating) == Green
    ensures 6.0 <= rating < 7.5 ==> RatingBand(rating, DefaultMaxRating) == Yellow
    ensures rating < 6.0 ==> RatingBand(rating, DefaultMaxRating) == Red
  {
  }
}
