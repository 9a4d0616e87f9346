/** The statistics card of an agent's profile: the five-star rating row and
    the counters fetched together on load. */
module AgentStats {
  import opened Wrappers

  const StarCount := 5

  datatype Star = Full | Half | Empty

  /** `Math.floor(rating)` */
  function FullStars(rating: real): int {
    rating.Floor
  }

  /** JavaScript's `rating % 1`: the fraction keeps the sign of `rating`. */
  function JsFraction(rating: real): (f: real)
    ensures rating >= 0.0 ==> 0.0 <= f < 1.0 && f == rating - rating.Floor as real
    ensures rating < 0.0 ==> -1.0 < f <= 0.0
  {
    if rating >= 0.0 then rating - rating.Floor as real
    else (-rating).Floor as real - (-rating)
  }

  /** `hasHalfStar` */
  predicate HasHalfStar(rating: real) {
    JsFraction(rating) >= 0.5
  }

  /** The star at position `i` of `renderStars(rating)`. */
  function StarAt(rating: real, i: int): Star {
    if i < FullStars(rating) then Full
    else if i == FullStars(rating) && HasHalfStar(rating) then Half
    else Empty
  }

  /** `renderStars`: five stars, built left to right. */
  method RenderStars(rating: real) returns (stars: seq<Star>)
    ensures |stars| == StarCount
    ensures forall i :: 0 <= i < StarCount ==> stars[i] == StarAt(rating, i)
  {
    stars := [];
    var fullStars := rating.Floor;
    var hasHalfStar := HasHalfStar(rating);
    for i := 0 to StarCount
      invariant |stars| == i
      invariant forall k :: 0 <= k < i ==> stars[k] == StarAt(rating, k)
    {
      if i < fullStars {
        stars := stars + [Full];
      } else if i == fullStars && hasHalfStar {
        stars := stars + [Half];
      } else {
        stars := stars + [Empty];
      }
    }
  }

  /** A star's worth in half stars. */
  function Halves(s: Star): nat {
    match s
    case Full => 2
    case Half => 1
    case Empty => 0
  }

  /** The half stars shown by the first `n` positions. */
  function HalvesShown(rating: real, n: nat): nat {
    if n == 0 then 0 else HalvesShown(rating, n - 1) + Halves(StarAt(rating, n - 1))
  }

  /** Star `i` is full exactly below `Math.floor(rating)`, the one star at
      that index is half exactly when the fraction is at least 0.5, and no
      other star is half. */
  lemma StarLayout(rating: real, i: int, j: int)
    ensures StarAt(rating, i).Full? <==> i < rating.Floor
    ensures StarAt(rating, i).Half? <==> i == rating.Floor && JsFraction(rating) >= 0.5
    ensures StarAt(rating, i).Half? && StarAt(rating, j).Half? ==> i == j
  {
  }

  /** Stars never get fuller to the right: full ones, then at most one half,
      then empty ones. */
  lemma StarsOrdered(rating: real, i: int, j: int)
    requires i < j
    ensures Halves(StarAt(rating, i)) >= Halves(StarAt(rating, j))
    ensures StarAt(rating, i).Half? ==> StarAt(rating, j).Empty?
  {
  }

  lemma {:induction false} HalvesShownPrefix(rating: real, n: nat)
    requires 0.0 <= rating
    ensures HalvesShown(rating, n) ==
      2 * (if n <= FullStars(rating) then n else FullStars(rating))
      + (if FullStars(rating) < n && HasHalfStar(rating) then 1 else 0)
  {
    if n > 0 {
      HalvesShownPrefix(rating, n - 1);
    }
  }

  /** For a rating from 0 to 5 the row shows the rating rounded down to a
      half star: `2 * rating` rounded down, in half stars. */
  lemma StarsShowRating(rating: real)
    requires 0.0 <= rating <= 5.0
    ensures HalvesShown(rating, StarCount) == (2.0 * rating).Floor
  {
    HalvesShownPrefix(rating, StarCount);
    var f := rating.Floor;
    var k := 2 * f + (if HasHalfStar(rating) then 1 else 0);
    assert 0 <= f <= 5;
    assert k as real <= 2.0 * rating < k as real + 1.0;
  }

  /** A rating below zero shows five empty stars, one of five or more shows
      five full ones. */
  lemma StarsOutOfRange(rating: real, i: int)
    requires 0 <= i < StarCount
    ensures rating < 0.0 ==> StarAt(rating, i) == Empty
    ensures rating >= 5.0 ==> StarAt(rating, i) == Full
  {
  }

  /** The card's counters; they read 0 until the fetch ends. */
  class StatsState {
    var propertiesCount: int
    var toursCompleted: int
    var tourRequestsThisMonth: int
    var loading: bool

    constructor ()
      ensures propertiesCount == 0 && toursCompleted == 0 && tourRequestsThisMonth == 0 && loading
    {
      propertiesCount, toursCompleted, tourRequestsThisMonth, loading := 0, 0, 0, true;
    }

    /** `fetchStats`: with no profile id nothing happens; otherwise the three
        counts arrive together (`None` when any of them failed), and loading
        ends either way, keeping the old counts on failure. */
    method FetchStats(profileId: string, counts: Option<(int, int, int)>)
      modifies this
      ensures profileId == "" ==>
        propertiesCount == old(propertiesCount) && toursCompleted == old(toursCompleted)
        && tourRequestsThisMonth == old(tourRequestsThisMonth) && loading == old(loading)
      ensures profileId != "" && counts.Some? ==>
        (propertiesCount, toursCompleted, tourRequestsThisMonth) == counts.value && !loading
      ensures profileId != "" && counts.None? ==>
        propertiesCount == old(propertiesCount) && toursCompleted == old(toursCompleted)
        && tourRequestsThisMonth == old(tourRequestsThisMonth) && !loading
    {
      if profileId == "" {
        return;
      }
      match counts {
        case Some((p, t, r)) =>
          propertiesCount, toursCompleted, tourRequestsThisMonth := p, t, r;
        case None =>
      }
      loading := false;
    }
  }

  /** `average_rating || 0`, the rating the stars are drawn for. */
  function RatingOrZero(rating: Option<real>): (r: real)
    ensures rating.Some? ==> r == rating.value
    ensures rating.None? ==> r == 0.0
  {
    rating.GetOr(0.0)
  }

  /** `total_reviews || 0` */
  function ReviewCount(reviews: Option<int>): (n: int)
    ensures reviews.Some? ==> n == reviews.value
    ensures reviews.None? ==> n == 0
  {
    reviews.GetOr(0)
  }

  /** An agent without a rating sees five empty stars. */
  lemma NullRatingShowsEmptyStars(i: int)
    requires 0 <= i < StarCount
    ensures StarAt(RatingOrZero(None), i) == Empty
  {
  }
}
