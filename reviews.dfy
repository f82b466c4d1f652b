/** Product reviews (js/reviews.js): a 1-5 star rating with an optional short
 *  comment, a five-second cooldown per product, the average and the star
 *  distribution, and the small display helpers. Dates are strings; the
 *  function turning one into milliseconds is a parameter. */
module Reviews {
  import opened Common

  datatype Review = Review(id: string, productId: string, userId: Option<string>, userName: string,
                           rating: int, comment: string, createdAt: string)

  /** The signed-in user writing a review. */
  datatype Reviewer = Reviewer(id: string, name: string)

  datatype ReviewError = InvalidRating | CommentTooLong | CooldownActive

  /** The name shown for a review written while signed out. */
  const GuestName: string := "Khách"

  /** Milliseconds a product must wait between two reviews. */
  const Cooldown: int := 5000

  /** The longest comment accepted. */
  const MaxComment: nat := 300

  function ForProduct(productId: string): Review -> bool
  {
    (r: Review) => r.productId == productId
  }

  /** The sort key of "newest first". */
  function CreatedKey(timeOf: string -> int): Review -> int
  {
    (r: Review) => timeOf(r.createdAt)
  }

  /** getReviews: that product's reviews and no others, newest first. */
  function GetReviews(all: seq<Review>, productId: string, timeOf: string -> int): (r: seq<Review>)
    ensures forall x :: x in r <==> x in all && x.productId == productId
    ensures multiset(r) == multiset(Filter(all, ForProduct(productId)))
    ensures SortedDesc(r, CreatedKey(timeOf))
  {
    var mine := Filter(all, ForProduct(productId));
    var r := SortDesc(mine, CreatedKey(timeOf));
    forall x
      ensures x in r <==> x in mine
    {
      assert x in r <==> x in multiset(r);
      assert x in mine <==> x in multiset(mine);
    }
    r
  }

  function RatingSum(rs: seq<Review>): int
  {
    if |rs| == 0 then 0 else RatingSum(rs[..|rs| - 1]) + rs[|rs| - 1].rating
  }

  predicate RatingsInRange(rs: seq<Review>)
  {
    forall i :: 0 <= i < |rs| ==> 1 <= rs[i].rating <= 5
  }

  lemma {:induction false} RatingSumBounds(rs: seq<Review>)
    requires RatingsInRange(rs)
    ensures |rs| <= RatingSum(rs) <= 5 * |rs|
    decreases |rs|
  {
    if |rs| > 0 {
      RatingSumBounds(rs[..|rs| - 1]);
    }
  }

  /** `avg` times the number of reviews is the sum of their ratings. */
  predicate MeanOf(avg: real, rs: seq<Review>)
  {
    |rs| > 0 ==> avg * (|rs| as real) == RatingSum(rs) as real
  }

  /** The average of the ratings, 0 when there are none (the rounding to one
   *  decimal is not modelled). */
  function Average(rs: seq<Review>): (avg: real)
    ensures |rs| == 0 ==> avg == 0.0
    ensures MeanOf(avg, rs)
  {
    if |rs| == 0 then 0.0 else RatingSum(rs) as real / |rs| as real
  }

  /** getAverageRating: 0 for a product without reviews, otherwise the mean of
   *  the ratings of its reviews. */
  function GetAverageRating(all: seq<Review>, productId: string, timeOf: string -> int): (avg: real)
    ensures (forall x :: x in all ==> x.productId != productId) ==> avg == 0.0
    ensures MeanOf(avg, GetReviews(all, productId, timeOf))
  {
    var rs := GetReviews(all, productId, timeOf);
    if |rs| == 0 then 0.0 else Average(rs)
  }

  /** With every rating between 1 and 5, so is any non-empty average. */
  lemma AverageInRange(rs: seq<Review>)
    requires RatingsInRange(rs) && |rs| > 0
    ensures 1.0 <= Average(rs) <= 5.0
  {
    RatingSumBounds(rs);
    QuotientBounds(RatingSum(rs) as real, |rs| as real);
  }

  lemma QuotientBounds(x: real, n: real)
    requires n > 0.0 && n <= x <= 5.0 * n
    ensures 1.0 <= x / n <= 5.0
  {
  }

  function HasRating(k: int): Review -> bool
  {
    (r: Review) => r.rating == k
  }

  /** The star distribution: for each of 1..5 the number of reviews with that
   *  rating; other ratings are not counted anywhere. */
  function Distribution(rs: seq<Review>): (d: map<int, nat>)
    ensures d.Keys == {1, 2, 3, 4, 5}
  {
    var d := map k | 1 <= k <= 5 :: Count(rs, HasRating(k));
    assert forall k :: k in d.Keys <==> k in {1, 2, 3, 4, 5};
    d
  }

  predicate InStarRange(r: Review)
  {
    1 <= r.rating <= 5
  }

  /** The counts add up to the number of reviews rated 1..5, hence to at most
   *  the number of reviews, and exactly to it when every rating is in range. */
  lemma DistributionTotal(rs: seq<Review>)
    ensures var d := Distribution(rs);
            d[1] + d[2] + d[3] + d[4] + d[5] == Count(rs, InStarRange) <= |rs|
    ensures RatingsInRange(rs) ==> Count(rs, InStarRange) == |rs|
  {
    var d := Distribution(rs);
    assert d[1] == Count(rs, HasRating(1)) && d[2] == Count(rs, HasRating(2)) && d[3] == Count(rs, HasRating(3));
    assert d[4] == Count(rs, HasRating(4)) && d[5] == Count(rs, HasRating(5));
    RatingCountsTotal(rs);
    if RatingsInRange(rs) {
      InRangeAllCounted(rs);
    }
  }

  /** Every review rated 1..5 has exactly one of the five ratings. */
  lemma {:induction false} RatingCountsTotal(rs: seq<Review>)
    ensures Count(rs, HasRating(1)) + Count(rs, HasRating(2)) + Count(rs, HasRating(3)) +
            Count(rs, HasRating(4)) + Count(rs, HasRating(5)) == Count(rs, InStarRange)
    decreases |rs|
  {
    if |rs| > 0 {
      RatingCountsTotal(rs[1..]);
    }
  }

  lemma {:induction false} InRangeAllCounted(rs: seq<Review>)
    requires RatingsInRange(rs)
    ensures Count(rs, InStarRange) == |rs|
    decreases |rs|
  {
    if |rs| > 0 {
      assert InStarRange(rs[0]);
      InRangeAllCounted(rs[1..]);
    }
  }

  lemma DistributionEmpty()
    ensures Distribution([]) == map[1 := 0, 2 := 0, 3 := 0, 4 := 0, 5 := 0]
  {
  }

  /** One more review adds one to its rating's count, or nothing when the
   *  rating is outside 1..5. */
  lemma DistributionStep(s: seq<Review>, x: Review)
    ensures var d := Distribution(s);
            Distribution(s + [x]) == if 1 <= x.rating <= 5 then d[x.rating := d[x.rating] + 1] else d
  {
    forall k | 1 <= k <= 5
      ensures Count(s + [x], HasRating(k)) == Count(s, HasRating(k)) + (if x.rating == k then 1 else 0)
    {
      CountAppend(s, [x], HasRating(k));
    }
  }

  /** canUserReview: at least the cooldown has passed since this product's
   *  last review in this session (time 0 when there was none). */
  predicate CanUserReview(lastReviewTime: map<string, int>, productId: string, now: int): (ok: bool)
    ensures productId in lastReviewTime ==> (ok <==> now >= lastReviewTime[productId] + Cooldown)
    ensures productId !in lastReviewTime ==> (ok <==> now >= Cooldown)
  {
    now - (if productId in lastReviewTime then lastReviewTime[productId] else 0) >= Cooldown
  }

  /** Recording a review's time blocks that product, and only that product,
   *  for the cooldown. */
  lemma CooldownBlocksOnlyThatProduct(last: map<string, int>, productId: string, now: int, later: int, other: string)
    requires now <= later < now + Cooldown
    requires other != productId
    ensures !CanUserReview(last[productId := now], productId, later)
    ensures CanUserReview(last[productId := now], other, later) == CanUserReview(last, other, later)
    ensures CanUserReview(last[productId := now], productId, now + Cooldown)
  {
  }

  /** addReview's checks, in order: the rating, the comment length, the
   *  cooldown. `rating` is the number as given (a falsy value counts as 0). */
  function ReviewRejection(last: map<string, int>, productId: string, rating: real, comment: string, now: int): (e: Option<ReviewError>)
    ensures !(1.0 <= rating <= 5.0) ==> e == Some(InvalidRating)
    ensures 1.0 <= rating <= 5.0 && |comment| > MaxComment ==> e == Some(CommentTooLong)
    ensures 1.0 <= rating <= 5.0 && |comment| <= MaxComment && !CanUserReview(last, productId, now) ==>
            e == Some(CooldownActive)
    ensures e.None? <==> 1.0 <= rating <= 5.0 && |comment| <= MaxComment && CanUserReview(last, productId, now)
  {
    if rating < 1.0 || rating > 5.0 then Some(InvalidRating)
    else if |comment| > MaxComment then Some(CommentTooLong)
    else if !CanUserReview(last, productId, now) then Some(CooldownActive)
    else None
  }

  /** The review addReview builds: the integer part of the rating, the trimmed
   *  comment, and the author or the guest name. */
  function NewReview(newId: string, productId: string, user: Option<Reviewer>, rating: real, comment: string,
                     createdAt: string): (r: Review)
    requires 1.0 <= rating <= 5.0
    ensures 1 <= r.rating <= 5 && r.rating as real <= rating < r.rating as real + 1.0
    ensures r.comment == Trim(comment) && |r.comment| <= |comment|
    ensures r.userId.Some? <==> user.Some?
    ensures user.None? ==> r.userName == GuestName
  {
    Review(newId, productId,
           if user.Some? then Some(user.value.id) else None,
           if user.Some? then user.value.name else GuestName,
           rating.Floor, Trim(comment), createdAt)
  }

  /** getRatingText: a label for 1..5, the empty string otherwise. */
  function RatingText(rating: int): (t: string)
    ensures t != "" <==> 1 <= rating <= 5
  {
    if rating == 1 then "Tệ"
    else if rating == 2 then "Không hài lòng"
    else if rating == 3 then "Bình thường"
    else if rating == 4 then "Hài lòng"
    else if rating == 5 then "Rất tốt"
    else ""
  }

  /** The buckets of formatRelativeTime; the last one prints the date itself. */
  datatype RelativeTime = JustNow | MinutesAgo(n: int) | HoursAgo(n: int) | DaysAgo(n: int) | OnDate

  /** formatRelativeTime, given the age in milliseconds. Each count is the age
   *  rounded down in its unit. */
  function FormatRelativeTime(ageMs: int): (t: RelativeTime)
    ensures t == JustNow <==> ageMs < 60000
    ensures t.MinutesAgo? ==> 1 <= t.n < 60 && t.n * 60000 <= ageMs < (t.n + 1) * 60000
    ensures t.HoursAgo? ==> 1 <= t.n < 24 && t.n * 3600000 <= ageMs < (t.n + 1) * 3600000
    ensures t.DaysAgo? ==> 1 <= t.n < 7 && t.n * 86400000 <= ageMs < (t.n + 1) * 86400000
    ensures t == OnDate <==> ageMs >= 7 * 86400000
  {
    var minutes := ageMs / 60000;
    var hours := ageMs / 3600000;
    var days := ageMs / 86400000;
    if minutes < 1 then JustNow
    else if minutes < 60 then MinutesAgo(minutes)
    else if hours < 24 then HoursAgo(hours)
    else if days < 7 then DaysAgo(days)
    else OnDate
  }

  /** One star of renderStars: filled, empty, or the clickable star of the
   *  review form carrying its value. */
  datatype Star = Filled | Empty | Input(value: int)

  /** renderStars, as the sequence of stars it emits. */
  method RenderStars(rating: real, interactive: bool) returns (stars: seq<Star>)
    ensures interactive ==> |stars| == 5 && forall i :: 0 <= i < 5 ==> stars[i] == Input(i + 1)
    ensures !interactive ==>
              var full := Max(0, rating.Floor);
              |stars| == full + Max(0, 5 - rating.Floor) &&
              (forall i :: 0 <= i < full ==> stars[i] == Filled) &&
              (forall i :: full <= i < |stars| ==> stars[i] == Empty)
    ensures !interactive && 0.0 <= rating < 6.0 ==> |stars| == 5
  {
    stars := [];
    if interactive {
      var i := 1;
      while i <= 5
        invariant 1 <= i <= 6
        invariant |stars| == i - 1 && forall j :: 0 <= j < i - 1 ==> stars[j] == Input(j + 1)
      {
        stars := stars + [Input(i)];
        i := i + 1;
      }
    } else {
      var fullStars := rating.Floor;
      var emptyStars := 5 - fullStars;
      var i := 0;
      while i < fullStars
        invariant 0 <= i <= Max(0, fullStars)
        invariant |stars| == i && forall j :: 0 <= j < i ==> stars[j] == Filled
      {
        stars := stars + [Filled];
        i := i + 1;
      }
      var full := |stars|;
      i := 0;
      while i < emptyStars
        invariant 0 <= i <= Max(0, emptyStars)
        invariant |stars| == full + i
        invariant forall j :: 0 <= j < full ==> stars[j] == Filled
        invariant forall j :: full <= j < |stars| ==> stars[j] == Empty
      {
        stars := stars + [Empty];
        i := i + 1;
      }
    }
  }

  /** `if (distribution[r.rating] !== undefined) distribution[r.rating]++`. */
  function Bumped(d: map<int, nat>, k: int): map<int, nat>
  {
    if k in d then d[k := d[k] + 1] else d
  }

  /** The counting loop of getRatingDistribution: a counter per rating 1..5,
   *  starting at zero, bumped once for each review whose rating has one. */
  method TallyRatings(rs: seq<Review>) returns (d: map<int, nat>)
    ensures d == Distribution(rs)
  {
    d := map[1 := 0, 2 := 0, 3 := 0, 4 := 0, 5 := 0];
    TallyStart(rs);
    var i := 0;
    while i < |rs|
      invariant 0 <= i <= |rs|
      invariant d == Distribution(rs[..i])
    {
      TallyStep(rs, i);
      d := Bumped(d, rs[i].rating);
      i := i + 1;
    }
    assert rs[..i] == rs;
  }

  /** Before the counting loop: five zero counters. */
  lemma TallyStart(rs: seq<Review>)
    ensures Distribution(rs[..0]) == map[1 := 0, 2 := 0, 3 := 0, 4 := 0, 5 := 0]
  {
    assert rs[..0] == [];
    DistributionEmpty();
  }

  /** One pass of the counting loop yields the distribution of one more review. */
  lemma TallyStep(rs: seq<Review>, i: int)
    requires 0 <= i < |rs|
    ensures Distribution(rs[..i + 1]) == Bumped(Distribution(rs[..i]), rs[i].rating)
  {
    var pre := rs[..i];
    var d := Distribution(pre);
    DistributionStep(pre, rs[i]);
    BumpedCounter(d, rs[i].rating);
    PrefixSnoc(rs, i);
  }

  /** On the five counters, bumping a rating is counting it when it is 1..5. */
  lemma BumpedCounter(d: map<int, nat>, k: int)
    requires d.Keys == {1, 2, 3, 4, 5}
    ensures Bumped(d, k) == if 1 <= k <= 5 then d[k := d[k] + 1] else d
  {
    assert k in d <==> 1 <= k <= 5;
  }

  class ReviewBoard {
    var reviews: seq<Review>
    /** The session's `lastReviewTime`: product id to the time of its last review. */
    var lastReviewTime: map<string, int>

    constructor (seed: seq<Review>)
      ensures reviews == seed && lastReviewTime == map[]
    {
      reviews := seed;
      lastReviewTime := map[];
    }

    /** addReview at time `now`: a rejected review changes nothing; an accepted
     *  one is appended and starts the cooldown of that product only.
     *  `newId` and `createdAt` come from the clock. */
    method AddReview(productId: string, rating: real, comment: string, user: Option<Reviewer>, now: int,
                     newId: string, createdAt: string) returns (r: Result<Review, ReviewError>)
      modifies this
      ensures r.Err? <==> ReviewRejection(old(lastReviewTime), productId, rating, comment, now).Some?
      ensures r.Err? ==> r.error == ReviewRejection(old(lastReviewTime), productId, rating, comment, now).value &&
                         reviews == old(reviews) && lastReviewTime == old(lastReviewTime)
      ensures r.Ok? ==> r.value == NewReview(newId, productId, user, rating, comment, createdAt) &&
                        reviews == old(reviews) + [r.value] &&
                        lastReviewTime == old(lastReviewTime)[productId := now]
      ensures RatingsInRange(old(reviews)) ==> RatingsInRange(reviews)
    {
      var rejection := ReviewRejection(lastReviewTime, productId, rating, comment, now);
      if rejection.Some? {
        return Err(rejection.value);
      }
      var review := NewReview(newId, productId, user, rating, comment, createdAt);
      reviews := reviews + [review];
      lastReviewTime := lastReviewTime[productId := now];
      r := Ok(review);
    }

    /** getRatingDistribution: the product's reviews, tallied. */
    method GetRatingDistribution(productId: string, timeOf: string -> int) returns (d: map<int, nat>)
      ensures d == Distribution(GetReviews(reviews, productId, timeOf))
      ensures d.Keys == {1, 2, 3, 4, 5}
    {
      d := TallyRatings(GetReviews(reviews, productId, timeOf));
    }
  }
}
