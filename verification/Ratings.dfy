/** Reviews and the running average rating, stored rounded to one decimal. */
module Ratings {
  import opened Model
  import opened Transactions
  import opened Effects

  /** A user's stored average, in tenths, and number of reviews. */
  datatype Rating = Rating(tenths: nat, count: nat)

  const UNRATED := Rating(0, 0)

  datatype Review = Review(booking: nat, reviewer: UserId, reviewee: UserId, stars: nat)

  datatype ReviewError = BadStars | NotEligible | SelfReview | AlreadyReviewed

  /** Nearest whole number to a / m, halves upwards. */
  function NearestRatio(a: nat, m: nat): nat
    requires m > 0
  {
    (2 * a + m) / (2 * m)
  }

  /** The update of the stored average: old average weighted by its count, plus the new stars, rounded. */
  function Rate(r: Rating, stars: nat): Rating {
    Rating(NearestRatio(r.tenths * r.count + 10 * stars, r.count + 1), r.count + 1)
  }

  /** The rating after the given stars, one review at a time. */
  function Rated(stars: seq<nat>): Rating {
    if stars == [] then UNRATED else Rate(Rated(stars[..|stars| - 1]), stars[|stars| - 1])
  }

  function Stars(reviews: seq<Review>, user: UserId): seq<nat> {
    if reviews == [] then []
    else
      var last := reviews[|reviews| - 1];
      Stars(reviews[..|reviews| - 1], user) + if last.reviewee == user then [last.stars] else []
  }

  /** A completed booking may be reviewed by its rider about the driver, and the other way round. */
  predicate Eligible(d: Db, booking: nat, reviewer: UserId, reviewee: UserId) {
    && booking < |d.bookings| && d.bookings[booking].ride < |d.rides|
    && d.bookings[booking].status.Completed?
    && var rider, driver := d.bookings[booking].rider, d.rides[d.bookings[booking].ride].driver;
       (rider == reviewer && driver == reviewee) || (driver == reviewer && rider == reviewee)
  }

  predicate Reviewed(reviews: seq<Review>, booking: nat, reviewer: UserId) {
    exists i :: 0 <= i < |reviews| && reviews[i].booking == booking && reviews[i].reviewer == reviewer
  }

  datatype Outcome = Saved | Refused(error: ReviewError)

  /** The guards, in order; `Saved` means the review is stored. */
  function Decide(d: Db, reviews: seq<Review>, reviewer: UserId, booking: nat, reviewee: UserId, stars: int): Outcome {
    if stars < 1 || stars > 5 then Refused(BadStars)
    else if !Eligible(d, booking, reviewer, reviewee) then Refused(NotEligible)
    else if reviewer == reviewee then Refused(SelfReview)
    else if Reviewed(reviews, booking, reviewer) then Refused(AlreadyReviewed)
    else Saved
  }

  /** Exactly which reviews are stored, and what is reported of the others: the first of the four conditions that fails. */
  lemma DecideIff(d: Db, reviews: seq<Review>, reviewer: UserId, booking: nat, reviewee: UserId, stars: int)
    ensures var rated := 1 <= stars <= 5;
            var taken := && booking < |d.bookings| && d.bookings[booking].ride < |d.rides|
                         && d.bookings[booking].status == BookingStatus.Completed
                         && var parties := {d.bookings[booking].rider, d.rides[d.bookings[booking].ride].driver};
                            parties == {reviewer, reviewee};
            var first := forall i :: 0 <= i < |reviews| && reviews[i].booking == booking ==> reviews[i].reviewer != reviewer;
            Decide(d, reviews, reviewer, booking, reviewee, stars)
            == if !rated then Refused(BadStars)
               else if !taken then Refused(NotEligible)
               else if reviewer == reviewee then Refused(SelfReview)
               else if !first then Refused(AlreadyReviewed)
               else Saved
  {
    if booking < |d.bookings| && d.bookings[booking].ride < |d.rides| {
      var rider, driver := d.bookings[booking].rider, d.rides[d.bookings[booking].ride].driver;
      assert {rider, driver} == {reviewer, reviewee} ==> rider in {reviewer, reviewee} && driver in {reviewer, reviewee};
      assert {rider, driver} == {reviewer, reviewee} ==> reviewer in {rider, driver} && reviewee in {rider, driver};
    }
  }

  function RatingOf(ratings: map<UserId, Rating>, user: UserId): Rating {
    if user in ratings then ratings[user] else UNRATED
  }

  ghost predicate RatingsFollow(ratings: map<UserId, Rating>, reviews: seq<Review>) {
    forall u: UserId :: RatingOf(ratings, u) == Rated(Stars(reviews, u))
  }

  /** The reviews table and the rating columns of the users table. */
  class ReviewStore {
    var reviews: seq<Review>
    var ratings: map<UserId, Rating>

    /** Every user's stored rating is the one their stored reviews give, and no review is repeated. */
    ghost predicate Valid()
      reads this
    {
      && RatingsFollow(ratings, reviews)
      && (forall i :: 0 <= i < |reviews| ==> 1 <= reviews[i].stars <= 5)
      && (forall i, j :: 0 <= i < j < |reviews| && reviews[i].booking == reviews[j].booking ==>
            reviews[i].reviewer != reviews[j].reviewer)
    }

    constructor ()
      ensures Valid() && reviews == []
    {
      reviews, ratings := [], map[];
    }

    /** Stores a review and updates the reviewee's average in place, or changes nothing. */
    method Create(d: Db, reviewer: UserId, booking: nat, reviewee: UserId, stars: int) returns (o: Outcome)
      requires Valid()
      modifies this
      ensures Valid()
      ensures o == Decide(d, old(reviews), reviewer, booking, reviewee, stars)
      ensures o.Saved? <==>
              && 1 <= stars <= 5 && reviewer != reviewee
              && booking < |d.bookings| && d.bookings[booking].ride < |d.rides|
              && d.bookings[booking].status == BookingStatus.Completed
              && {d.bookings[booking].rider, d.rides[d.bookings[booking].ride].driver} == {reviewer, reviewee}
              && forall i :: 0 <= i < |old(reviews)| && old(reviews)[i].booking == booking ==> old(reviews)[i].reviewer != reviewer
      ensures o.Refused? ==> reviews == old(reviews) && ratings == old(ratings)
      ensures o.Saved? ==> reviews == old(reviews) + [Review(booking, reviewer, reviewee, stars)]
      ensures forall u :: u != reviewee ==> RatingOf(ratings, u) == old(RatingOf(ratings, u))
    {
      DecideIff(d, reviews, reviewer, booking, reviewee, stars);
      if stars < 1 || stars > 5 {
        return Refused(BadStars);
      }
      if !Eligible(d, booking, reviewer, reviewee) {
        return Refused(NotEligible);
      }
      if reviewer == reviewee {
        return Refused(SelfReview);
      }
      if Reviewed(reviews, booking, reviewer) {
        return Refused(AlreadyReviewed);
      }
      var review := Review(booking, reviewer, reviewee, stars);
      reviews := reviews + [review];
      ratings := ratings[reviewee := Rate(RatingOf(ratings, reviewee), stars)];
      StoredRatingsFollow(old(ratings), old(reviews), review);
      return Saved;
    }
  }

  lemma StarsSnoc(reviews: seq<Review>, review: Review, u: UserId)
    ensures Stars(reviews + [review], u) == Stars(reviews, u) + if review.reviewee == u then [review.stars] else []
  {
  }

  lemma RatedSnoc(stars: seq<nat>, more: nat)
    ensures Rated(stars + [more]) == Rate(Rated(stars), more)
  {
  }

  /** Updating the reviewee's rating in place keeps every stored rating in step with the stored reviews. */
  lemma StoredRatingsFollow(ratings: map<UserId, Rating>, reviews: seq<Review>, review: Review)
    requires RatingsFollow(ratings, reviews)
    ensures RatingsFollow(ratings[review.reviewee := Rate(RatingOf(ratings, review.reviewee), review.stars)], reviews + [review])
  {
    var after := ratings[review.reviewee := Rate(RatingOf(ratings, review.reviewee), review.stars)];
    forall u: UserId
      ensures RatingOf(after, u) == Rated(Stars(reviews + [review], u))
    {
      OneRatingFollows(RatingOf(ratings, u), reviews, review, u);
    }
  }

  lemma OneRatingFollows(r: Rating, reviews: seq<Review>, review: Review, u: UserId)
    requires r == Rated(Stars(reviews, u))
    ensures Rated(Stars(reviews + [review], u)) == if review.reviewee == u then Rate(r, review.stars) else r
  {
    var stars := Stars(reviews, u);
    StarsSnoc(reviews, review, u);
    if review.reviewee == u {
      RatedSnoc(stars, review.stars);
    } else {
      assert stars + [] == stars;
    }
  }

  // ---- Reviews over whole runs ---------------------------------------------

  /** A run of the tables' transactions, with attempts to write reviews in between. */
  datatype Act = Change(t: Txn) | Write(reviewer: UserId, booking: nat, reviewee: UserId, stars: int)

  datatype Desk = Desk(db: Db, reviews: seq<Review>)

  function Written(desk: Desk, reviewer: UserId, booking: nat, reviewee: UserId, stars: int): seq<Review> {
    if Decide(desk.db, desk.reviews, reviewer, booking, reviewee, stars).Saved?
    then desk.reviews + [Review(booking, reviewer, reviewee, stars)] else desk.reviews
  }

  function After(acts: seq<Act>): Desk {
    if acts == [] then Desk(EMPTY, [])
    else
      var desk := After(acts[..|acts| - 1]);
      match acts[|acts| - 1]
      case Change(t) => desk.(db := Exec(desk.db, t))
      case Write(reviewer, booking, reviewee, stars) => desk.(reviews := Written(desk, reviewer, booking, reviewee, stars))
  }

  /** The review is by one of the booking's two parties about the other. */
  predicate BetweenParties(d: Db, review: Review) {
    && review.booking < |d.bookings| && d.bookings[review.booking].ride < |d.rides|
    && review.reviewer != review.reviewee
    && {d.bookings[review.booking].rider, d.rides[d.bookings[review.booking].ride].driver} == {review.reviewer, review.reviewee}
  }

  lemma PartiesStay(d: Db, t: Txn, review: Review)
    requires BetweenParties(d, review)
    ensures BetweenParties(Exec(d, t), review)
  {
    ExecKeepsRows(d, t);
  }

  lemma WrittenReview(desk: Desk, reviewer: UserId, booking: nat, reviewee: UserId, stars: int)
    requires Decide(desk.db, desk.reviews, reviewer, booking, reviewee, stars).Saved?
    ensures BetweenParties(desk.db, Review(booking, reviewer, reviewee, stars))
    ensures desk.db.bookings[booking].status == BookingStatus.Completed
  {
    DecideIff(desk.db, desk.reviews, reviewer, booking, reviewee, stars);
  }

  /** Every stored review is between the two parties of a booking that was completed when the review was written. */
  lemma {:induction false} ReviewsAreOfCompletedTrips(acts: seq<Act>, i: nat) returns (k: nat)
    requires i < |After(acts).reviews|
    ensures BetweenParties(After(acts).db, After(acts).reviews[i]) && 1 <= After(acts).reviews[i].stars <= 5
    ensures var review := After(acts).reviews[i];
            && k < |acts| && acts[k] == Write(review.reviewer, review.booking, review.reviewee, review.stars)
            && review.booking < |After(acts[..k]).db.bookings|
            && After(acts[..k]).db.bookings[review.booking].status == BookingStatus.Completed
  {
    var n := |acts| - 1;
    var desk := After(acts[..n]);
    if i < |desk.reviews| {
      k := ReviewsAreOfCompletedTrips(acts[..n], i);
      assert acts[..n][..k] == acts[..k];
      if acts[n].Change? {
        PartiesStay(desk.db, acts[n].t, desk.reviews[i]);
      }
    } else {
      k := n;
      WrittenReview(desk, acts[n].reviewer, acts[n].booking, acts[n].reviewee, acts[n].stars);
    }
  }

  lemma {:induction false} OneReviewEach(acts: seq<Act>, i: nat, j: nat)
    requires i < j < |After(acts).reviews| && After(acts).reviews[i].booking == After(acts).reviews[j].booking
    ensures After(acts).reviews[i].reviewer != After(acts).reviews[j].reviewer
  {
    var n := |acts| - 1;
    var desk := After(acts[..n]);
    if j < |desk.reviews| {
      OneReviewEach(acts[..n], i, j);
    } else {
      DecideIff(desk.db, desk.reviews, acts[n].reviewer, acts[n].booking, acts[n].reviewee, acts[n].stars);
    }
  }

  /** A booking has at most two reviews. */
  lemma AtMostTwoReviews(acts: seq<Act>, i: nat, j: nat, l: nat)
    requires i < j < l < |After(acts).reviews| && After(acts).reviews[i].booking == After(acts).reviews[j].booking
    ensures After(acts).reviews[l].booking != After(acts).reviews[i].booking
  {
    var rs, d := After(acts).reviews, After(acts).db;
    if rs[l].booking == rs[i].booking {
      OneReviewEach(acts, i, j);
      OneReviewEach(acts, i, l);
      OneReviewEach(acts, j, l);
      var ki := ReviewsAreOfCompletedTrips(acts, i);
      var kj := ReviewsAreOfCompletedTrips(acts, j);
      var kl := ReviewsAreOfCompletedTrips(acts, l);
      ThreeOfTwo(d, rs[i], rs[j], rs[l]);
    }
  }

  lemma ThreeOfTwo(d: Db, a: Review, b: Review, c: Review)
    requires BetweenParties(d, a) && BetweenParties(d, b) && BetweenParties(d, c) && a.booking == b.booking == c.booking
    ensures a.reviewer == b.reviewer || a.reviewer == c.reviewer || b.reviewer == c.reviewer
  {
    var parties := {d.bookings[a.booking].rider, d.rides[d.bookings[a.booking].ride].driver};
    assert a.reviewer in {a.reviewer, a.reviewee} && b.reviewer in {b.reviewer, b.reviewee} && c.reviewer in {c.reviewer, c.reviewee};
    assert a.reviewer in parties && b.reviewer in parties && c.reviewer in parties;
  }

  // ---- What the stored average means ---------------------------------------

  function Total(stars: seq<nat>): nat {
    if stars == [] then 0 else Total(stars[..|stars| - 1]) + stars[|stars| - 1]
  }

  predicate AllStars(stars: seq<nat>) {
    forall i :: 0 <= i < |stars| ==> 1 <= stars[i] <= 5
  }

  lemma {:induction false} StarsInRange(reviews: seq<Review>, user: UserId)
    requires forall i :: 0 <= i < |reviews| ==> 1 <= reviews[i].stars <= 5
    ensures AllStars(Stars(reviews, user))
  {
    if reviews != [] {
      StarsInRange(reviews[..|reviews| - 1], user);
    }
  }

  /** The rounded quotient is within half of the exact one. */
  lemma NearestBounds(a: nat, m: nat)
    requires m > 0
    ensures var q := NearestRatio(a, m);
            2 * a - m < 2 * (q * m) <= 2 * a + m
  {
  }

  lemma MulMonotone(a: nat, b: nat, k: nat)
    requires a <= b
    ensures a * k <= b * k
  {
  }

  lemma NextMultiple(q: nat, p: nat, m: nat)
    requires q < p
    ensures q * m + m <= p * m
  {
    MulMonotone(q + 1, p, m);
    assert (q + 1) * m == q * m + m;
  }

  /** A ratio between two whole bounds rounds to a value between them. */
  lemma NearestWithin(a: nat, m: nat, lo: nat, hi: nat)
    requires m > 0 && lo * m <= a <= hi * m
    ensures lo <= NearestRatio(a, m) <= hi
  {
    var q := NearestRatio(a, m);
    NearestBounds(a, m);
    if q < lo {
      NextMultiple(q, lo, m);
    }
    if q > hi {
      NextMultiple(hi, q, m);
    }
  }

  /** After at least one review the stored average lies between 1.0 and 5.0, and the count is exact. */
  lemma {:induction false} AverageInRange(stars: seq<nat>)
    requires AllStars(stars)
    ensures Rated(stars).count == |stars|
    ensures stars != [] ==> 10 <= Rated(stars).tenths <= 50
  {
    if stars != [] {
      var n := |stars| - 1;
      var r := Rated(stars[..n]);
      AverageInRange(stars[..n]);
      if n > 0 {
        MulMonotone(10, r.tenths, n);
        MulMonotone(r.tenths, 50, n);
      }
      assert 10 * (n + 1) == 10 * n + 10 && 50 * (n + 1) == 50 * n + 50;
      NearestWithin(r.tenths * n + 10 * stars[n], n + 1, 10, 50);
    }
  }

  function Abs(v: int): nat {
    if v < 0 then -v else v
  }

  /** One more review: the rounding moves the scaled difference by at most half of the new count. */
  lemma DriftStep(n: nat, tenths: nat, total: nat, stars: nat, next: nat)
    requires 4 * Abs(tenths * n - 10 * total) <= n * (n + 1)
    requires 2 * (tenths * n + 10 * stars) - (n + 1) <= 2 * (next * (n + 1)) <= 2 * (tenths * n + 10 * stars) + (n + 1)
    ensures 4 * Abs(next * (n + 1) - 10 * (total + stars)) <= (n + 1) * (n + 2)
  {
    var was, now := tenths * n, next * (n + 1);
    assert (n + 1) * (n + 2) == n * (n + 1) + 2 * (n + 1);
    assert 2 * Abs(now - (was + 10 * stars)) <= n + 1;
  }

  /** The difference from the true mean, multiplied by the number of reviews, in quarters of a tenth. */
  predicate DriftOk(r: Rating, total: nat) {
    4 * Abs(r.tenths * r.count - 10 * total) <= r.count * (r.count + 1)
  }

  lemma DriftSnoc(r: Rating, total: nat, stars: nat)
    requires DriftOk(r, total)
    ensures DriftOk(Rate(r, stars), total + stars)
  {
    NearestBounds(r.tenths * r.count + 10 * stars, r.count + 1);
    DriftStep(r.count, r.tenths, total, stars, Rate(r, stars).tenths);
  }

  lemma {:induction false} DriftStays(stars: seq<nat>)
    ensures Rated(stars).count == |stars| && DriftOk(Rated(stars), Total(stars))
  {
    if stars != [] {
      var n := |stars| - 1;
      DriftStays(stars[..n]);
      DriftSnoc(Rated(stars[..n]), Total(stars[..n]), stars[n]);
    }
  }

  /**
   The stored average differs from the true mean by at most 0.025 (n + 1): in tenths, and
   multiplied by the number of reviews, the difference is at most n (n + 1) / 4.
   */
  lemma DriftIsBounded(stars: seq<nat>)
    ensures Rated(stars).count == |stars|
    ensures 4 * Abs(Rated(stars).tenths * |stars| - 10 * Total(stars)) <= |stars| * (|stars| + 1)
  {
    DriftStays(stars);
  }

  /** Exactly which reviews move the stored average: halves round up, so raising needs slightly less. */
  lemma MovesIff(r: Rating, stars: nat)
    ensures Rate(r, stars).tenths != r.tenths <==>
            2 * (10 * stars - r.tenths) >= r.count + 1 || 2 * (r.tenths - 10 * stars) > r.count + 1
  {
    var m := r.count + 1;
    var a := r.tenths * r.count + 10 * stars;
    NearestBounds(a, m);
    assert r.tenths * m == r.tenths * r.count + r.tenths;
    NearestIs(a, m, r.tenths);
  }

  /** When the nearest whole ratio is a given number. */
  lemma NearestIs(a: nat, m: nat, t: nat)
    requires m > 0
    ensures NearestRatio(a, m) == t <==> 2 * a - m < 2 * (t * m) <= 2 * a + m
  {
    var q := NearestRatio(a, m);
    NearestBounds(a, m);
    if q < t {
      NextMultiple(q, t, m);
    } else if q > t {
      NextMultiple(t, q, m);
    }
  }

  /** From eighty reviews on, no further review changes the stored average. */
  lemma FrozenAfterEighty(stars: seq<nat>, more: nat)
    requires AllStars(stars) && |stars| >= 80 && 1 <= more <= 5
    ensures Rated(stars + [more]).tenths == Rated(stars).tenths
  {
    AverageInRange(stars);
    MovesIff(Rated(stars), more);
    RatedSnoc(stars, more);
  }

  lemma {:induction false} AllOnes(n: nat)
    requires n > 0
    ensures AllStars(seq(n, i => 1)) && Rated(seq(n, i => 1 as nat)) == Rating(10, n)
  {
    var s := seq(n, i => 1 as nat);
    assert s[..n - 1] == seq(n - 1, i => 1 as nat);
    if n > 1 {
      AllOnes(n - 1);
      assert 10 * (n - 1) + 10 == 10 * n;
      NearestWithin(10 * n, n, 10, 10);
    }
  }

  /** Eighty is sharp: after seventy-nine one-star reviews a five-star review still moves the average. */
  lemma SeventyNineIsNotEnough()
    ensures var stars := seq(79, i => 1 as nat);
            AllStars(stars) && Rated(stars + [5]).tenths == Rated(stars).tenths + 1
  {
    var stars := seq(79, i => 1 as nat);
    AllOnes(79);
    RatedSnoc(stars, 5);
  }

  /** What any user's stored rating means, in every state of the store. */
  lemma StoredRatingMeaning(store: ReviewStore, user: UserId)
    requires store.Valid()
    ensures var r, stars := RatingOf(store.ratings, user), Stars(store.reviews, user);
            && r.count == |stars|
            && (stars != [] ==> 10 <= r.tenths <= 50)
            && 4 * Abs(r.tenths * |stars| - 10 * Total(stars)) <= |stars| * (|stars| + 1)
  {
    StarsInRange(store.reviews, user);
    AverageInRange(Stars(store.reviews, user));
    DriftIsBounded(Stars(store.reviews, user));
  }
}
