/** The owner's analytics page (src/sections/OwnerAnalytics.tsx): the visit requests on
    the owner's listings, the owner's reviews and their average trust score. The fixed
    view, response-rate and change figures are constants of the page and are not
    modelled. */
module OwnerAnalytics {
  import opened Wrappers
  import opened Seqs
  import opened Types
  import opened Matcher
  import opened Store
  import opened OwnerListings

  function OnListing(owned: seq<Property>): Booking -> bool {
    (b: Booking) => Lists(owned, b.propertyId)
  }

  /** ownerBookings: the bookings of any of the owner's listings, in store order. */
  function OwnerBookings(bookings: seq<Booking>, owned: seq<Property>): (r: seq<Booking>)
    ensures IsSublist(r, bookings)
    ensures forall i :: 0 <= i < |r| ==> Lists(owned, r[i].propertyId)
    ensures forall i :: 0 <= i < |bookings| && Lists(owned, bookings[i].propertyId) ==> bookings[i] in r
    ensures forall b :: multiset(r)[b] == if Lists(owned, b.propertyId) then multiset(bookings)[b] else 0
  {
    FilterIsSublist(bookings, OnListing(owned));
    FilterMultiset(bookings, OnListing(owned));
    Filter(bookings, OnListing(owned))
  }

  /** The pending card of the listings page counts the pending requests among the
      analytics page's bookings. */
  lemma PendingCardAmongOwnerBookings(bookings: seq<Booking>, owned: seq<Property>)
    ensures PendingCard(bookings, owned) == Count(OwnerBookings(bookings, owned), HasStatus(Pending))
  {
    FilterTwice(bookings, OnListing(owned), HasStatus(Pending), PendingInListings(owned));
  }

  /** ownerReviews: by the review's own owner id, whatever listings the owner has now. */
  function AnalyticsReviews(reviews: seq<Review>, user: Option<User>): (r: seq<Review>)
    ensures IsSublist(r, reviews)
    ensures forall i :: 0 <= i < |r| ==> r[i].ownerId == OwnerOf(user)
    ensures forall i :: 0 <= i < |reviews| && reviews[i].ownerId == OwnerOf(user) ==> reviews[i] in r
    ensures forall x :: multiset(r)[x] == if x.ownerId == OwnerOf(user) then multiset(reviews)[x] else 0
  {
    OwnerReviews(reviews, OwnerOf(user))
  }

  /** `r.trustScore || 0`. */
  function TrustOf(r: Review): real {
    if r.trustScore.Some? then r.trustScore.value else 0.0
  }

  /** averageTrustScore: 0 without reviews, else the rounded mean, where a review without a
      score adds nothing to the sum but still counts. */
  function AverageTrustScore(rs: seq<Review>): (a: int)
    ensures rs == [] ==> a == 0
  {
    if |rs| > 0 then Round(Sum(rs, TrustOf) / |rs| as real) else 0
  }

  predicate ScoreInRange(r: Review) {
    r.trustScore.Some? ==> 0.0 <= r.trustScore.value <= 100.0
  }

  /** Scores on the 0-100 scale average to a score on that scale. */
  lemma AverageTrustInRange(rs: seq<Review>)
    requires forall i :: 0 <= i < |rs| ==> ScoreInRange(rs[i])
    ensures 0 <= AverageTrustScore(rs) <= 100
  {
    if rs != [] {
      var n := |rs| as real;
      SumBounds(rs, TrustOf, 0.0, 100.0);
      var mean := Sum(rs, TrustOf) / n;
      assert 0.0 <= mean <= 100.0 by {
        assert Sum(rs, TrustOf) == mean * n;
      }
      RoundWithin(mean, 0, 100);
    }
  }

  /** Reviews that all carry the same integer score average to that score. */
  lemma UniformScoresAverage(rs: seq<Review>, score: int)
    requires rs != []
    requires forall i :: 0 <= i < |rs| ==> rs[i].trustScore == Some(score as real)
    ensures AverageTrustScore(rs) == score
  {
    var n := |rs| as real;
    SumBounds(rs, TrustOf, score as real, score as real);
    assert Sum(rs, TrustOf) / n == score as real;
  }

  /** A review without a score adds nothing to the sum but one to the count. */
  lemma UnscoredReviewStillCounts(rs: seq<Review>, r: Review)
    requires r.trustScore.None?
    ensures AverageTrustScore([r] + rs) == Round(Sum(rs, TrustOf) / (|rs| + 1) as real)
  {
    assert ([r] + rs)[1..] == rs;
  }
}
