/** The five-step post-visit review form (src/sections/PostVisitReview.tsx): the step
    counter and the answers the buttons set, the gates on Next, Back and Submit, and the
    review record built on submit. The review id (a clock value in the source) is a
    parameter. */
module PostVisit {
  import opened Wrappers
  import opened Seqs
  import opened Types
  import opened Matcher
  import opened Store

  /** The photo-accuracy buttons. */
  const PhotoOptions: set<int> := {5, 4, 3, 1}
  /** The honesty stars. */
  const StarOptions: set<int> := {1, 2, 3, 4, 5}
  const SafetyOptions: set<string> := {"yes", "better", "no"}
  const RecommendOptions: set<string> := {"strongly_yes", "yes", "neutral", "no"}

  /** The amenity checklist as first shown: every listing amenity ticked. */
  function InitialChecklist(amenities: seq<string>): (m: map<string, bool>)
    ensures m.Keys == set a | a in amenities
    ensures forall a :: a in m ==> m[a]
  {
    map a | a in amenities :: true
  }

  /** `Object.values(checklist).filter(v => v).length`. */
  function TickedCount(checklist: map<string, bool>): (n: nat)
    ensures n <= |checklist|
    ensures n == 0 <==> forall a :: a in checklist ==> !checklist[a]
  {
    var ticked := set a | a in checklist && checklist[a];
    SubsetSize(ticked, checklist.Keys);
    NoneTicked(checklist);
    |ticked|
  }

  lemma {:induction false} SubsetSize<T>(a: set<T>, b: set<T>)
    requires a <= b
    ensures |a| <= |b|
    decreases |a|
  {
    if a != {} {
      var x :| x in a;
      SubsetSize(a - {x}, b - {x});
    }
  }

  /** Nothing is ticked exactly when every checklist entry is false. */
  lemma NoneTicked(checklist: map<string, bool>)
    ensures (set a | a in checklist && checklist[a]) == {} <==> forall a :: a in checklist ==> !checklist[a]
  {
    var ticked := set a | a in checklist && checklist[a];
    if ticked != {} {
      var a :| a in ticked;
      assert a in checklist && checklist[a];
    } else {
      assert forall a :: a in checklist ==> (checklist[a] ==> a in ticked);
    }
  }

  lemma {:induction false} DistinctElements(s: seq<string>)
    requires NoDuplicates(s)
    ensures |set a | a in s| == |s|
    decreases |s|
  {
    if s != [] {
      DistinctElements(s[1..]);
      assert (set a | a in s) == (set a | a in s[1..]) + {s[0]};
      assert s[0] !in s[1..];
    }
  }

  /** Unchanged, the checklist counts every distinct listing amenity. */
  lemma InitialChecklistCount(amenities: seq<string>)
    requires NoDuplicates(amenities)
    ensures TickedCount(InitialChecklist(amenities)) == |amenities|
  {
    var m := InitialChecklist(amenities);
    assert (set a | a in m && m[a]) == set a | a in amenities;
    DistinctElements(amenities);
  }

  /** overallRating: the mean of the two ratings, halves rounded up. */
  function OverallRating(photos: int, honesty: int): (r: int)
    ensures r == (photos + honesty + 1) / 2
  {
    var x := (photos + honesty) as real / 2.0;
    assert x + 0.5 == (photos + honesty + 1) as real / 2.0;
    Round((photos + honesty) as real / 2.0)
  }

  /** trustScore: `round((photos + honesty + 4) / 14 * 100)`. */
  function ReviewTrust(photos: int, honesty: int): (r: int)
    ensures r as real - 0.5 <= (photos + honesty + 4) as real * 100.0 / 14.0 < r as real + 0.5
    ensures photos + honesty == 10 ==> r == 100
  {
    Round(((photos + honesty + 4) as real / 14.0) * 100.0)
  }

  /** For answers the form lets through, the review's trust score lies in 43..100. */
  lemma ReviewTrustRange(photos: int, honesty: int)
    requires photos in PhotoOptions && honesty in StarOptions
    ensures 43 <= ReviewTrust(photos, honesty) <= 100
    ensures photos == 5 && honesty == 5 ==> ReviewTrust(photos, honesty) == 100
    ensures photos == 1 && honesty == 1 ==> ReviewTrust(photos, honesty) == 43
  {
    var x := ((photos + honesty + 4) as real / 14.0) * 100.0;
    var n := photos + honesty + 4;
    assert 6 <= n <= 14;
    assert x == n as real * 100.0 / 14.0;
    // the smallest value, 600 / 14, is above 42.5 and rounds up to 43
    assert 600.0 / 14.0 <= x <= 100.0;
  }

  /** The answer strings that count as safe, and as a recommendation. */
  function SafetyAccuracy(safety: string): (r: int)
    ensures r == 5 <==> safety == "yes" || safety == "better"
    ensures r == 2 <==> !(safety == "yes" || safety == "better")
  {
    if safety == "yes" || safety == "better" then 5 else 2
  }

  predicate Recommends(answer: string): (b: bool)
    ensures answer in RecommendOptions ==> (b <==> answer != "neutral" && answer != "no")
    ensures b ==> answer in RecommendOptions
  {
    answer == "yes" || answer == "strongly_yes"
  }

  /** handleSubmit's review record. */
  function NewReview(id: string, booking: Booking, property: Property, user: Option<User>,
                     photos: int, honesty: int, checklist: map<string, bool>,
                     safety: string, recommend: string, comment: string): (r: Review)
    ensures r.bookingId == booking.id && r.propertyId == property.id && r.ownerId == property.ownerId
    ensures r.reviewerId == (if user.Some? && user.value.id != "" then user.value.id else "expat-001")
    ensures r.photosAccuracy == photos && r.descriptionAccuracy == honesty
    ensures r.amenitiesMatch == TickedCount(checklist)
    ensures r.safetyAccuracy in {2, 5} && (r.safetyAccuracy == 5 <==> safety in {"yes", "better"})
    ensures r.overallRating == (photos + honesty + 1) / 2
    ensures r.wouldRecommend <==> recommend in {"yes", "strongly_yes"}
    ensures r.visitPhotos == [] && r.trustScore == Some(ReviewTrust(photos, honesty) as real)
  {
    Review(id, booking.id, property.id,
           if user.Some? && user.value.id != "" then user.value.id else "expat-001",
           property.ownerId, photos, honesty, TickedCount(checklist), SafetyAccuracy(safety),
           OverallRating(photos, honesty), Recommends(recommend), Some(comment), [],
           Some(ReviewTrust(photos, honesty) as real))
  }

  /** The header's progress: `round(step / 5 * 100)`. */
  function ProgressPercent(step: int): (percent: int)
    ensures 0 <= step <= 5 ==> 0 <= percent <= 100
    ensures step == 5 ==> percent == 100
  {
    Round((step as real / 5.0) * 100.0)
  }

  /** Each step adds a fifth. */
  lemma ProgressPercentIsTwentyPerStep(step: int)
    ensures ProgressPercent(step) == 20 * step
  {
    assert (step as real / 5.0) * 100.0 == (20 * step) as real;
  }

  class ReviewForm {
    var step: int
    var photosAccuracy: int
    var honestyRating: int
    var checklist: map<string, bool>
    var safetyRating: string
    var wouldRecommend: string
    var comment: string

    /** The step is 1..5, every answer is one the buttons offer or still unset (0 or ""),
        and every step passed has its answer. */
    predicate Valid()
      reads this
    {
      && 1 <= step <= 5
      && (photosAccuracy == 0 || photosAccuracy in PhotoOptions)
      && (honestyRating == 0 || honestyRating in StarOptions)
      && (safetyRating == "" || safetyRating in SafetyOptions)
      && (wouldRecommend == "" || wouldRecommend in RecommendOptions)
      && (step > 1 ==> photosAccuracy != 0)
      && (step > 3 ==> honestyRating != 0)
      && (step > 4 ==> safetyRating != "")
    }

    /** The form for a listing: step 1, nothing answered, the checklist all ticked. */
    constructor (amenities: seq<string>)
      ensures step == 1 && photosAccuracy == 0 && honestyRating == 0
      ensures checklist == InitialChecklist(amenities)
      ensures safetyRating == "" && wouldRecommend == "" && comment == ""
      ensures Valid()
    {
      step := 1;
      photosAccuracy := 0;
      honestyRating := 0;
      checklist := InitialChecklist(amenities);
      safetyRating := "";
      wouldRecommend := "";
      comment := "";
    }

    /** Next is shown below step 5 and blocked at steps 1, 3 and 4 until answered. */
    predicate NextEnabled()
      reads this
    {
      step < 5 && !((step == 1 && photosAccuracy == 0) || (step == 3 && honestyRating == 0)
                    || (step == 4 && safetyRating == ""))
    }

    /** Submit is shown at step 5 and needs a recommendation. */
    predicate SubmitEnabled()
      reads this
    {
      step == 5 && wouldRecommend != ""
    }

    /** A click on Next: `setStep(s => s + 1)` when the button is enabled. */
    method ClickNext()
      requires Valid()
      modifies this
      ensures step == if old(NextEnabled()) then old(step) + 1 else old(step)
      ensures photosAccuracy == old(photosAccuracy) && honestyRating == old(honestyRating)
      ensures checklist == old(checklist) && safetyRating == old(safetyRating)
      ensures wouldRecommend == old(wouldRecommend) && comment == old(comment)
      ensures Valid()
    {
      if NextEnabled() {
        step := step + 1;
      }
    }

    /** A click on Back: `setStep(s => s - 1)`, disabled at step 1. */
    method ClickBack()
      requires Valid()
      modifies this
      ensures step == if old(step) == 1 then 1 else old(step) - 1
      ensures photosAccuracy == old(photosAccuracy) && honestyRating == old(honestyRating)
      ensures checklist == old(checklist) && safetyRating == old(safetyRating)
      ensures wouldRecommend == old(wouldRecommend) && comment == old(comment)
      ensures Valid()
    {
      if step != 1 {
        step := step - 1;
      }
    }

    /** A photo-accuracy button. */
    method ChoosePhotos(v: int)
      requires Valid() && v in PhotoOptions
      modifies this
      ensures photosAccuracy == v
      ensures step == old(step) && honestyRating == old(honestyRating)
      ensures checklist == old(checklist) && safetyRating == old(safetyRating)
      ensures wouldRecommend == old(wouldRecommend) && comment == old(comment)
      ensures Valid()
    {
      photosAccuracy := v;
    }

    /** A star. */
    method ChooseHonesty(star: int)
      requires Valid() && star in StarOptions
      modifies this
      ensures honestyRating == star
      ensures step == old(step) && photosAccuracy == old(photosAccuracy)
      ensures checklist == old(checklist) && safetyRating == old(safetyRating)
      ensures wouldRecommend == old(wouldRecommend) && comment == old(comment)
      ensures Valid()
    {
      honestyRating := star;
    }

    /** A checklist box. */
    method SetChecked(amenity: string, checked: bool)
      requires Valid()
      modifies this
      ensures checklist == old(checklist)[amenity := checked]
      ensures step == old(step) && photosAccuracy == old(photosAccuracy)
      ensures honestyRating == old(honestyRating) && safetyRating == old(safetyRating)
      ensures wouldRecommend == old(wouldRecommend) && comment == old(comment)
      ensures Valid()
    {
      checklist := checklist[amenity := checked];
    }

    /** A safety answer. */
    method ChooseSafety(answer: string)
      requires Valid() && answer in SafetyOptions
      modifies this
      ensures safetyRating == answer
      ensures step == old(step) && photosAccuracy == old(photosAccuracy)
      ensures honestyRating == old(honestyRating) && checklist == old(checklist)
      ensures wouldRecommend == old(wouldRecommend) && comment == old(comment)
      ensures Valid()
    {
      safetyRating := answer;
    }

    /** A recommendation answer. */
    method ChooseRecommendation(answer: string)
      requires Valid() && answer in RecommendOptions
      modifies this
      ensures wouldRecommend == answer
      ensures step == old(step) && photosAccuracy == old(photosAccuracy)
      ensures honestyRating == old(honestyRating) && checklist == old(checklist)
      ensures safetyRating == old(safetyRating) && comment == old(comment)
      ensures Valid()
    {
      wouldRecommend := answer;
    }

    /** The comment box. */
    method SetComment(text: string)
      requires Valid()
      modifies this
      ensures comment == text
      ensures step == old(step) && photosAccuracy == old(photosAccuracy)
      ensures honestyRating == old(honestyRating) && checklist == old(checklist)
      ensures safetyRating == old(safetyRating) && wouldRecommend == old(wouldRecommend)
      ensures Valid()
    {
      comment := text;
    }

    /** The review a submit of the current answers records. */
    function Submitted(id: string, booking: Booking, property: Property, user: Option<User>): Review
      reads this
    {
      NewReview(id, booking, property, user, photosAccuracy, honestyRating, checklist,
                safetyRating, wouldRecommend, comment)
    }

    /** A click on Submit: when enabled, adds the review to the reviews store. A review
        submitted this way has a rating in 1..5 for photos and for honesty, and a trust
        score in 43..100. */
    method ClickSubmit(reviews: ReviewsStore, id: string, booking: Booking, property: Property,
                       user: Option<User>)
      requires Valid()
      modifies reviews
      ensures reviews.reviews == if SubmitEnabled() then [Submitted(id, booking, property, user)] + old(reviews.reviews)
                                 else old(reviews.reviews)
      ensures SubmitEnabled() ==>
                var r := Submitted(id, booking, property, user);
                r.photosAccuracy in PhotoOptions && r.descriptionAccuracy in StarOptions
                && r.trustScore.Some? && 43.0 <= r.trustScore.value <= 100.0
    {
      if SubmitEnabled() {
        ReviewTrustRange(photosAccuracy, honestyRating);
        reviews.AddReview(Submitted(id, booking, property, user));
      }
    }
  }
}
