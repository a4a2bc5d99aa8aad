/** The listing match-scoring engine (src/lib/ai-matcher.ts): four step-function
    sub-scores, the weighted match score, and the final score built from the match score,
    the owner's trust, the price competitiveness within the catalog and a distance bonus.

    Scores are exact reals, so band edges such as a price ratio of exactly 1.1 behave as
    written rather than as IEEE doubles would. `Math.round` is `Round` below. The
    great-circle distance is not computed here: every operation that needs it takes it as
    the parameter `haversine`, applied to the university's and the listing's coordinates. */
module Matcher {
  import opened Wrappers
  import opened Seqs
  import opened Types

  /** `Math.round`: the nearest integer, halves rounded up. */
  function Round(x: real): (r: int)
    ensures r as real <= x + 0.5 < r as real + 1.0
  {
    (x + 0.5).Floor
  }

  /** Rounding keeps a value within integer bounds. */
  lemma RoundWithin(x: real, lo: int, hi: int)
    requires lo as real <= x <= hi as real
    ensures lo <= Round(x) <= hi
  {
  }

  lemma RoundKeepsScale(x: real)
    ensures 0.0 <= x <= 100.0 ==> 0 <= Round(x) <= 100
  {
  }

  /** UNIVERSITY_COORDINATES. */
  const UniversityCoordinates: map<string, Coordinates> := map[
    "cairo" := Coordinates(30.0237, 31.2086),
    "ain_shams" := Coordinates(30.0778, 31.2859),
    "auc" := Coordinates(30.0192, 31.4994),
    "alexandria" := Coordinates(31.2001, 29.9187),
    "mansoura" := Coordinates(31.0364, 31.3807),
    "tanta" := Coordinates(30.7865, 31.0004),
    "assiut" := Coordinates(27.1783, 31.1859),
    "qena" := Coordinates(26.1551, 32.716),
    "sohag" := Coordinates(26.5569, 31.6948),
    "zagazig" := Coordinates(30.5765, 31.5041)
  ]

  /** Every university the onboarding offers has coordinates, so for those the neutral
      distance score can only come from a listing without coordinates. */
  lemma SupportedUniversitiesHaveCoordinates()
    ensures forall u :: u in SupportedUniversities ==> u.id in UniversityCoordinates
  {
  }

  // ---------------------------------------------------------------- distance

  /** The distance thresholds: each bound belongs to the closer bucket. */
  function DistanceBucket(km: real): (r: real)
    ensures km <= 5.0 ==> r == 100.0
    ensures 5.0 < km <= 10.0 ==> r == 70.0
    ensures 10.0 < km <= 15.0 ==> r == 40.0
    ensures 15.0 < km ==> r == 20.0
  {
    if km <= 5.0 then 100.0
    else if km <= 10.0 then 70.0
    else if km <= 15.0 then 40.0
    else 20.0
  }

  /** The farther the listing, the lower (or equal) the bucket. */
  lemma DistanceBucketNonIncreasing(near: real, far: real)
    requires near <= far
    ensures DistanceBucket(far) <= DistanceBucket(near)
  {
  }

  /** calculateDistanceScore: 50 when the university id or the listing has no
      coordinates, otherwise the bucket of the distance between them. */
  function DistanceScore(p: Property, universityId: string,
                         haversine: (Coordinates, Coordinates) -> real): (r: real)
    ensures r == 50.0 <==> universityId !in UniversityCoordinates || p.coordinates.None?
    ensures r in {100.0, 70.0, 40.0, 20.0, 50.0}
    ensures universityId in UniversityCoordinates && p.coordinates.Some? ==>
              r == DistanceBucket(haversine(UniversityCoordinates[universityId], p.coordinates.value))
  {
    if universityId !in UniversityCoordinates || p.coordinates.None? then 50.0
    else DistanceBucket(haversine(UniversityCoordinates[universityId], p.coordinates.value))
  }

  // ---------------------------------------------------------------- price

  /** The price bands on price / budget. */
  function PriceBand(ratio: real): (r: real)
    ensures ratio <= 1.0 ==> r == 100.0
    ensures 1.0 < ratio <= 1.1 ==> r == 80.0
    ensures 1.1 < ratio <= 1.2 ==> r == 60.0
    ensures 1.2 < ratio <= 1.3 ==> r == 40.0
    ensures 1.3 < ratio ==> r == 20.0
  {
    if ratio <= 1.0 then 100.0
    else if ratio <= 1.1 then 80.0
    else if ratio <= 1.2 then 60.0
    else if ratio <= 1.3 then 40.0
    else 20.0
  }

  /** calculatePriceScore. The budget must be positive; the source divides by it. */
  function PriceScore(price: real, budget: real): (r: real)
    requires budget > 0.0
    ensures r == 100.0 <==> price <= budget
    ensures r in {100.0, 80.0, 60.0, 40.0, 20.0}
  {
    PriceBand(price / budget)
  }

  /** A dearer listing never scores higher on price. */
  lemma PriceScoreNonIncreasing(cheap: real, dear: real, budget: real)
    requires budget > 0.0 && cheap <= dear
    ensures PriceScore(dear, budget) <= PriceScore(cheap, budget)
  {
    assert cheap / budget <= dear / budget;
  }

  /** The four reference points of the price bands. */
  lemma PriceScoreReferencePoints(budget: real)
    requires budget > 0.0
    ensures PriceScore(budget, budget) == 100.0
    ensures PriceScore(1.05 * budget, budget) == 80.0
    ensures PriceScore(1.25 * budget, budget) == 40.0
    ensures PriceScore(2.0 * budget, budget) == 20.0
  {
    assert (1.05 * budget) / budget == 1.05;
    assert (1.25 * budget) / budget == 1.25;
    assert (2.0 * budget) / budget == 2.0;
  }

  // ---------------------------------------------------------------- type

  /** typeHierarchy: the acceptable alternatives to each preferred type. */
  const TypeHierarchy: map<string, seq<string>> := map[
    "shared_bed" := ["private_room", "full_apartment"],
    "private_room" := ["shared_bed", "full_apartment"],
    "full_apartment" := ["private_room", "shared_bed"]
  ]

  /** calculateTypeScore: 100 on a match, 60 for a listed alternative, else 30. */
  function TypeScore(listingType: string, preferred: string): (r: real)
    ensures r == 100.0 <==> listingType == preferred
    ensures r == 60.0 <==> listingType != preferred && preferred in TypeHierarchy
                             && listingType in TypeHierarchy[preferred]
    ensures r in {100.0, 60.0, 30.0}
  {
    if listingType == preferred then 100.0
    else
      var alternatives := if preferred in TypeHierarchy then TypeHierarchy[preferred] else [];
      if listingType in alternatives then 60.0 else 30.0
  }

  /** Each of the three types lists exactly the two others as alternatives, so any
      mismatch between two of them scores 60 and the 30 fallback is only reached with an
      id outside the enumeration. */
  lemma TypeMismatchScoresSixty(listingType: string, preferred: string)
    requires listingType in PropertyTypeIds && preferred in PropertyTypeIds
    requires listingType != preferred
    ensures TypeScore(listingType, preferred) == 60.0
  {
  }

  lemma TypeHierarchyListsTheOthers()
    ensures TypeHierarchy.Keys == set t | t in PropertyTypeIds
    ensures forall t :: t in TypeHierarchy ==>
              |TypeHierarchy[t]| == 2 && t !in TypeHierarchy[t]
              && forall u :: u in TypeHierarchy[t] ==> u in PropertyTypeIds
  {
  }

  /** An unknown preferred type has no alternatives. */
  lemma UnknownPreferredTypeScoresThirty(listingType: string, preferred: string)
    requires preferred !in TypeHierarchy && listingType != preferred
    ensures TypeScore(listingType, preferred) == 30.0
  {
  }

  // ---------------------------------------------------------------- amenities

  /** priorityToAmenities. */
  const PriorityToAmenities: map<string, seq<string>> := map[
    "near_university" := [],
    "cheap_price" := [],
    "safety" := ["security"],
    "quiet" := [],
    "strong_wifi" := ["wifi"],
    "furnished" := []
  ]

  /** `priorityToAmenities[p] || []`. */
  function AmenitiesFor(priority: string): seq<string> {
    if priority in PriorityToAmenities then PriorityToAmenities[priority] else []
  }

  /** `preferences.flatMap(p => priorityToAmenities[p] || [])`: a requirement per
      mapped preference, repeats included. */
  function RequiredAmenities(preferences: seq<string>): (r: seq<string>)
    ensures |r| <= |preferences|
    ensures forall i :: 0 <= i < |r| ==> r[i] == "security" || r[i] == "wifi"
    ensures "security" in r <==> "safety" in preferences
    ensures "wifi" in r <==> "strong_wifi" in preferences
  {
    if preferences == [] then [] else AmenitiesFor(preferences[0]) + RequiredAmenities(preferences[1..])
  }

  /** The table's keys are exactly the search priorities. */
  lemma PriorityTableMatchesSearchPriorities()
    ensures forall p :: p in PriorityToAmenities <==> p in Ids(SearchPriorityTable)
  {
    var ids := Ids(SearchPriorityTable);
    assert ids[0] == "near_university" && ids[1] == "cheap_price" && ids[2] == "safety";
    assert ids[3] == "quiet" && ids[4] == "strong_wifi" && ids[5] == "furnished";
    assert PriorityToAmenities.Keys == set i | 0 <= i < |ids| :: ids[i];
  }

  /** Only safety and strong WiFi map to an amenity, and both to amenity ids. */
  lemma OnlySafetyAndWifiMapToAmenities()
    ensures forall p :: p in PriorityToAmenities && PriorityToAmenities[p] != [] ==>
              p == "safety" || p == "strong_wifi"
    ensures AmenitiesFor("safety") == ["security"] && AmenitiesFor("strong_wifi") == ["wifi"]
    ensures "security" in Ids(AmenityTable) && "wifi" in Ids(AmenityTable)
  {
    assert Ids(AmenityTable)[0] == "wifi";
    assert Ids(AmenityTable)[4] == "security";
  }

  function Present(listingAmenities: seq<string>): string -> bool {
    (a: string) => a in listingAmenities
  }

  /** calculateAmenitiesScore: 100 with no preferences or no resulting requirement,
      otherwise the percentage of requirements the listing meets. */
  function AmenitiesScore(listingAmenities: seq<string>, preferences: seq<string>): (r: real)
    ensures 0.0 <= r <= 100.0
    ensures RequiredAmenities(preferences) == [] ==> r == 100.0
    ensures r == 100.0 <==> forall a :: a in RequiredAmenities(preferences) ==> a in listingAmenities
    ensures RequiredAmenities(preferences) != [] ==>
              r == Count(RequiredAmenities(preferences), Present(listingAmenities)) as real
                   / |RequiredAmenities(preferences)| as real * 100.0
  {
    var required := RequiredAmenities(preferences);
    CountAll(required, Present(listingAmenities));
    if |preferences| == 0 then 100.0
    else if |required| == 0 then 100.0
    else
      var matched := Count(required, Present(listingAmenities));
      Percentage(matched, |required|)
  }

  /** `(part / whole) * 100` for a part of a whole. */
  function Percentage(part: nat, whole: nat): (r: real)
    requires 0 < whole && part <= whole
    ensures 0.0 <= r <= 100.0
    ensures r == 100.0 <==> part == whole
  {
    var q := part as real / whole as real;
    assert q * whole as real == part as real;
    assert q <= 1.0;
    assert q == 1.0 <==> part == whole;
    q * 100.0
  }

  /** Each preference that maps to an amenity adds exactly one requirement. */
  lemma {:induction false} RequiredAmenitiesLength(preferences: seq<string>)
    ensures |RequiredAmenities(preferences)| ==
              Count(preferences, Equals("safety")) + Count(preferences, Equals("strong_wifi"))
    decreases |preferences|
  {
    if preferences != [] {
      RequiredAmenitiesLength(preferences[1..]);
    }
  }

  /** With duplicate-free preferences there are at most two requirements, so the
      amenity score is 0, 50 or 100. */
  lemma AmenitiesScoreValues(listingAmenities: seq<string>, preferences: seq<string>)
    requires NoDuplicates(preferences)
    ensures AmenitiesScore(listingAmenities, preferences) in {0.0, 50.0, 100.0}
  {
    var required := RequiredAmenities(preferences);
    RequiredAmenitiesLength(preferences);
    CountSingle(preferences, "safety");
    CountSingle(preferences, "strong_wifi");
    if |preferences| != 0 && |required| != 0 {
      var matched := Count(required, Present(listingAmenities));
      assert |required| == 1 || |required| == 2;
      assert matched as real / |required| as real in {0.0, 0.5, 1.0};
    }
  }

  /** A repeated preference is counted once per occurrence: two "safety" and one
      "strong_wifi" against a listing with security only meet two of three requirements. */
  lemma RepeatedPreferencesCountSeparately()
    ensures RequiredAmenities(["safety", "safety", "strong_wifi"]) == ["security", "security", "wifi"]
    ensures AmenitiesScore(["security"], ["safety", "safety", "strong_wifi"]) == 200.0 / 3.0
  {
    var req := ["security", "security", "wifi"];
    RepeatedSafetyRequirements();
    RepeatedSafetyMet();
    assert RequiredAmenities(["safety", "safety", "strong_wifi"]) == req;
    assert Count(req, Present(["security"])) as real / |req| as real * 100.0 == 200.0 / 3.0;
  }

  /** Each occurrence of a preference adds its amenity to the requirements. */
  lemma RepeatedSafetyRequirements()
    ensures RequiredAmenities(["safety", "safety", "strong_wifi"]) == ["security", "security", "wifi"]
  {
    var prefs := ["safety", "safety", "strong_wifi"];
    assert RequiredAmenities(prefs[2..]) == ["wifi"];
    assert RequiredAmenities(prefs[1..]) == ["security", "wifi"];
  }

  /** A listing with security meets both security requirements but not the WiFi one. */
  lemma RepeatedSafetyMet()
    ensures Count(["security", "security", "wifi"], Present(["security"])) == 2
  {
    var req := ["security", "security", "wifi"];
    assert Filter(req[2..], Present(["security"])) == [];
    assert Filter(req[1..], Present(["security"])) == ["security"];
  }

  // ---------------------------------------------------------------- trust and market

  /** The owner's average trust when known (as the reports state it, 0 to 100). */
  predicate TrustInRange(p: Property) {
    p.ownerStats.None? || 0.0 <= p.ownerStats.value.averageTrustScore <= 100.0
  }

  /** calculateTrustScore: the owner's average trust score, or 50 without statistics. */
  function TrustScore(p: Property): (r: real)
    ensures p.ownerStats.None? ==> r == 50.0
    ensures p.ownerStats.Some? ==> r == p.ownerStats.value.averageTrustScore
    ensures TrustInRange(p) ==> 0.0 <= r <= 100.0
  {
    if p.ownerStats.None? then 50.0 else p.ownerStats.value.averageTrustScore
  }

  predicate PositivePrices(catalog: seq<Property>) {
    forall i :: 0 <= i < |catalog| ==> catalog[i].price > 0.0
  }

  function SameMarket(p: Property): Property -> bool {
    (q: Property) => q.city == p.city && q.propertyType == p.propertyType
  }

  /** The catalog listings with the listing's city and type (the listing itself included
      when it is in the catalog). */
  function MarketGroup(p: Property, catalog: seq<Property>): (group: seq<Property>)
    ensures IsSublist(group, catalog)
    ensures forall q :: q in group <==> q in catalog && q.city == p.city && q.propertyType == p.propertyType
    ensures forall q :: multiset(group)[q] ==
              if q.city == p.city && q.propertyType == p.propertyType then multiset(catalog)[q] else 0
  {
    FilterIsSublist(catalog, SameMarket(p));
    FilterMultiset(catalog, SameMarket(p));
    Filter(catalog, SameMarket(p))
  }

  function PriceOf(q: Property): real {
    q.price
  }

  /** The group's mean price: one listing is its own mean, and positive prices have a
      positive mean. */
  function MeanPrice(group: seq<Property>): (mean: real)
    requires group != []
    ensures |group| == 1 ==> mean == group[0].price
    ensures PositivePrices(group) ==> mean > 0.0
  {
    SumPositiveWhen(group, PriceOf);
    assert |group| == 1 ==> Sum(group, PriceOf) == group[0].price;
    Sum(group, PriceOf) / |group| as real
  }

  /** calculatePriceCompetitiveness: 50 with no listing of the same city and type;
      otherwise at least 80 when at or below the group's mean price, and never outside
      20..100. Prices must be positive; the source divides by them. */
  function PriceCompetitiveness(p: Property, catalog: seq<Property>): (r: real)
    requires p.price > 0.0 && PositivePrices(catalog)
    ensures MarketGroup(p, catalog) == [] ==> r == 50.0
    ensures MarketGroup(p, catalog) != [] ==> 20.0 <= r <= 100.0
    ensures MarketGroup(p, catalog) != [] && p.price <= MeanPrice(MarketGroup(p, catalog)) ==> r >= 80.0
  {
    var group := MarketGroup(p, catalog);
    if |group| == 0 then 50.0
    else
      assert forall i :: 0 <= i < |group| ==> group[i].price > 0.0;
      SumPositive(group, PriceOf);
      var avg := MeanPrice(group);
      if p.price <= avg then BelowMean(p.price, avg) else AboveMean(p.price, avg)
  }

  /** `Math.min(100, (avg / price) * 80)`: at least 80 at or below the mean. */
  function BelowMean(price: real, avg: real): (r: real)
    requires 0.0 < price <= avg
    ensures 80.0 <= r <= 100.0
  {
    var q := avg / price;
    assert q * price == avg;
    assert q >= 1.0;
    Min(100.0, q * 80.0)
  }

  /** `Math.max(20, 100 - ((price - avg) / avg) * 50)`: 20 to 100 above the mean. */
  function AboveMean(price: real, avg: real): (r: real)
    requires 0.0 < avg < price
    ensures 20.0 <= r <= 100.0
  {
    var q := (price - avg) / avg;
    assert q * avg == price - avg;
    assert q > 0.0;
    Max(20.0, 100.0 - q * 50.0)
  }

  function Min(a: real, b: real): real { if a <= b then a else b }
  function Max(a: real, b: real): real { if a >= b then a else b }

  /** A listing alone in its city and type is its own mean, so it scores 80, not the
      neutral 50. */
  lemma LoneListingCompetitiveness(p: Property, catalog: seq<Property>)
    requires p.price > 0.0 && PositivePrices(catalog)
    requires MarketGroup(p, catalog) == [p]
    ensures PriceCompetitiveness(p, catalog) == 80.0
  {
    assert Sum([p], PriceOf) == p.price;
  }

  // ---------------------------------------------------------------- composites

  /** The match score's weights: distance 35%, price 30%, type 20%, amenities 15%. */
  function MatchComposite(distance: real, price: real, kind: real, amenities: real): (r: real)
    ensures Min(Min(distance, price), Min(kind, amenities)) <= r <= Max(Max(distance, price), Max(kind, amenities))
  {
    distance * 0.35 + price * 0.30 + kind * 0.20 + amenities * 0.15
  }

  /** The final score's weights: match 40%, trust 30%, competitiveness 20%, bonus 10%. */
  function FinalComposite(matchPart: real, trust: real, competitiveness: real, bonus: real): (r: real)
    ensures Min(Min(matchPart, trust), Min(competitiveness, bonus)) <= r
    ensures r <= Max(Max(matchPart, trust), Max(competitiveness, bonus))
  {
    matchPart * 0.4 + trust * 0.3 + competitiveness * 0.2 + bonus * 0.1
  }

  /** The coarse distance bonus on the distance sub-score. */
  function DistanceBonus(distanceScore: real): (r: real)
    ensures distanceScore >= 90.0 ==> r == 100.0
    ensures 70.0 <= distanceScore < 90.0 ==> r == 70.0
    ensures distanceScore < 70.0 ==> r == 40.0
  {
    if distanceScore >= 90.0 then 100.0 else if distanceScore >= 70.0 then 70.0 else 40.0
  }

  /** Both sets of weights sum to one and are non-negative, so each composite of scores
      in 0..100 is in 0..100 and a composite of equal parts is that part. */
  lemma CompositesAreAverages(a: real, b: real, c: real, d: real)
    requires 0.0 <= a <= 100.0 && 0.0 <= b <= 100.0 && 0.0 <= c <= 100.0 && 0.0 <= d <= 100.0
    ensures 0.0 <= MatchComposite(a, b, c, d) <= 100.0
    ensures 0.0 <= FinalComposite(a, b, c, d) <= 100.0
    ensures MatchComposite(a, a, a, a) == a && FinalComposite(a, a, a, a) == a
  {
  }

  /** With the trust part unconstrained, the final composite is in 0..100 whenever the
      trust part is. */
  lemma FinalWithin(m: real, trust: real, comp: real, bonus: real)
    requires 0.0 <= m <= 100.0 && 0.0 <= comp <= 100.0 && 0.0 <= bonus <= 100.0
    ensures 0.0 <= trust <= 100.0 ==> 0.0 <= FinalComposite(m, trust, comp, bonus) <= 100.0
  {
  }

  /** PropertyWithScores: the listing and its three rounded scores. */
  datatype ScoredListing = ScoredListing(property: Property, matchScore: int, trustScore: int, finalScore: int)

  /** The unrounded parts of one listing's score. */
  datatype Breakdown = Breakdown(distance: real, price: real, kind: real, amenities: real,
                                 matchPart: real, trust: real, competitiveness: real, bonus: real,
                                 final: real)

  function Scores(criteria: MatchingCriteria, p: Property, catalog: seq<Property>,
                  haversine: (Coordinates, Coordinates) -> real): (b: Breakdown)
    requires criteria.budget > 0.0 && p.price > 0.0 && PositivePrices(catalog)
    ensures 0.0 <= b.matchPart <= 100.0
    ensures TrustInRange(p) ==> 0.0 <= b.final <= 100.0
  {
    var d := DistanceScore(p, criteria.university, haversine);
    var pr := PriceScore(p.price, criteria.budget);
    var t := TypeScore(p.propertyType, criteria.propertyType);
    var a := AmenitiesScore(p.amenities, criteria.preferences);
    var m := MatchComposite(d, pr, t, a);
    var trust := TrustScore(p);
    var comp := PriceCompetitiveness(p, catalog);
    var bonus := DistanceBonus(d);
    CompositesAreAverages(d, pr, t, a);
    assert 0.0 <= m <= 100.0;
    FinalWithin(m, trust, comp, bonus);
    Breakdown(d, pr, t, a, m, trust, comp, bonus, FinalComposite(m, trust, comp, bonus))
  }

  /** calculateMatchScore: the rounded match, trust and final scores of one listing
      against the catalog. With the owner's trust in 0..100 all three are in 0..100. */
  function MatchScore(criteria: MatchingCriteria, p: Property, catalog: seq<Property>,
                      haversine: (Coordinates, Coordinates) -> real): (r: ScoredListing)
    requires criteria.budget > 0.0 && p.price > 0.0 && PositivePrices(catalog)
    ensures r.property == p
    ensures 0 <= r.matchScore <= 100
    ensures TrustInRange(p) ==> 0 <= r.trustScore <= 100 && 0 <= r.finalScore <= 100
    ensures p.ownerStats.None? ==> r.trustScore == 50
    ensures p.ownerStats.Some? ==> r.trustScore == Round(p.ownerStats.value.averageTrustScore)
  {
    var b := Scores(criteria, p, catalog, haversine);
    RoundWithin(b.matchPart, 0, 100);
    RoundKeepsScale(b.trust);
    RoundKeepsScale(b.final);
    ScoredListing(p, Round(b.matchPart), Round(b.trust), Round(b.final))
  }

  // ---------------------------------------------------------------- worked examples

  const Cairo := "القاهرة"

  /** A listing near Cairo University, priced `price`, of type shared_bed, without owner
      statistics; `at` stands for its coordinates. */
  function SampleListing(id: string, price: real, at: Coordinates): Property {
    Property(id, "", "", price, PerBed, "", Cairo, Some(at), [], "shared_bed", 1, 1, 1,
             [], [], false, false, true, "owner-001", None)
  }

  const SampleCriteria := MatchingCriteria("cairo", 1000.0, "shared_bed", [], None)

  /** A lone listing 3 km away, within budget, of the preferred type, without owner
      statistics or preferences: match 100, trust 50, competitiveness 80, bonus 100, so
      final 40 + 15 + 16 + 10 = 81. */
  lemma LoneNearbyListingScores81(at: Coordinates, haversine: (Coordinates, Coordinates) -> real)
    requires haversine(UniversityCoordinates["cairo"], at) == 3.0
    ensures MatchScore(SampleCriteria, SampleListing("A", 900.0, at), [SampleListing("A", 900.0, at)], haversine)
            == ScoredListing(SampleListing("A", 900.0, at), 100, 50, 81)
  {
    var a := SampleListing("A", 900.0, at);
    assert MarketGroup(a, [a]) == [a];
    LoneListingCompetitiveness(a, [a]);
    assert RequiredAmenities([]) == [];
  }

  /** A lone listing 20 km away at 1300 against a budget of 1000: distance 20, price 40,
      match 7 + 12 + 20 + 15 = 54, bonus 40, final 21.6 + 15 + 16 + 4 = 56.6, rounded 57. */
  lemma LoneFarListingScores57(at: Coordinates, haversine: (Coordinates, Coordinates) -> real)
    requires haversine(UniversityCoordinates["cairo"], at) == 20.0
    ensures MatchScore(SampleCriteria, SampleListing("B", 1300.0, at), [SampleListing("B", 1300.0, at)], haversine)
            == ScoredListing(SampleListing("B", 1300.0, at), 54, 50, 57)
  {
    var b := SampleListing("B", 1300.0, at);
    assert MarketGroup(b, [b]) == [b];
    LoneListingCompetitiveness(b, [b]);
    assert RequiredAmenities([]) == [];
    assert 1300.0 / 1000.0 == 1.3;
  }
}
